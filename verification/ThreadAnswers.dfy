/** What one delivery of a run does to its conversation, told from the row, what it waited for, and the provider's answers. */
module ThreadAnswers {
  import opened Wrappers
  import opened Transcript
  import opened AgentRuns
  import opened AgentRunTheorems
  import opened AgentAnswers
  import opened Threads
  import opened ThreadSafety
  import opened ThreadHistory
  import opened ThreadTheorems
  import opened ThreadSteps

  // ------------------------------------------------------------------ which deliveries get to work

  /** No other run of the thread that is still active was created before this one. */
  predicate NoneBefore(s: State, i: nat)
    requires i < |s.runs|
  {
    forall j :: 0 <= j < |s.runs| && j != i && Active(s.runs[j]) ==> !KeyLess(s.runs[j], s.runs[i])
  }

  /** What the run waits for, if anything, is there: the page's answer or a verdict. */
  predicate Ready(s: State, r: Run) {
    r.pending.Some? ==>
      if r.pending.value.ForPage? then r.pending.value.result.Some?
      else r.pending.value.approval < |s.approvals| && !s.approvals[r.pending.value.approval].verdict.Undecided?
  }

  predicate MayStart(s: State, i: nat)
    requires i < |s.runs|
  {
    s.runs[i].status.Queued? ==> s.desk.AiQueue? && NoneBefore(s, i)
  }

  predicate GetsToWork(s: State, e: Event) {
    e.Execute? && Enabled(s, e) && !Terminal(s.runs[e.i].status) && MayStart(s, e.i) && Ready(s, s.runs[e.i])
  }

  /** The verdict on the request a run is parked on. */
  function VerdictOn(s: State, r: Run): Verdict
    requires Ready(s, r)
  {
    if r.pending.Some? && r.pending.value.ForHuman? then s.approvals[r.pending.value.approval].verdict else Rejected
  }

  predicate ApprovedCall(s: State, r: Run)
    requires Ready(s, r)
  {
    r.pending.Some? && r.pending.value.ForHuman? && VerdictOn(s, r).Approved?
  }

  /** The row as its worker has it. */
  predicate ClaimedAs(r: Run, c: Run, now: int) {
    c.status.Running? && c == r.(startedAt := c.startedAt, status := c.status, lease := c.lease, updatedAt := now)
    && c.startedAt == (if r.startedAt.Some? then r.startedAt else Some(now)) && c.lease == Some(now + 120)
  }

  lemma LineIsEarlier(s: State, i: nat)
    requires i < |s.runs|
    ensures NoneBefore(s, i) <==> !EarlierActive(s.runs, i)
  {
  }

  lemma WorkIsClaimed(cfg: Config, s: State, e: Event)
    requires Safe(cfg, s) && GetsToWork(s, e) && !s.runs[e.i].status.Running?
    ensures var r := s.runs[e.i];
            var claim := ClaimRun(r, e.now);
            claim.Claimed? && ClaimedAs(r, claim.run, e.now) && Claimable(cfg, claim.run)
            && VerdictFor(s, r) == VerdictOn(s, r)
  {
    assert RunOk(cfg, s.runs[e.i]);
    assert RequestsOk(s);
    hide Safe;
    hide WithinBudget;
    hide SnapshotOwes;
    ClaimLegal(cfg, s.runs[e.i], e.now);
    hide Claimable;
    hide NoneBefore;
  }

  function EnvAt(cfg: Config, s: State, e: Event): Env
    requires e.Execute?
  {
    Env(cfg, e.now, e.askFirst, e.i, |s.approvals|, s.nextOp)
  }

  lemma WorkBegins(cfg: Config, s: State, e: Event)
    requires Safe(cfg, s) && GetsToWork(s, e) && !s.runs[e.i].status.Running?
    ensures var c := ClaimRun(s.runs[e.i], e.now).run;
            var b := Begin(EnvAt(cfg, s, e), c, VerdictOn(s, s.runs[e.i]), s.desk, s.link, e.delivery);
            b.Began? && Sound(EnvAt(cfg, s, e), b.act) && Started(cfg, s, e) == Began(Drive(EnvAt(cfg, s, e), b.act, e.delivery.script))
  {
    WorkIsClaimed(cfg, s, e);
    var r := s.runs[e.i];
    var c := ClaimRun(r, e.now).run;
    assert ClaimedAs(r, c, e.now);
    hide Safe;
    hide ClaimRun;
    hide Claimable;
    hide Sound;
    hide Drive;
    hide Begin;
    hide VerdictFor;
    hide NoneBefore;
    BeginsWhenAnswered(EnvAt(cfg, s, e), c, VerdictOn(s, r), s.desk, s.link, e.delivery);
    BeginSound(EnvAt(cfg, s, e), c, VerdictOn(s, r), s.desk, s.link, e.delivery);
  }

  lemma WorkIsDelivered(cfg: Config, s: State, e: Event)
    requires Safe(cfg, s) && GetsToWork(s, e) && !s.runs[e.i].status.Running? && Started(cfg, s, e).Began?
    ensures var t := s.(clock := e.now);
            var act := Started(cfg, s, e).act;
            Next(cfg, s, e) == if act.fate.Aborted?
                               then RollBack(t, ClaimRun(s.runs[e.i], e.now).run, VerdictFor(s, s.runs[e.i]), act)
                               else Commit(t.(tasks := t.tasks - multiset{e.i}), e.i, act)
  {
    WorkIsClaimed(cfg, s, e);
    LineIsEarlier(s, e.i);
    hide Safe;
    hide ClaimRun;
    hide Claimable;
    hide Activate;
    hide Commit;
    hide RollBack;
    hide EarlierActive;
    hide NoneBefore;
    hide VerdictFor;
    hide VerdictOn;
  }

  // ------------------------------------------------------------------ what a committed delivery writes

  /** Row, desk, posts and effects of the thread after a delivery that was committed. */
  predicate Wrote(s: State, i: nat, act: Act, t: State)
    requires i < |s.runs|
  {
    && t.runs == s.runs[i := act.run] && t.desk == act.desk && t.link == act.link
    && t.posts == s.posts + (if act.fate.Finished? && act.fate.posted then [Post(i, act.run.trigger)] else [])
    && t.effects == s.effects + act.effects
    && t.approvals == s.approvals + (if act.raised.Some? then [act.raised.value] else [])
    && t.nextOp == s.nextOp + 1 && t.inbound == s.inbound
    && (if act.fate.Finished? then WakesNext(t.(tasks := s.tasks - multiset{i}), i, t.tasks) else t.tasks == s.tasks - multiset{i})
  }

  /** The task is consumed, and a run that ended wakes the next. */
  lemma CommitWrites(s: State, i: nat, act: Act)
    requires i < |s.runs|
    ensures var t := Commit(s.(tasks := s.tasks - multiset{i}), i, act); SingleFile(t) ==> Wrote(s, i, act, t)
  {
    var u := Record(s.(tasks := s.tasks - multiset{i}), i, act);
    if act.fate.Finished? && SingleFile(Chain(u, i)) {
      assert SingleFile(u) by { SameRunsInFile(u, i); }
      ChainWakesNext(u, i);
    }
    hide Chain;
    hide OldestQueued;
    hide SingleFile;
  }

  lemma SameRunsInFile(s: State, done: nat)
    requires SingleFile(Chain(s, done))
    ensures SingleFile(s)
  {
    hide OldestQueued;
    hide InFlight;
  }

  /** Everything but the outside world's view is as it was, the task included. */
  predicate RolledBack(s: State, act: Act, t: State) {
    && t.runs == s.runs && t.desk == s.desk && t.link == s.link && t.posts == s.posts && t.approvals == s.approvals
    && t.tasks == s.tasks && t.nextOp == s.nextOp && t.inbound == s.inbound && t.effects == s.effects + act.effects
  }

  lemma DeliveryWrites(cfg: Config, s: State, e: Event)
    requires Safe(cfg, s) && GetsToWork(s, e) && !s.runs[e.i].status.Running? && Started(cfg, s, e).Began?
    ensures var act := Started(cfg, s, e).act;
            var t := Next(cfg, s, e);
            if act.fate.Aborted? then RolledBack(s, act, t) else Wrote(s, e.i, act, t)
  {
    WorkIsDelivered(cfg, s, e);
    CommitWrites(s.(clock := e.now), e.i, Started(cfg, s, e).act);
    NextSafe(cfg, s, e);
    assert SingleFile(Next(cfg, s, e));
    hide SingleFile;
    hide WakesNext;
    hide Safe;
    hide Next;
    hide Started;
    hide Commit;
    hide ClaimRun;
    hide VerdictFor;
    hide GetsToWork;
  }

  // ------------------------------------------------------------------ the answers decide the delivery

  /** Nothing of the conversation has changed and the task stays. */
  predicate Untouched(s: State, t: State) {
    t.runs == s.runs && t.desk == s.desk && t.link == s.link && t.posts == s.posts && t.approvals == s.approvals && t.tasks == s.tasks
  }

  /** Run i of s has ended, the only one to change: its status, whether it posted, and the desk it leaves; the next is woken. */
  predicate EndsRun(s: State, i: nat, t: State, status: Status, posted: bool, desk: Desk)
    requires i < |s.runs|
  {
    && |t.runs| == |s.runs| && t.runs == s.runs[i := t.runs[i]] && t.runs[i].status == status
    && t.runs[i].trigger == s.runs[i].trigger && t.approvals == s.approvals && t.link == s.link
    && t.posts == s.posts + (if posted then [Post(i, s.runs[i].trigger)] else []) && t.desk == desk
    && WakesNext(t.(tasks := s.tasks - multiset{i}), i, t.tasks)
  }

  /** Run i of s waits for a human's ruling on this call, for one day. */
  predicate WaitsForHuman(s: State, i: nat, call: ToolCall, now: int, t: State)
    requires i < |s.runs|
  {
    && |t.runs| == |s.runs| && t.runs == s.runs[i := t.runs[i]] && t.runs[i].status.AwaitingApproval?
    && t.runs[i].pending == Some(ForHuman(call.id, call.name, call.input, |s.approvals|))
    && t.approvals == s.approvals + [Approval(i, call.name, call.input, call.id, Undecided, now + 86400, None)]
    && t.posts == s.posts && t.desk == s.desk && t.link == s.link && t.tasks == s.tasks - multiset{i}
  }

  /** Run i of s waits for the page to do this call, and a live tour it shows is linked to it. */
  predicate WaitsForPage(cfg: Config, s: State, i: nat, asked: Asked, t: State)
    requires i < |s.runs|
  {
    var call := asked.call;
    && call.name in cfg.clients
    && |t.runs| == |s.runs| && t.runs == s.runs[i := t.runs[i]] && t.runs[i].status.AwaitingClient?
    && t.runs[i].pending == Some(ForPage(call.id, call.name, call.input, s.nextOp, cfg.clients[call.name], None))
    && t.approvals == s.approvals && t.posts == s.posts && t.desk == s.desk && t.tasks == s.tasks - multiset{i}
    && t.link == if cfg.clients[call.name].Guide? && asked.tourLive && NamesTour(call.input)
                 then Some(Link(call.input["tour_id"].s, i, s.nextOp, true, {})) else s.link
  }

  function OutOf(d: Desk): Desk { if d.AiQueue? then Open else d }

  /** What the last answer a delivery hears makes of run i, `used` calls into its budget. */
  predicate LastWord(env: Env, trace: seq<Step>, used: nat, last: Turn, s: State, i: nat, t: State)
    requires i < |s.runs|
  {
    match last
    case Says(text) =>
      if text != "" then EndsRun(s, i, t, Completed, true, s.desk) else EndsRun(s, i, t, HandedOff, false, OutOf(s.desk))
    case Breaks => EndsRun(s, i, t, Failed, false, OutOf(s.desk))
    case Down => Untouched(s, t)
    case Calls(_, first, _) =>
      if used >= MaxToolCalls(env.cfg) then EndsRun(s, i, t, HandedOff, false, OutOf(s.desk))
      else if PolicyOf(env.cfg, first.call.name).RequireApproval? then WaitsForHuman(s, i, first.call, env.now, t)
      else if AsksPage(env, trace, first) then WaitsForPage(env.cfg, s, i, first, t)
      else if Serves(env, first.call.name) && !first.outcome.Plain? then ControlWord(first.outcome, s, i, t)
      else Untouched(s, t)
  }

  /** A tool that hands the thread off posts and opens it; one that closes it posts only if it says something. */
  predicate ControlWord(o: AgentRuns.Outcome, s: State, i: nat, t: State)
    requires i < |s.runs| && !o.Plain?
  {
    match o
    case HandsOff(_) => EndsRun(s, i, t, HandedOff, true, Open)
    case Closes(_, says) => EndsRun(s, i, t, Completed, says, Resolved)
  }

  /** Tool calls charged to the run so far, the one a human approved included. */
  function CallsBefore(s: State, r: Run): nat
    requires Ready(s, r)
  {
    ToolCallsIn(r.trace) + (if ApprovedCall(s, r) then 1 else 0)
  }

  /** How many of its provider's answers this delivery hears. */
  function HeardOf(cfg: Config, s: State, e: Event): nat
    requires GetsToWork(s, e)
  {
    var r := s.runs[e.i];
    if ApprovedCall(s, r) && !e.delivery.outcome.Plain? then 0
    else Heard(EnvAt(cfg, s, e), r.trace, CallsBefore(s, r), e.delivery.script)
  }

  /** The whole outcome of a delivery, from the answers: an approved call may end the run at once; otherwise the last answer
      that is heard decides; and with none there is nothing to commit. */
  predicate Decided(cfg: Config, s: State, e: Event, t: State)
    requires GetsToWork(s, e)
  {
    var r := s.runs[e.i];
    var n := HeardOf(cfg, s, e);
    if ApprovedCall(s, r) && !e.delivery.outcome.Plain? then ControlWord(e.delivery.outcome, s, e.i, t)
    else if n == 0 then Untouched(s, t)
    else LastWord(EnvAt(cfg, s, e), r.trace, CallsBefore(s, r) + n - 1, e.delivery.script[n - 1], s, e.i, t)
  }

  /** What the thread has become through this activation. */
  predicate Became(s: State, i: nat, act: Act, t: State)
    requires i < |s.runs|
  {
    if act.fate.Aborted? then RolledBack(s, act, t) else Wrote(s, i, act, t)
  }

  lemma EndsDecides(env: Env, used: nat, last: Turn, s: State, i: nat, act: Act, t: State, trace: seq<Step>)
    requires i < |s.runs| && Became(s, i, act, t) && act.run.trigger == s.runs[i].trigger && act.raised.None? && act.link == s.link
    requires Ends(env, last, used, s.desk, act)
    ensures LastWord(env, trace, used, last, s, i, t)
  {
    hide Exhausted;
    hide MaxToolCalls;
    hide PolicyOf;
    assert s.approvals + [] == s.approvals;
  }

  lemma ParksDecides(env: Env, used: nat, last: Turn, s: State, i: nat, act: Act, t: State, trace: seq<Step>, sent: seq<Msg>)
    requires i < |s.runs| && Became(s, i, act, t) && env.self == i && env.nextApproval == |s.approvals| && env.nextOp == s.nextOp
    requires Parks(env, last, s.link, sent, act) && used < MaxToolCalls(env.cfg) && act.desk == s.desk && AsksOutside(env, trace, last)
    ensures LastWord(env, trace, used, last, s, i, t)
  {
    hide AsksPage;
    hide MaxToolCalls;
    hide PolicyOf;
    hide DeserializeMessages;
    hide Recorded;
    assert s.approvals + [] == s.approvals && s.posts + [] == s.posts;
  }

  lemma StopsDecides(env: Env, used: nat, last: Turn, s: State, i: nat, act: Act, t: State, trace: seq<Step>, sent: seq<Msg>)
    requires i < |s.runs| && Became(s, i, act, t) && act.run.trigger == s.runs[i].trigger
    requires env.self == i && env.nextApproval == |s.approvals| && env.nextOp == s.nextOp
    requires act.fate.Finished? ==> act.raised.None? && act.link == s.link
    requires Stops(env, trace, used, s.desk, s.link, last, sent, act)
    ensures LastWord(env, trace, used, last, s, i, t)
  {
    hide Became;
    hide LastWord;
    hide Parks;
    hide Ends;
    hide AsksOutside;
    hide GoesOn;
    hide Counted;
    match act.fate
    case Finished(_) => EndsDecides(env, used, last, s, i, act, t, trace);
    case Parked => ParksDecides(env, used, last, s, i, act, t, trace, sent);
    case Aborted => AbortDecides(env, used, last, s, i, act, t, trace);
  }

  lemma AbortDecides(env: Env, used: nat, last: Turn, s: State, i: nat, act: Act, t: State, trace: seq<Step>)
    requires i < |s.runs| && Became(s, i, act, t) && act.fate.Aborted? && (last.Down? || GoesOn(env, trace, used, last))
    ensures LastWord(env, trace, used, last, s, i, t)
  {
    hide AsksPage;
    hide MaxToolCalls;
    hide PolicyOf;
  }

  lemma {:induction false} SameHeard(env: Env, trace: seq<Step>, later: seq<Step>, used: nat, script: seq<Turn>)
    requires SameRequests(env.cfg, trace, later)
    ensures Heard(env, later, used, script) == Heard(env, trace, used, script)
    decreases |script|
  {
    hide GoesOn;
    hide SameRequests;
    if script != [] {
      SameGoesOn(env, trace, later, used, script[0]);
      SameHeard(env, trace, later, used + 1, script[1..]);
    }
  }

  /** The activation behind a delivery: where it starts and what is told of it. */
  lemma ActivationTold(cfg: Config, s: State, e: Event) returns (a: Act)
    requires Safe(cfg, s) && GetsToWork(s, e) && !s.runs[e.i].status.Running?
    ensures var env := EnvAt(cfg, s, e);
            var r := s.runs[e.i];
            var c := ClaimRun(r, e.now).run;
            && Begin(env, c, VerdictOn(s, r), s.desk, s.link, e.delivery) == Began(a)
            && Started(cfg, s, e) == Began(Drive(env, a, e.delivery.script))
            && (if a.fate.Working? then Told(env, a, e.delivery.script, Drive(env, a, e.delivery.script))
                else Drive(env, a, e.delivery.script) == a)
            && (a.fate.Working? <==> !(ApprovedCall(s, r) && !e.delivery.outcome.Plain?))
            && !a.fate.Aborted? && a.sent == [] && a.raised.None? && a.link == s.link
            && a.used == CallsBefore(s, r) && SameRequests(cfg, r.trace, a.run.trace) && ToolCallsIn(a.run.trace) == a.used
            && (a.fate.Working? ==> a.desk == s.desk)
  {
    var env := EnvAt(cfg, s, e);
    var r := s.runs[e.i];
    WorkIsClaimed(cfg, s, e);
    WorkBegins(cfg, s, e);
    var c := ClaimRun(r, e.now).run;
    a := Begin(env, c, VerdictOn(s, r), s.desk, s.link, e.delivery).act;
    assert c.pending == r.pending && c.trace == r.trace;
    hide Safe;
    hide ClaimRun;
    hide Claimable;
    hide Started;
    hide SameRequests;
    hide ToolCallsIn;
    hide NoneBefore;
    BeginWorks(env, c, VerdictOn(s, r), s.desk, s.link, e.delivery);
    StartsFrom(env, c, VerdictOn(s, r), s.desk, s.link, e.delivery);
    if r.pending.Some? { ResumeTells(env, c, VerdictOn(s, r), s.desk, s.link, e.delivery); }
    hide Begin;
    hide Answers;
    hide Told;
    if a.fate.Working? {
      hide Looping;
      hide Stopped;
      StillWorking(env, a);
      AnswersDecide(env, a, e.delivery.script);
    } else {
      assert Drive(env, a, e.delivery.script) == a;
    }
  }

  lemma FinishedKeeps(cfg: Config, s: State, e: Event)
    requires Safe(cfg, s) && GetsToWork(s, e) && !s.runs[e.i].status.Running? && Started(cfg, s, e).Began?
    ensures var act := Started(cfg, s, e).act;
            act.run.trigger == s.runs[e.i].trigger
            && (act.fate.Finished? ==> act.raised.None? && act.link == s.link && Terminal(act.run.status))
  {
    WorkIsClaimed(cfg, s, e);
    var r := s.runs[e.i];
    var c := ClaimRun(r, e.now).run;
    var env := EnvAt(cfg, s, e);
    hide Safe;
    hide ClaimRun;
    hide Claimable;
    hide Activate;
    hide GetsToWork;
    hide RunOk;
    hide AllSettled;
    hide EffectsOk;
    hide GateOf;
    hide VerdictOn;
    hide VerdictFor;
    ActivationLegal(env, c, VerdictOn(s, r), s.desk, s.link, e.delivery);
  }

  lemma ControlDecides(s: State, i: nat, o: AgentRuns.Outcome, act: Act, t: State)
    requires i < |s.runs| && Became(s, i, act, t) && act.run.trigger == s.runs[i].trigger && act.raised.None? && act.link == s.link
    requires Controls(o, act) && !o.Plain?
    ensures ControlWord(o, s, i, t)
  {
    assert s.approvals + [] == s.approvals;
  }

  /** A claimed approved call that hands off or closes ends the activation by itself. */
  lemma ControlledAtOnce(env: Env, r: Run, verdict: Verdict, desk: Desk, d: Delivery, a: Act)
    requires Approves(r, verdict) && Resumes(env, r, verdict, desk, d, a) && !a.fate.Working?
    ensures !d.outcome.Plain? && Controls(d.outcome, a)
  {
    hide Answers;
  }


  /** The provider is asked as often as its answers are heard. */
  lemma HeardCounts(cfg: Config, s: State, e: Event, a: Act, act: Act)
    requires GetsToWork(s, e) && Told(EnvAt(cfg, s, e), a, e.delivery.script, act)
    requires a.sent == [] && a.used == CallsBefore(s, s.runs[e.i]) && SameRequests(cfg, s.runs[e.i].trace, a.run.trace)
    requires !(ApprovedCall(s, s.runs[e.i]) && !e.delivery.outcome.Plain?)
    ensures |act.sent| == HeardOf(cfg, s, e)
  {
    var env := EnvAt(cfg, s, e);
    ToldHeard(env, a, e.delivery.script, act);
    hide Told;
    hide SameRequests;
    hide GetsToWork;
    hide CallsBefore;
    hide Heard;
    SameHeard(env, s.runs[e.i].trace, a.run.trace, a.used, e.delivery.script);
  }

  lemma LoopDecides(cfg: Config, s: State, e: Event, a: Act, act: Act, t: State)
    requires GetsToWork(s, e) && Told(EnvAt(cfg, s, e), a, e.delivery.script, act) && Became(s, e.i, act, t)
    requires act.run.trigger == s.runs[e.i].trigger && (act.fate.Finished? ==> act.raised.None? && act.link == s.link)
    requires a.sent == [] && a.link == s.link && a.desk == s.desk && a.used == CallsBefore(s, s.runs[e.i])
    requires SameRequests(cfg, s.runs[e.i].trace, a.run.trace)
    requires !(ApprovedCall(s, s.runs[e.i]) && !e.delivery.outcome.Plain?)
    ensures Decided(cfg, s, e, t)
  {
    var env := EnvAt(cfg, s, e);
    var script := e.delivery.script;
    HeardCounts(cfg, s, e, a, act);
    var n := |act.sent|;
    hide SameRequests;
    hide Conversed;
    hide ToolRuns;
    hide Charged;
    hide ToolCallsIn;
    hide GetsToWork;
    hide CallsBefore;
    hide HeardOf;
    hide LastWord;
    hide Stops;
    if n > 0 {
      var last := script[n - 1];
      hide Became;
      StopsFrom(env, s.runs[e.i].trace, a.run.trace, a.used + n - 1, s.desk, s.link, last, act.sent[n - 1], act);
      StopsDecides(env, a.used + n - 1, last, s, e.i, act, t, s.runs[e.i].trace, act.sent[n - 1]);
    }
    hide WakesNext;
  }

  /** The activation behind a delivery: the claimed row c, the working set a it starts from, and what it comes to. */
  predicate Behind(cfg: Config, s: State, e: Event, c: Run, a: Act, act: Act, t: State)
    requires GetsToWork(s, e)
  {
    var env := EnvAt(cfg, s, e);
    var r := s.runs[e.i];
    && c.pending == r.pending && c.snapshot == r.snapshot && c.trace == r.trace
    && Begin(env, c, VerdictOn(s, r), s.desk, s.link, e.delivery) == Began(a)
    && Started(cfg, s, e) == Began(act) && Became(s, e.i, act, t) && act.run.trigger == r.trigger
    && (act.fate.Finished? ==> act.raised.None? && act.link == s.link && Terminal(act.run.status))
    && (a.fate.Working? <==> !(ApprovedCall(s, r) && !e.delivery.outcome.Plain?))
    && (if a.fate.Working? then a.desk == s.desk && Told(env, a, e.delivery.script, act) && |act.sent| == HeardOf(cfg, s, e)
        else act == a && HeardOf(cfg, s, e) == 0)
    && !a.fate.Aborted? && a.sent == [] && a.raised.None? && a.link == s.link
    && a.used == CallsBefore(s, r) && SameRequests(cfg, r.trace, a.run.trace) && ToolCallsIn(a.run.trace) == a.used
  }

  lemma WorkBehind(cfg: Config, s: State, e: Event) returns (c: Run, a: Act, act: Act)
    requires Safe(cfg, s) && GetsToWork(s, e) && !s.runs[e.i].status.Running?
    ensures Behind(cfg, s, e, c, a, act, Next(cfg, s, e))
  {
    a := ActivationTold(cfg, s, e);
    act := Drive(EnvAt(cfg, s, e), a, e.delivery.script);
    DeliveryWrites(cfg, s, e);
    FinishedKeeps(cfg, s, e);
    WorkIsClaimed(cfg, s, e);
    c := ClaimRun(s.runs[e.i], e.now).run;
    assert ClaimedAs(s.runs[e.i], c, e.now);
    hide Safe;
    hide ClaimRun;
    hide Claimable;
    hide Started;
    hide Next;
    hide Drive;
    hide Begin;
    hide Told;
    hide SameRequests;
    hide ToolCallsIn;
    hide Wrote;
    hide RolledBack;
    if a.fate.Working? { HeardCounts(cfg, s, e, a, act); }
    hide GetsToWork;
  }

  lemma WorkDecides(cfg: Config, s: State, e: Event)
    requires Safe(cfg, s) && GetsToWork(s, e) && !s.runs[e.i].status.Running?
    ensures Decided(cfg, s, e, Next(cfg, s, e))
  {
    var c, a, act := WorkBehind(cfg, s, e);
    var r := s.runs[e.i];
    hide Safe;
    hide Started;
    hide Next;
    hide Became;
    hide Told;
    hide SameRequests;
    hide ToolCallsIn;
    if !a.fate.Working? {
      ResumeTells(EnvAt(cfg, s, e), c, VerdictOn(s, r), s.desk, s.link, e.delivery);
      ControlledAtOnce(EnvAt(cfg, s, e), c, VerdictOn(s, r), s.desk, e.delivery, a);
      hide GetsToWork;
      hide Begin;
      ControlDecides(s, e.i, e.delivery.outcome, act, Next(cfg, s, e));
    } else {
      hide Begin;
      hide GetsToWork;
      LoopDecides(cfg, s, e, a, act, Next(cfg, s, e));
    }
  }

  lemma NotRunning(cfg: Config, history: seq<Event>, e: Event)
    requires GetsToWork(Threads.After(cfg, history), e)
    ensures !Threads.After(cfg, history).runs[e.i].status.Running?
  {
    RunningIsNeverCommitted(cfg, history, e.i);
  }

  /** In every reachable state, what the provider answers decides what a delivery that gets to work makes of its run, its
      conversation and its desk. Text is posted once, for the message the run was created for, and completes the run; an empty
      reply hands the thread to a human and posts nothing; and so on for every answer. */
  lemma AnswersDecideDelivery(cfg: Config, history: seq<Event>, e: Event)
    requires GetsToWork(Threads.After(cfg, history), e)
    ensures Decided(cfg, Threads.After(cfg, history), e, Next(cfg, Threads.After(cfg, history), e))
  {
    NotRunning(cfg, history, e);
    EveryHistorySafe(cfg, history);
    hide Safe;
    hide GetsToWork;
    hide Decided;
    WorkDecides(cfg, Threads.After(cfg, history), e);
  }

  // ------------------------------------------------------------------ deliveries that do not get to work

  lemma ParkedIsNotReady(cfg: Config, s: State, e: Event)
    requires Safe(cfg, s) && e.Execute? && Enabled(s, e) && !GetsToWork(s, e) && !s.runs[e.i].status.Running?
    requires InFlight(s.runs[e.i].status)
    ensures ClaimRun(s.runs[e.i], e.now).Claimed? && Started(cfg, s, e).NotReady?
  {
    var r := s.runs[e.i];
    assert RunOk(cfg, r);
    assert RequestsOk(s);
    hide Safe;
    hide WithinBudget;
    hide SnapshotOwes;
    ClaimLegal(cfg, r, e.now);
    var c := ClaimRun(r, e.now).run;
    BeginsWhenAnswered(EnvAt(cfg, s, e), c, VerdictFor(s, r), s.desk, s.link, e.delivery);
    assert VerdictFor(s, r).Undecided? || r.pending.value.ForPage?;
    hide Claimable;
    hide Begin;
    hide Drive;
    hide VerdictFor;
    hide RunOk;
    hide RequestsOk;
  }

  lemma QueuedIdles(cfg: Config, s: State, e: Event)
    requires e.Execute? && Enabled(s, e) && s.runs[e.i].status.Queued? && s.runs[e.i].pending.None? && !GetsToWork(s, e)
    ensures var t := Next(cfg, s, e);
            var r := s.runs[e.i];
            && SameRest(s, t) && |t.runs| == |s.runs| && t.tasks == s.tasks - multiset{e.i}
            && (if NoneBefore(s, e.i) && !s.desk.AiQueue?
                then t.runs == s.runs[e.i := r.(status := Canceled, updatedAt := e.now)] else t.runs == s.runs)
  {
    LineIsEarlier(s, e.i);
    hide NoneBefore;
    hide EarlierActive;
    hide Activate;
    hide Commit;
  }

  lemma ParkedIdles(cfg: Config, s: State, e: Event)
    requires Safe(cfg, s) && e.Execute? && Enabled(s, e) && InFlight(s.runs[e.i].status) && !s.runs[e.i].status.Running?
    requires !GetsToWork(s, e)
    ensures Next(cfg, s, e) == s.(clock := e.now)
  {
    ParkedIsNotReady(cfg, s, e);
    hide Safe;
    hide Activate;
    hide GetsToWork;
    hide EarlierActive;
    hide Commit;
  }

  /** A delivery that does not get to work: a run that has ended or waits its turn only uses up its task; a queued run whose
      thread a human took is canceled; and a parked run whose answer is not in leaves everything as it was, the task too. */
  lemma IdleDelivery(cfg: Config, history: seq<Event>, e: Event)
    requires e.Execute? && Enabled(Threads.After(cfg, history), e) && !GetsToWork(Threads.After(cfg, history), e)
    ensures var s := Threads.After(cfg, history);
            var t := Next(cfg, s, e);
            var r := s.runs[e.i];
            && SameRest(s, t) && |t.runs| == |s.runs|
            && (if r.status.Queued? && NoneBefore(s, e.i) && !s.desk.AiQueue?
                then t.runs == s.runs[e.i := r.(status := Canceled, updatedAt := e.now)] else t.runs == s.runs)
            && t.tasks == if Terminal(r.status) || r.status.Queued? then s.tasks - multiset{e.i} else s.tasks
  {
    var s := Threads.After(cfg, history);
    EveryHistorySafe(cfg, history);
    RunningIsNeverCommitted(cfg, history, e.i);
    ParksAreConsistent(cfg, history, e.i);
    hide Threads.After;
    hide NoneBefore;
    hide SnapshotOwes;
    if s.runs[e.i].status.Queued? {
      QueuedIdles(cfg, s, e);
      hide Next;
    } else if InFlight(s.runs[e.i].status) {
      ParkedIdles(cfg, s, e);
      hide Next;
    }
    hide Safe;
    hide GetsToWork;
    hide EarlierActive;
    hide Activate;
    hide Commit;
  }
}
