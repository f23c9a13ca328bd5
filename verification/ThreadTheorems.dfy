/** The engine's promises, stated over every history. */
module ThreadTheorems {
  import opened Wrappers
  import opened Transcript
  import opened AgentRuns
  import opened AgentRunTheorems
  import opened Threads
  import opened ThreadSafety
  import opened ThreadHistory

  // ------------------------------------------------------------------ one inbound, one reply, in order

  /** At most one run is queued and it is newer than every other active run; at most one is in flight. */
  lemma RunsGoSingleFile(cfg: Config, history: seq<Event>, i: nat, j: nat)
    requires i < |After(cfg, history).runs| && j < |After(cfg, history).runs| && i != j
    ensures var runs := After(cfg, history).runs;
            runs[i].status.Queued? && Active(runs[j]) ==> InFlight(runs[j].status) && KeyLess(runs[j], runs[i])
    ensures var runs := After(cfg, history).runs; !(InFlight(runs[i].status) && InFlight(runs[j].status))
  {
    EveryHistorySafe(cfg, history);
    hide RunOk;
  }

  /** Replies answer strictly newer messages one after the other, each from a run of its own. */
  lemma RepliesFollowMessages(cfg: Config, history: seq<Event>, k: nat, l: nat)
    requires k < l < |After(cfg, history).posts|
    ensures var s := After(cfg, history);
            s.posts[k].trigger < s.posts[l].trigger && s.posts[k].run != s.posts[l].run
  {
    EveryHistorySafe(cfg, history);
    hide RunOk;
    hide Licensed;
  }

  /** While the thread stays in the AI queue, the newest message the agent took up is answered, closed by its own tour, or in
      the hands of an active run; and only runs with a newer one behind them were canceled. */
  lemma NewestMessageInHand(cfg: Config, history: seq<Event>)
    requires After(cfg, history).stayed && After(cfg, history).runs != []
    ensures var s := After(cfg, history);
            var l := |s.runs| - 1;
            LastTakenUp(cfg, history) == Some(s.runs[l].trigger)
            && (Active(s.runs[l])
                || (exists k :: 0 <= k < |s.posts| && s.posts[k] == Post(l, s.runs[l].trigger)) || l in s.hushed)
    ensures var s := After(cfg, history);
            forall i :: 0 <= i < |s.runs| && s.runs[i].status.Canceled? ==> i < |s.runs| - 1
  {
    NewestRunIsNewestMessage(cfg, history);
    EveryHistorySafe(cfg, history);
    var s := After(cfg, history);
    hide After;
    hide LastTakenUp;
    hide RowsOk;
    hide RequestsOk;
    hide GateOk;
    hide CountsOk;
    hide OpsOk;
    hide LinesOk;
    hide Ordered;
    hide SingleFile;
    assert LastAnswered(s, |s.runs| - 1) ==> s.posts[|s.posts| - 1] == Post(|s.runs| - 1, s.runs[|s.runs| - 1].trigger);
  }

  // ------------------------------------------------------------------ the approval gate

  /** A tool whose policy asks for approval only ever runs on the request raised for that very call,
      approved strictly before it expired and before the tool ran. */
  lemma ApprovalGate(cfg: Config, history: seq<Event>, k: nat)
    requires k < |After(cfg, history).effects|
    requires PolicyOf(cfg, After(cfg, history).effects[k].name).RequireApproval?
    ensures var s := After(cfg, history);
            var e := s.effects[k];
            e.approval.Some? && e.approval.value < |s.approvals|
            && (var row := s.approvals[e.approval.value];
                row.verdict.Approved? && row.decidedAt.Some? && row.decidedAt.value < row.expiresAt
                && row.decidedAt.value <= e.at
                && row.run == e.run && row.name == e.name && row.input == e.input && row.call == e.call)
  {
    EveryHistorySafe(cfg, history);
    hide RunOk;
    assert Licensed(cfg, After(cfg, history), After(cfg, history).effects[k]);
  }

  /** A disabled tool never runs, and a browser tool never runs on the server unapproved. */
  lemma OnlyAutoToolsRunUnattended(cfg: Config, history: seq<Event>, k: nat)
    requires k < |After(cfg, history).effects| && After(cfg, history).effects[k].approval.None?
    ensures var e := After(cfg, history).effects[k]; PolicyOf(cfg, e.name).Auto? && e.name !in cfg.clients
  {
    EveryHistorySafe(cfg, history);
    hide RunOk;
    assert Licensed(cfg, After(cfg, history), After(cfg, history).effects[k]);
  }

  /** How often the world saw an approved call run: once if its run committed past it, plus once for
      every activation that was rolled back after running it. */
  lemma ExecutionsAccounted(cfg: Config, history: seq<Event>, a: nat)
    requires a < |After(cfg, history).approvals|
    ensures var s := After(cfg, history);
            Uses(s.effects, a) == Losses(s.lost, a) + (if Consumed(s, a) then 1 else 0)
    ensures var s := After(cfg, history);
            Uses(s.effects, a) <= 1 <==> Losses(s.lost, a) == 0 || (Losses(s.lost, a) == 1 && !Consumed(s, a))
  {
    EveryHistorySafe(cfg, history);
    hide RunOk;
  }

  /** Every provider call is answered, or fails for good, before the script runs out. */
  predicate Reliable(cfg: Config, history: seq<Event>) {
    forall k :: 0 <= k < |history| && history[k].Execute? ==>
      Reachable(history[k].delivery.script) && |history[k].delivery.script| > MaxToolCalls(cfg)
  }

  lemma ExecuteKeepsLost(cfg: Config, s: State, now: int, i: nat, askFirst: bool, d: Delivery)
    requires Safe(cfg, s) && i < |s.runs| && s.clock <= now
    requires Reachable(d.script) && |d.script| > MaxToolCalls(cfg)
    ensures Threads.Deliver(cfg, s, now, i, askFirst, d).lost == s.lost
  {
    hide RunOk;
    hide Activate;
    hide EarlierActive;
    hide VerdictFor;
    hide CrashedAct;
    hide MaxToolCalls;
    hide Reachable;
    var r := s.runs[i];
    assert RunOk(cfg, r);
    hide Safe;
    if ClaimRun(r, now).Claimed? {
      var env := EnvOf(cfg, s, i, now, askFirst);
      var c := ClaimRun(r, now).run;
      ClaimLegal(cfg, r, now);
      hide Claimable;
      if Activate(env, c, VerdictFor(s, r), s.desk, s.link, d).Began? {
        ActivationCommits(env, c, VerdictFor(s, r), s.desk, s.link, d);
      }
    }
  }

  lemma {:induction false} SweepKeepsLost(s: State, k: nat, now: int)
    requires k <= |s.runs|
    ensures SweepFrom(s, k, now).lost == s.lost
    decreases |s.runs| - k
  {
    if k < |s.runs| {
      SweepKeepsLost(if Stale(s.runs[k], now)
                     then Put(Enqueue(s, k), k, WithAnswer(s.runs[k], Readable("timed out", true), now)) else s, k + 1, now);
    }
  }

  lemma {:induction false} ReapKeepsLost(s: State, k: nat, now: int)
    requires k <= |s.runs|
    ensures ReapFrom(s, k, now).lost == s.lost
    decreases |s.runs| - k
  {
    if k < |s.runs| {
      ReapKeepsLost(if Stalled(s.runs[k], now) then Enqueue(s, k) else s, k + 1, now);
    }
  }

  lemma {:induction false} ExpireKeepsLost(s: State, a: nat, now: int)
    requires a <= |s.approvals|
    ensures ExpireFrom(s, a, now).lost == s.lost
    decreases |s.approvals| - a
  {
    if a < |s.approvals| {
      ExpireKeepsLost(if Overdue(s.approvals[a], now) then Rule(s, a, Expired, now) else s, a + 1, now);
    }
  }

  lemma NextKeepsLost(cfg: Config, s: State, e: Event)
    requires Safe(cfg, s)
    requires e.Execute? ==> Reachable(e.delivery.script) && |e.delivery.script| > MaxToolCalls(cfg)
    ensures Next(cfg, s, e).lost == s.lost
  {
    var t := s.(clock := e.now);
    hide Safe;
    hide Threads.Deliver;
    hide SweepFrom;
    hide ReapFrom;
    hide ExpireFrom;
    hide SupersedeFrom;
    if Enabled(s, e) {
      TasksDoNotMatter(cfg, s, t);
      match e
      case Inbound(now, rid, live) => SupersedeAll(Threads.Hear(t, live), 0, now);
      case Execute(now, i, askFirst, d) => ExecuteKeepsLost(cfg, t, now, i, askFirst, d);
      case ExpireOverdue(now) => ExpireKeepsLost(t, 0, now);
      case Sweep(now) => SweepKeepsLost(t, 0, now);
      case Reap(now) => ReapKeepsLost(t, 0, now);
      case _ =>
    }
  }

  lemma {:induction false} ReliableLosesNothing(cfg: Config, history: seq<Event>)
    requires Reliable(cfg, history)
    ensures After(cfg, history).lost == []
    decreases |history|
  {
    hide Safe;
    hide Next;
    hide Reachable;
    if history != [] {
      var front := history[..|history| - 1];
      assert Reliable(cfg, front);
      ReliableLosesNothing(cfg, front);
      EveryHistorySafe(cfg, front);
      NextKeepsLost(cfg, After(cfg, front), history[|history| - 1]);
    }
  }

  /** Under a provider that never fails retryably, an approval causes at most one execution, whatever
      the decisions, expiries and duplicate deliveries. */
  lemma ApprovedAtMostOnce(cfg: Config, history: seq<Event>, a: nat)
    requires Reliable(cfg, history) && a < |After(cfg, history).approvals|
    ensures Uses(After(cfg, history).effects, a) <= 1
  {
    ReliableLosesNothing(cfg, history);
    ExecutionsAccounted(cfg, history, a);
  }

  /** The activation an `Execute` event would start. */
  function Started(cfg: Config, s: State, e: Event): Begun
    requires e.Execute? && e.i < |s.runs|
  {
    match ClaimRun(s.runs[e.i], e.now)
    case Claimed(c) =>
      Activate(EnvOf(cfg, s, e.i, e.now, e.askFirst), c, VerdictFor(s, s.runs[e.i]), s.desk, s.link, e.delivery)
    case _ => NotReady
  }

  predicate ParkedOnApproved(s: State, i: nat, a: nat) {
    i < |s.runs| && s.runs[i].status.AwaitingApproval? && PendsOn(s.runs[i], a) && s.runs[i].snapshot.Some?
    && DeserializeMessages(s.runs[i].snapshot).Some?
    && a < |s.approvals| && s.approvals[a].verdict.Approved?
  }

  /** What delivering a parked run does, once its activation has begun. */
  lemma DeliveryOutcome(cfg: Config, s: State, e: Event)
    requires e.Execute? && Enabled(s, e) && s.runs[e.i].status.AwaitingApproval? && Started(cfg, s, e).Began?
    ensures var t := s.(clock := e.now);
            var act := Started(cfg, s, e).act;
            Next(cfg, s, e) == if act.fate.Aborted?
                               then RollBack(t, ClaimRun(s.runs[e.i], e.now).run, VerdictFor(s, s.runs[e.i]), act)
                               else Commit(t.(tasks := t.tasks - multiset{e.i}), e.i, act)
  {
    hide Activate;
    hide Commit;
    hide RollBack;
    hide EarlierActive;
  }

  lemma ApprovedGate(cfg: Config, s: State, e: Event, a: nat)
    requires Safe(cfg, s) && e.Execute? && Enabled(s, e) && ParkedOnApproved(s, e.i, a)
    ensures Started(cfg, s, e).Began?
    ensures var t := s.(clock := e.now);
            var env := EnvOf(cfg, t, e.i, e.now, e.askFirst);
            var c := ClaimRun(s.runs[e.i], e.now).run;
            var gate := GateOf(env, c, VerdictFor(s, s.runs[e.i]));
            var act := Started(cfg, s, e).act;
            c.pending == s.runs[e.i].pending
            && gate.Some? && gate.value.approval == Some(a) && EffectsOk(env, gate, act.effects)
            && (!act.fate.Aborted? ==> Committable(cfg, t, e.i, env, gate, act))
  {
    var t := s.(clock := e.now);
    TasksDoNotMatter(cfg, s, t);
    ApprovedBegins(EnvOf(cfg, t, e.i, e.now, e.askFirst), ClaimRun(s.runs[e.i], e.now).run,
                   VerdictFor(t, t.runs[e.i]), s.desk, s.link, e.delivery);
    hide Safe;
    hide Activate;
    hide Committable;
    hide EffectsOk;
    hide GateFits;
    hide EarlierActive;
    ActivationCommittable(cfg, t, e.i, e.now, e.askFirst, e.delivery);
  }

  lemma RolledBackStaysArmed(cfg: Config, s: State, i: nat, env: Env, r: Run, act: Act, a: nat)
    requires Safe(cfg, s) && ParkedOnApproved(s, i, a) && r.pending == s.runs[i].pending
    requires EffectsOk(env, GateOf(env, r, Approved), act.effects)
    ensures var t := RollBack(s, r, Approved, act);
            ParkedOnApproved(t, i, a) && t.tasks == s.tasks && Uses(t.effects, a) == Uses(s.effects, a) + 1
  {
    hide Safe;
    hide EffectsOk;
    UsesAppend(s.effects, act.effects, a);
    GatedUses(env, GateOf(env, r, Approved), act.effects, a);
  }

  lemma CommittedIsSpent(cfg: Config, s: State, i: nat, env: Env, gate: Option<Effect>, act: Act, a: nat)
    requires Safe(cfg, s) && Committable(cfg, s, i, env, gate, act)
    requires a < |s.approvals| && gate.Some? && gate.value.approval == Some(a)
    ensures var t := Commit(s, i, act);
            a < |t.approvals| && Consumed(t, a) && Uses(t.effects, a) == Uses(s.effects, a) + 1
  {
    RecordConsumes(cfg, s, i, env, gate, act, a);
    assert EffectsOk(env, gate, act.effects);
    hide Safe;
    hide Committable;
    hide EffectsOk;
    UsesAppend(s.effects, act.effects, a);
    GatedUses(env, gate, act.effects, a);
  }

  lemma AbortedDelivery(cfg: Config, s: State, e: Event, a: nat)
    requires Safe(cfg, s) && e.Execute? && Enabled(s, e) && ParkedOnApproved(s, e.i, a)
    requires Started(cfg, s, e).Began? && Started(cfg, s, e).act.fate.Aborted?
    ensures var t := Next(cfg, s, e);
            a < |t.approvals| && Uses(t.effects, a) == Uses(s.effects, a) + 1
            && ParkedOnApproved(t, e.i, a) && e.i in t.tasks && !Consumed(t, a)
  {
    ParkedOnItsOwn(cfg, s, e.i, a);
    ApprovedGate(cfg, s, e, a);
    DeliveryOutcome(cfg, s, e);
    var t := s.(clock := e.now);
    TasksDoNotMatter(cfg, s, t);
    var env := EnvOf(cfg, t, e.i, e.now, e.askFirst);
    hide Safe;
    hide Started;
    hide Next;
    hide Activate;
    hide Committable;
    hide EffectsOk;
    hide Uses;
    hide ClaimRun;
    hide VerdictFor;
    RolledBackStaysArmed(cfg, t, e.i, env, ClaimRun(s.runs[e.i], e.now).run, Started(cfg, s, e).act, a);
  }

  lemma CommittedDelivery(cfg: Config, s: State, e: Event, a: nat)
    requires Safe(cfg, s) && e.Execute? && Enabled(s, e) && ParkedOnApproved(s, e.i, a)
    requires Started(cfg, s, e).Began? && !Started(cfg, s, e).act.fate.Aborted?
    ensures var t := Next(cfg, s, e);
            a < |t.approvals| && Uses(t.effects, a) == Uses(s.effects, a) + 1 && Consumed(t, a)
  {
    ParkedOnItsOwn(cfg, s, e.i, a);
    ApprovedGate(cfg, s, e, a);
    DeliveryOutcome(cfg, s, e);
    var t := s.(clock := e.now);
    var u := t.(tasks := t.tasks - multiset{e.i});
    TasksDoNotMatter(cfg, s, u);
    var env := EnvOf(cfg, t, e.i, e.now, e.askFirst);
    var act := Started(cfg, s, e).act;
    hide Safe;
    hide Started;
    hide Next;
    hide Activate;
    hide Committable;
    hide EffectsOk;
    hide Commit;
    hide Uses;
    hide ClaimRun;
    hide VerdictFor;
    hide ParkedOnApproved;
    var gate := GateOf(env, ClaimRun(s.runs[e.i], e.now).run, VerdictFor(s, s.runs[e.i]));
    TasksKeepCommittable(cfg, t, u, e.i, env, gate, act);
    CommittedIsSpent(cfg, u, e.i, env, gate, act, a);
  }

  /** Delivering a run whose approval is in always executes the approved call once more; the request is
      spent exactly when the activation commits, and still armed, with its task, when it is rolled back. */
  lemma DeliveryRunsApprovedCall(cfg: Config, s: State, e: Event, a: nat)
    requires Safe(cfg, s) && e.Execute? && Enabled(s, e) && ParkedOnApproved(s, e.i, a)
    ensures Started(cfg, s, e).Began?
    ensures var t := Next(cfg, s, e); a < |t.approvals| && Uses(t.effects, a) == Uses(s.effects, a) + 1
    ensures Started(cfg, s, e).act.fate.Aborted? ==>
              ParkedOnApproved(Next(cfg, s, e), e.i, a) && e.i in Next(cfg, s, e).tasks && !Consumed(Next(cfg, s, e), a)
    ensures !Started(cfg, s, e).act.fate.Aborted? ==> Consumed(Next(cfg, s, e), a)
  {
    hide Safe;
    hide Started;
    hide Next;
    hide Uses;
    hide Consumed;
    ApprovedGate(cfg, s, e, a);
    hide Committable;
    hide EffectsOk;
    if Started(cfg, s, e).act.fate.Aborted? {
      AbortedDelivery(cfg, s, e, a);
    } else {
      CommittedDelivery(cfg, s, e, a);
    }
  }

  lemma ParkedOnItsOwn(cfg: Config, s: State, i: nat, a: nat)
    requires Safe(cfg, s) && ParkedOnApproved(s, i, a)
    ensures a < |s.approvals| && i < |s.runs| && s.approvals[a].run == i && VerdictFor(s, s.runs[i]).Approved?
    ensures s.runs[i].status.AwaitingApproval? && s.runs[i].pending.Some?
    ensures forall now :: ClaimRun(s.runs[i], now).Claimed? ==> ClaimRun(s.runs[i], now).run.pending == s.runs[i].pending
  {
    assert RequestsOk(s);
    hide Safe;
  }

  lemma ApprovedBegins(env: Env, r: Run, verdict: Verdict, desk: Desk, link: Option<Link>, d: Delivery)
    requires Approves(r, verdict) && DeserializeMessages(r.snapshot).Some?
    ensures Activate(env, r, verdict, desk, link, d).Began?
  {
  }

  /** The delivery's provider goes down on it, after whatever the resume does first. */
  predicate FailsRetryably(cfg: Config, s: State, e: Event)
    requires e.Execute? && e.i < |s.runs|
  {
    var env := EnvOf(cfg, s, e.i, e.now, e.askFirst);
    match ClaimRun(s.runs[e.i], e.now)
    case Claimed(c) =>
      var b := Begin(env, c, VerdictFor(s, s.runs[e.i]), s.desk, s.link, e.delivery);
      b.Began? && GoesDown(env, b.act, e.delivery.script)
    case _ => false
  }

  lemma BeginWorks(env: Env, r: Run, verdict: Verdict, desk: Desk, link: Option<Link>, d: Delivery)
    ensures var b := Begin(env, r, verdict, desk, link, d); b.Began? ==> !b.act.fate.Aborted?
  {
    hide DeskAfter;
  }

  /** An activation is rolled back exactly when its delivery fails retryably. */
  lemma AbortsExactly(cfg: Config, s: State, e: Event)
    requires Safe(cfg, s) && e.Execute? && e.i < |s.runs| && Started(cfg, s, e).Began?
    ensures Started(cfg, s, e).act.fate.Aborted? <==> FailsRetryably(cfg, s, e)
  {
    var r := s.runs[e.i];
    var env := EnvOf(cfg, s, e.i, e.now, e.askFirst);
    assert RunOk(cfg, r);
    hide Safe;
    hide RunOk;
    hide Begin;
    hide Drive;
    hide GoesDown;
    hide Sound;
    hide VerdictFor;
    var c := ClaimRun(r, e.now).run;
    var verdict := VerdictFor(s, r);
    ClaimLegal(cfg, r, e.now);
    hide Claimable;
    BeginSound(env, c, verdict, s.desk, s.link, e.delivery);
    BeginWorks(env, c, verdict, s.desk, s.link, e.delivery);
    DriveAbortsExactly(env, Begin(env, c, verdict, s.desk, s.link, e.delivery).act, e.delivery.script);
  }

  /** So at-most-once fails exactly there: a retryable provider error after the resume leaves the call
      executed, the row unchanged and the task waiting, and the next delivery executes it again. */
  lemma RolledBackApprovalRunsAgain(cfg: Config, s: State, first: Event, second: Event, a: nat)
    requires Safe(cfg, s) && first.Execute? && second.Execute? && first.i == second.i
    requires Enabled(s, first) && first.now <= second.now && ParkedOnApproved(s, first.i, a)
    requires FailsRetryably(cfg, s, first)
    ensures Uses(Next(cfg, Next(cfg, s, first), second).effects, a) == Uses(s.effects, a) + 2
  {
    var t := Next(cfg, s, first);
    DeliveryRunsApprovedCall(cfg, s, first, a);
    AbortsExactly(cfg, s, first);
    NextSafe(cfg, s, first);
    hide FailsRetryably;
    hide Safe;
    assert t.clock == first.now by { AbortedClock(cfg, s, first); }
    hide Started;
    DeliveryRunsApprovedCall(cfg, t, second, a);
  }

  lemma AbortedClock(cfg: Config, s: State, e: Event)
    requires e.Execute? && Enabled(s, e) && s.runs[e.i].status.AwaitingApproval?
    requires Started(cfg, s, e).Began? && Started(cfg, s, e).act.fate.Aborted?
    ensures Next(cfg, s, e).clock == e.now
  {
  }

  // A refund that happens twice: the visitor asks, the model asks for a refund, a human approves, and the
  // provider times out twice after the refund went through.

  const RefundConfig := Config(map["refund" := RequireApproval], Auto, map[], Unset)
  const Refund := ToolCall("call-1", "refund", map[], None)
  const AsksRefund := Delivery("", [], Plain("", false), [Calls(None, Asked(Refund, true, false, Plain("", false)), [])])
  const TimesOut := Delivery("", [], Plain("done", false), [Down])
  const Refunding := [SetDesk(0, AiQueue), Inbound(1, 1, true), Execute(2, 0, false, AsksRefund), Decide(3, 0, true)]

  lemma Snoc(cfg: Config, history: seq<Event>, e: Event)
    ensures Threads.After(cfg, history + [e]) == Next(cfg, Threads.After(cfg, history), e)
  {
    assert (history + [e])[..|history|] == history;
  }

  lemma RefundDesk()
    ensures var s := Threads.After(RefundConfig, [SetDesk(0, AiQueue)]);
            s == Empty.(desk := AiQueue, clock := 0)
  {
    Snoc(RefundConfig, [], SetDesk(0, AiQueue));
    assert [] + [SetDesk(0, AiQueue)] == [SetDesk(0, AiQueue)];
    NoHistory();
    hide Threads.After;
  }

  lemma NoHistory()
    ensures Threads.After(RefundConfig, []) == Empty
  {
  }

  lemma RefundAsked()
    ensures var s := Threads.After(RefundConfig, [SetDesk(0, AiQueue), Inbound(1, 1, true)]);
            s.desk.AiQueue? && s.runs == [NewRun(1, 1, 0)] && s.tasks == multiset{0} && s.clock == 1
            && s.approvals == [] && s.nextOp == 0 && s.link.None? && s.effects == []
  {
    hide Threads.After;
    RefundDesk();
    Snoc(RefundConfig, [SetDesk(0, AiQueue)], Inbound(1, 1, true));
    assert [SetDesk(0, AiQueue)] + [Inbound(1, 1, true)] == [SetDesk(0, AiQueue), Inbound(1, 1, true)];
  }

  /** The model's request parks the fresh run on request 0. */
  lemma RefundParks(env: Env, r: Run, link: Option<Link>)
    requires env.cfg == RefundConfig && r.pending.None? && r.trace == [] && r.status.Running?
    ensures var b := Activate(env, r, Rejected, AiQueue, link, AsksRefund);
            b.Began? && b.act.fate.Parked? && b.act.run.status.AwaitingApproval? && b.act.effects == [] && b.act.desk.AiQueue?
            && b.act.raised == Some(Approval(env.self, "refund", map[], "call-1", Undecided, env.now + APPROVAL_TTL_SECONDS, None))
  {
    var a := Begin(env, r, Rejected, AiQueue, link, AsksRefund).act;
    var turn := AsksRefund.script[0];
    var b := TakeTurn(env, a, turn);
    assert PolicyOf(RefundConfig, "refund").RequireApproval?;
    assert b.fate.Parked?;
    assert Drive(env, a, AsksRefund.script) == Drive(env, b, AsksRefund.script[1..]);
    assert Drive(env, b, AsksRefund.script[1..]) == b;
  }

  /** The first delivery parks the run. */
  lemma RefundDelivered(s: State)
    requires s.desk.AiQueue? && s.runs == [NewRun(1, 1, 0)] && s.tasks == multiset{0} && s.clock <= 2
    requires s.approvals == [] && s.effects == []
    ensures var t := Threads.Deliver(RefundConfig, s, 2, 0, false, AsksRefund);
            |t.runs| == 1 && t.runs[0].status.AwaitingApproval? && t.clock == s.clock && t.effects == []
            && t.approvals == [Approval(0, "refund", map[], "call-1", Undecided, 2 + APPROVAL_TTL_SECONDS, None)]
  {
    hide Activate;
    hide RollBack;
    hide CrashedAct;
    var env := EnvOf(RefundConfig, s, 0, 2, false);
    RefundParks(env, ClaimRun(s.runs[0], 2).run, s.link);
    assert !EarlierActive(s.runs, 0);
    assert VerdictFor(s, s.runs[0]) == Rejected;
  }

  lemma RefundWaits()
    ensures var s := Threads.After(RefundConfig, [SetDesk(0, AiQueue), Inbound(1, 1, true), Execute(2, 0, false, AsksRefund)]);
            |s.runs| == 1 && s.runs[0].status.AwaitingApproval? && s.clock == 2 && s.effects == []
            && s.approvals == [Approval(0, "refund", map[], "call-1", Undecided, 2 + APPROVAL_TTL_SECONDS, None)]
  {
    hide Threads.After;
    hide Threads.Deliver;
    var before := [SetDesk(0, AiQueue), Inbound(1, 1, true)];
    var e := Execute(2, 0, false, AsksRefund);
    var s := Threads.After(RefundConfig, before);
    RefundAsked();
    Snoc(RefundConfig, before, e);
    assert before + [e] == [SetDesk(0, AiQueue), Inbound(1, 1, true), e];
    RefundDelivered(s.(clock := 2));
  }

  lemma RefundApproved()
    ensures var s := Threads.After(RefundConfig, Refunding);
            ParkedOnApproved(s, 0, 0) && 0 in s.tasks && s.clock == 3 && s.effects == []
  {
    var before := [SetDesk(0, AiQueue), Inbound(1, 1, true), Execute(2, 0, false, AsksRefund)];
    var s := Threads.After(RefundConfig, before);
    RefundWaits();
    EveryHistorySafe(RefundConfig, before);
    assert RunOk(RefundConfig, s.runs[0]);
    assert PendsOn(s.runs[0], 0);
    Snoc(RefundConfig, before, Decide(3, 0, true));
    assert before + [Decide(3, 0, true)] == Refunding;
    hide Threads.After;
    hide Safe;
    hide WithinBudget;
  }

  lemma TimeoutStops(env: Env, r: Run, desk: Desk, link: Option<Link>)
    requires r.pending.Some? && r.pending.value.ForHuman? && DeserializeMessages(r.snapshot).Some?
    ensures var b := Activate(env, r, Approved, desk, link, TimesOut); b.Began? && b.act.fate.Aborted?
  {
    var a := Begin(env, r, Approved, desk, link, TimesOut).act;
    assert a.fate.Working?;
    assert Drive(env, a, TimesOut.script) == Drive(env, TakeTurn(env, a, Down), []);
  }

  lemma TimeoutAborts(cfg: Config, s: State, e: Event, a: nat)
    requires e.Execute? && e.delivery == TimesOut && ParkedOnApproved(s, e.i, a)
    ensures Started(cfg, s, e).Began? && Started(cfg, s, e).act.fate.Aborted?
  {
    hide Activate;
    TimeoutStops(EnvOf(cfg, s, e.i, e.now, e.askFirst), ClaimRun(s.runs[e.i], e.now).run, s.desk, s.link);
  }

  /** One approval, one refund request, two refunds. */
  lemma RefundHappensTwice()
    ensures Uses(Threads.After(RefundConfig, Refunding + [Execute(4, 0, false, TimesOut)] + [Execute(5, 0, false, TimesOut)]).effects, 0) == 2
  {
    var first, second := Execute(4, 0, false, TimesOut), Execute(5, 0, false, TimesOut);
    var s := Threads.After(RefundConfig, Refunding);
    RefundApproved();
    EveryHistorySafe(RefundConfig, Refunding);
    Snoc(RefundConfig, Refunding, first);
    Snoc(RefundConfig, Refunding + [first], second);
    hide Threads.After;
    hide Safe;
    hide Next;
    hide Started;
    TimeoutAborts(RefundConfig, s, first, 0);
    AbortsExactly(RefundConfig, s, first);
    hide FailsRetryably;
    RolledBackApprovalRunsAgain(RefundConfig, s, first, second, 0);
  }

  // ------------------------------------------------------------------ rows

  /** Budgets hold over a run's whole life, through every park and resume. */
  lemma BudgetsHold(cfg: Config, history: seq<Event>, i: nat)
    requires i < |After(cfg, history).runs|
    ensures var trace := After(cfg, history).runs[i].trace;
            ToolCallsIn(trace) <= MaxToolCalls(cfg)
            && RequestsIn(cfg, trace, Changes) <= MAX_MUTATING_OPS && RequestsIn(cfg, trace, Action) <= MAX_ACTION_CALLS
  {
    EveryHistorySafe(cfg, history);
    hide SnapshotOwes;
    assert RunOk(cfg, After(cfg, history).runs[i]);
  }

  /** A run waits on a human iff its pending call names a request, on the page iff it names an op; a parked
      run owes the provider exactly that call and holds no lease; any other committed run has nothing pending. */
  lemma ParksAreConsistent(cfg: Config, history: seq<Event>, i: nat)
    requires i < |After(cfg, history).runs|
    ensures var r := After(cfg, history).runs[i];
            (r.status.AwaitingApproval? <==> r.pending.Some? && r.pending.value.ForHuman?)
            && (r.status.AwaitingClient? <==> r.pending.Some? && r.pending.value.ForPage?)
            && (r.pending.Some? <==> r.snapshot.Some?)
            && (r.pending.Some? ==> r.lease.None? && SnapshotOwes(r.snapshot, r.pending.value.id))
            && (Terminal(r.status) ==> Closed(r))
  {
    EveryHistorySafe(cfg, history);
    hide WithinBudget;
    hide SnapshotOwes;
    var r := After(cfg, history).runs[i];
    assert RunOk(cfg, r);
    if r.pending.Some? { OwingNeedsSnapshot(r, r.pending.value.id); }
  }

  lemma OwingNeedsSnapshot(r: Run, id: string)
    ensures SnapshotOwes(r.snapshot, id) ==> r.snapshot.Some?
  {
  }

  /** Whatever the history, every transcript the next activation hands to the provider has every tool
      call answered, and the provider is called at most once per remaining tool call and once more. */
  lemma ProviderSeesSettledTranscripts(cfg: Config, history: seq<Event>, e: Event)
    requires e.Execute? && e.i < |After(cfg, history).runs| && Started(cfg, After(cfg, history), e).Began?
    ensures var sent := Started(cfg, After(cfg, history), e).act.sent;
            |sent| <= MaxToolCalls(cfg) + 1 && forall k :: 0 <= k < |sent| ==> Settled(sent[k])
  {
    var s := After(cfg, history);
    EveryHistorySafe(cfg, history);
    var r := s.runs[e.i];
    assert RunOk(cfg, r);
    hide Safe;
    var env := EnvOf(cfg, s, e.i, e.now, e.askFirst);
    var c := ClaimRun(r, e.now).run;
    var verdict := VerdictFor(s, r);
    ClaimLegal(cfg, r, e.now);
    hide Claimable;
    hide RunOk;
    hide Begin;
    hide Drive;
    hide Settled;
    ActivationLegal(env, c, verdict, s.desk, s.link, e.delivery);
    ActivationBounded(env, c, verdict, s.desk, s.link, e.delivery);
  }

  lemma ActivationBounded(env: Env, r: Run, verdict: Verdict, desk: Desk, link: Option<Link>, d: Delivery)
    requires Claimable(env.cfg, r) && Activate(env, r, verdict, desk, link, d).Began?
    ensures |Activate(env, r, verdict, desk, link, d).act.sent| <= MaxToolCalls(env.cfg) + 1
  {
    BeginSound(env, r, verdict, desk, link, d);
    BeginWithinCalls(env, r, verdict, desk, link, d);
    BeginSendsNothing(env, r, verdict, desk, link, d);
    hide Begin;
    hide Drive;
    DriveEnds(env, Begin(env, r, verdict, desk, link, d).act, d.script);
  }

  lemma BeginSendsNothing(env: Env, r: Run, verdict: Verdict, desk: Desk, link: Option<Link>, d: Delivery)
    ensures var b := Begin(env, r, verdict, desk, link, d); b.Began? ==> b.act.sent == []
  {
  }

  // ------------------------------------------------------------------ telemetry

  /** Each guide wait is settled by telemetry at most once, and each stage of a playback leaves at most
      one line per link, however often its events are delivered. */
  lemma TelemetryCountsOnce(cfg: Config, history: seq<Event>)
    ensures var s := After(cfg, history);
            forall k, l :: 0 <= k < l < |s.settled| ==> s.settled[k] != s.settled[l]
    ensures var s := After(cfg, history);
            forall k, l :: 0 <= k < l < |s.lines| ==> s.lines[k] != s.lines[l]
  {
    EveryHistorySafe(cfg, history);
    hide RunOk;
    hide Licensed;
  }

  /** Delivering the same playback event again changes nothing. */
  lemma DuplicateTelemetryIgnored(cfg: Config, s: State, tour: string, event: TourEvent, now: int, later: int)
    requires Safe(cfg, s)
    ensures var t := Track(s, tour, event, now); Track(t, tour, event, later) == t
  {
    hide Safe;
    hide TourOf;
    if !event.StepEvent? && s.link.Some? && s.link.value.tour == tour {
      SettledStaysSettled(s, s.link.value.run, tour, event, now);
      SettleGuideKeepsLink(s, s.link.value.run, tour, event, now);
      SettledIgnoresMore(Track(s, tour, event, now), s.link.value.run, tour, event, later);
    }
    hide SettleGuide;
    hide AwaitsGuide;
  }

  lemma SettledIgnoresMore(s: State, i: nat, tour: string, event: TourEvent, now: int)
    requires i < |s.runs| ==> !AwaitsGuide(s.runs[i], tour)
    ensures SettleGuide(s, i, tour, event, now) == s
  {
  }

  lemma SettledStaysSettled(s: State, i: nat, tour: string, event: TourEvent, now: int)
    requires !event.StepEvent?
    ensures var t := SettleGuide(s, i, tour, event, now); i < |t.runs| ==> !AwaitsGuide(t.runs[i], tour)
  {
    hide TourOf;
  }

  // ------------------------------------------------------------------ why run keys must be distinct

  /** The in-order guard trusts `(created_at, id)`. In any reachable state with a run in flight, a follow-up stamped with that
      run's very instant and a smaller id would pass the guard and be claimed beside it: two runs in flight. */
  lemma TiedClockPassesTheGuard(cfg: Config, history: seq<Event>, rid: int)
    requires After(cfg, history).desk.AiQueue? && After(cfg, history).runs != []
    requires var runs := After(cfg, history).runs; InFlight(runs[|runs| - 1].status) && rid < runs[|runs| - 1].rid
    ensures var s := After(cfg, history);
            var l := |s.runs| - 1;
            var t := Receive(s, s.runs[l].createdAt, rid, true);
            InFlight(t.runs[l].status) && l + 1 < |t.runs| && t.runs[l + 1].status.Queued?
            && !EarlierActive(t.runs, l + 1) && ClaimRun(t.runs[l + 1], s.runs[l].createdAt).Claimed?
  {
    EveryHistorySafe(cfg, history);
    var s := After(cfg, history);
    hide After;
    hide RowsOk;
    hide RequestsOk;
    hide GateOk;
    hide CountsOk;
    hide OpsOk;
    hide LinesOk;
    hide PostsOk;
    hide StayOk;
    hide SupersedeFrom;
    var l := |s.runs| - 1;
    var now := s.runs[l].createdAt;
    SupersedeAll(Threads.Hear(s, true), 0, now);
    var t := Receive(s, now, rid, true);
    forall j | 0 <= j <= l && Active(t.runs[j]) ensures !KeyLess(t.runs[j], t.runs[l + 1]) {
      assert j == l;
    }
  }
}
