/** What is said and done over a thread's whole history, told from its deliveries: the replies posted, the tools run, the calls
    charged, and the transcripts the provider hears. */
module ThreadWords {
  import opened Wrappers
  import opened Transcript
  import opened AgentRuns
  import opened AgentRunTheorems
  import opened AgentAnswers
  import opened Threads
  import opened ThreadSafety
  import opened ThreadHistory
  import opened ThreadTheorems
  import opened ThreadSteps
  import opened ThreadAnswers

  // ------------------------------------------------------------------ every reply was spoken

  /** This answer is posted, `used` calls into the budget: text, or a tool that hands off or closes with a word. */
  predicate SpeaksWith(env: Env, used: nat, last: Turn) {
    match last
    case Says(text) => text != ""
    case Calls(_, first, _) => used < MaxToolCalls(env.cfg) && Serves(env, first.call.name) && HasWord(first.outcome)
    case _ => false
  }

  predicate HasWord(o: AgentRuns.Outcome) { o.HandsOff? || (o.Closes? && o.says) }

  /** This event has an agent speak on the thread. */
  predicate Speaks(cfg: Config, s: State, e: Event) {
    GetsToWork(s, e)
    && var r := s.runs[e.i];
       var n := HeardOf(cfg, s, e);
       if ApprovedCall(s, r) && !e.delivery.outcome.Plain? then HasWord(e.delivery.outcome)
       else n > 0 && SpeaksWith(EnvAt(cfg, s, e), CallsBefore(s, r) + n - 1, e.delivery.script[n - 1])
  }

  lemma LastWordPosts(env: Env, trace: seq<Step>, used: nat, last: Turn, s: State, i: nat, t: State)
    requires i < |s.runs| && LastWord(env, trace, used, last, s, i, t)
    ensures t.posts == s.posts + (if SpeaksWith(env, used, last) then [Post(i, s.runs[i].trigger)] else [])
  {
    hide Exhausted;
    hide MaxToolCalls;
    hide PolicyOf;
    hide WakesNext;
    assert s.posts + [] == s.posts;
  }

  lemma DecidedPosts(cfg: Config, s: State, e: Event, t: State)
    requires GetsToWork(s, e) && Decided(cfg, s, e, t)
    ensures t.posts == s.posts + (if Speaks(cfg, s, e) then [Post(e.i, s.runs[e.i].trigger)] else [])
  {
    var r := s.runs[e.i];
    var n := HeardOf(cfg, s, e);
    hide CallsBefore;
    hide LastWord;
    hide SpeaksWith;
    hide WakesNext;
    hide HeardOf;
    assert s.posts + [] == s.posts;
    if !(ApprovedCall(s, r) && !e.delivery.outcome.Plain?) && n > 0 {
      LastWordPosts(EnvAt(cfg, s, e), r.trace, CallsBefore(s, r) + n - 1, e.delivery.script[n - 1], s, e.i, t);
    }
    hide GetsToWork;
    hide ApprovedCall;
  }

  lemma OthersPostNothing(cfg: Config, history: seq<Event>, e: Event)
    requires !GetsToWork(Threads.After(cfg, history), e)
    ensures SameLogs(Threads.After(cfg, history), Next(cfg, Threads.After(cfg, history), e))
  {
    var s := Threads.After(cfg, history);
    if Enabled(s, e) {
      match e
      case Inbound(_, _, _) => InboundExactly(cfg, s, e);
      case Execute(_, _, _, _) => IdleDelivery(cfg, history, e);
      case Submit(_, _, _, _) => SubmitExactly(cfg, s, e);
      case Decide(_, _, _) => DecideExactly(cfg, history, e);
      case ExpireOverdue(_) => ExpireExactly(cfg, history, e);
      case Sweep(_) => SweepExactly(cfg, s, e);
      case Reap(_) => ReapExactly(cfg, s, e);
      case Telemetry(_, _, _) => TelemetryExactly(cfg, history, e);
      case SetDesk(_, _) =>
      case Redeliver(_, _) =>
      case Drop(_, _) =>
    }
    hide Threads.After;
    hide GetsToWork;
    hide Reopens;
    hide GivesWay;
    hide GotAnswer;
    hide WaitedTooLong;
    hide Forgotten;
    hide WaitsToPlay;
    hide AskedTooLate;
    hide RuledAs;
    hide RanOut;
    hide NoneBefore;
    hide Threads.Deliver;
    hide Receive;
    hide SweepFrom;
    hide ReapFrom;
    hide ExpireFrom;
    hide Track;
  }

  /** Every event: a reply is added exactly when an agent speaks. */
  lemma NextPosts(cfg: Config, history: seq<Event>, e: Event)
    ensures var s := Threads.After(cfg, history);
            Next(cfg, s, e).posts == s.posts + (if Speaks(cfg, s, e) then [Post(e.i, s.runs[e.i].trigger)] else [])
  {
    var s := Threads.After(cfg, history);
    hide Next;
    hide Threads.After;
    hide GetsToWork;
    hide HeardOf;
    if GetsToWork(s, e) {
      AnswersDecideDelivery(cfg, history, e);
      DecidedPosts(cfg, s, e, Next(cfg, s, e));
    } else {
      OthersPostNothing(cfg, history, e);
      assert s.posts + [] == s.posts;
    }
  }

  /** Event k of the history is the one that posted reply p. */
  predicate SpokenAt(cfg: Config, history: seq<Event>, k: nat, p: Post)
    requires k < |history|
  {
    var s := Threads.After(cfg, history[..k]);
    Speaks(cfg, s, history[k]) && p == Post(history[k].i, s.runs[history[k].i].trigger)
  }

  /** The replies of a history and the events that posted them. */
  predicate Posted(cfg: Config, history: seq<Event>, posts: seq<Post>, at: seq<nat>) {
    && |at| == |posts| && (forall n :: 0 <= n < |at| ==> at[n] < |history| && SpokenAt(cfg, history, at[n], posts[n]))
    && (forall m, n :: 0 <= m < n < |at| ==> at[m] < at[n])
    && (forall k :: 0 <= k < |history| && SpeaksAt(cfg, history, k) ==> k in at)
  }

  predicate SpeaksAt(cfg: Config, history: seq<Event>, k: nat)
    requires k < |history|
  {
    Speaks(cfg, Threads.After(cfg, history[..k]), history[k])
  }

  lemma SpeaksInFront(cfg: Config, history: seq<Event>, k: nat, p: Post)
    requires k < |history| - 1
    ensures var before := history[..|history| - 1];
            SpeaksAt(cfg, before, k) == SpeaksAt(cfg, history, k) && SpokenAt(cfg, before, k, p) == SpokenAt(cfg, history, k, p)
  {
    var before := history[..|history| - 1];
    assert before[..k] == history[..k] && before[k] == history[k];
    hide Speaks;
    hide Threads.After;
  }

  lemma SpokenStays(cfg: Config, history: seq<Event>, posts: seq<Post>, at: seq<nat>, k: nat)
    requires history != [] && Posted(cfg, history[..|history| - 1], posts, at) && k < |at|
    ensures at[k] < |history| - 1 && SpokenAt(cfg, history, at[k], posts[k])
  {
    hide SpeaksAt;
    hide SpokenAt;
    hide Threads.After;
    SpeaksInFront(cfg, history, at[k], posts[k]);
  }

  lemma SpeakersStay(cfg: Config, history: seq<Event>, posts: seq<Post>, at: seq<nat>, k: nat)
    requires history != [] && Posted(cfg, history[..|history| - 1], posts, at) && k < |history| - 1 && SpeaksAt(cfg, history, k)
    ensures k in at
  {
    hide SpeaksAt;
    hide SpokenAt;
    hide Threads.After;
    SpeaksInFront(cfg, history, k, Post(0, 0));
  }

  lemma SpeakersAscend(cfg: Config, history: seq<Event>, posts: seq<Post>, at: seq<nat>)
    requires history != [] && Posted(cfg, history[..|history| - 1], posts, at)
    ensures |at| == |posts| && (forall k :: 0 <= k < |at| ==> at[k] < |history| - 1) && forall m, n :: 0 <= m < n < |at| ==> at[m] < at[n]
  {
    hide SpeaksAt;
    hide SpokenAt;
    hide Threads.After;
  }

  lemma NobodySpoke(cfg: Config, history: seq<Event>, posts: seq<Post>, at: seq<nat>)
    requires history != [] && Posted(cfg, history[..|history| - 1], posts, at) && !SpeaksAt(cfg, history, |history| - 1)
    ensures Posted(cfg, history, posts, at)
  {
    hide *;
    SpeakersAscend(cfg, history, posts, at);
    forall k | 0 <= k < |at| ensures at[k] < |history| && SpokenAt(cfg, history, at[k], posts[k]) {
      SpokenStays(cfg, history, posts, at, k);
    }
    forall k | 0 <= k < |history| && SpeaksAt(cfg, history, k) ensures k in at { SpeakersStay(cfg, history, posts, at, k); }
    AllPosted(cfg, history, posts, at);
  }

  lemma OneSpoke(cfg: Config, history: seq<Event>, posts: seq<Post>, at: seq<nat>, p: Post)
    requires history != [] && Posted(cfg, history[..|history| - 1], posts, at)
    requires SpokenAt(cfg, history, |history| - 1, p)
    ensures Posted(cfg, history, posts + [p], at + [|history| - 1])
  {
    hide *;
    SpeakersAscend(cfg, history, posts, at);
    var n := |history| - 1;
    var all, told := at + [n], posts + [p];
    forall k | 0 <= k < |all| ensures all[k] < |history| && SpokenAt(cfg, history, all[k], told[k]) {
      if k < |at| { SpokenStays(cfg, history, posts, at, k); }
    }
    forall k | 0 <= k < |history| && SpeaksAt(cfg, history, k) ensures k in all {
      if k < n { SpeakersStay(cfg, history, posts, at, k); } else { assert all[|at|] == k; }
    }
    AllPosted(cfg, history, told, all);
  }

  lemma AllPosted(cfg: Config, history: seq<Event>, posts: seq<Post>, at: seq<nat>)
    requires |at| == |posts| && forall k :: 0 <= k < |at| ==> at[k] < |history| && SpokenAt(cfg, history, at[k], posts[k])
    requires forall m, n :: 0 <= m < n < |at| ==> at[m] < at[n]
    requires forall k :: 0 <= k < |history| && SpeaksAt(cfg, history, k) ==> k in at
    ensures Posted(cfg, history, posts, at)
  {
    hide SpeaksAt;
    hide SpokenAt;
  }

  /** Over every history, reply number n was posted by the one delivery that had an agent speak for the n-th time: with text
      that is not empty, or by a tool that hands off or closes with a word. Nothing else ever posts, and nothing spoken is lost. */
  lemma {:induction false} RepliesWereSpoken(cfg: Config, history: seq<Event>) returns (at: seq<nat>)
    ensures Posted(cfg, history, Threads.After(cfg, history).posts, at)
    decreases |history|
  {
    hide Next;
    hide Posted;
    hide Speaks;
    at := [];
    if history == [] {
      NothingPosted(cfg);
    } else {
      var n := |history| - 1;
      var s := Threads.After(cfg, history[..n]);
      at := RepliesWereSpoken(cfg, history[..n]);
      NextPosts(cfg, history[..n], history[n]);
      if SpeaksAt(cfg, history, n) {
        var p := Threads.After(cfg, history).posts[|s.posts|];
        assert Threads.After(cfg, history).posts == s.posts + [p];
        OneSpoke(cfg, history, s.posts, at, p);
        at := at + [n];
      } else {
        assert s.posts + [] == s.posts;
        NobodySpoke(cfg, history, s.posts, at);
      }
    }
  }

  lemma NothingPosted(cfg: Config)
    ensures Posted(cfg, [], Threads.After(cfg, []).posts, [])
  {
  }

  // ------------------------------------------------------------------ what the outside world sees

  /** The approved call a resumed delivery runs first. */
  function GateOn(s: State, e: Event): seq<Effect>
    requires GetsToWork(s, e)
  {
    var r := s.runs[e.i];
    if !ApprovedCall(s, r) then []
    else
      var p := r.pending.value;
      [Effect(e.i, p.id, p.name, p.input, Some(p.approval), e.now)]
  }

  /** Everything a delivery runs: the approved call, then each tool the answers it hears ask for and the server may run. */
  function RunsOf(cfg: Config, s: State, e: Event): seq<Effect>
    requires GetsToWork(s, e)
  {
    var n := HeardOf(cfg, s, e);
    GateOn(s, e) + ToolRuns(EnvAt(cfg, s, e), e.delivery.script[..n], CallsBefore(s, s.runs[e.i]))
  }

  lemma BeginsWithGate(cfg: Config, s: State, e: Event, c: Run, a: Act)
    requires GetsToWork(s, e) && c.pending == s.runs[e.i].pending
    requires Begin(EnvAt(cfg, s, e), c, VerdictOn(s, s.runs[e.i]), s.desk, s.link, e.delivery) == Began(a)
    ensures a.effects == GateOn(s, e)
  {
    var env := EnvAt(cfg, s, e);
    var verdict := VerdictOn(s, s.runs[e.i]);
    if c.pending.Some? { ResumeTells(env, c, verdict, s.desk, s.link, e.delivery); }
    StartsFrom(env, c, verdict, s.desk, s.link, e.delivery);
    hide Answers;
    hide Begin;
    hide SameRequests;
    hide ToolCallsIn;
    hide NoneBefore;
    hide Enabled;
    hide Controls;
  }

  lemma LoopRuns(cfg: Config, s: State, e: Event, a: Act, act: Act, t: State)
    requires GetsToWork(s, e) && Told(EnvAt(cfg, s, e), a, e.delivery.script, act) && Became(s, e.i, act, t)
    requires a.sent == [] && a.effects == GateOn(s, e) && a.used == CallsBefore(s, s.runs[e.i]) && |act.sent| == HeardOf(cfg, s, e)
    ensures t.effects == s.effects + RunsOf(cfg, s, e)
  {
    hide GetsToWork;
    hide HeardOf;
    hide Conversed;
    hide Stops;
    hide CallsBefore;
    hide GateOn;
    hide WakesNext;
    hide ToolRuns;
    hide ToolCallsIn;
    hide Charged;
  }

  lemma WorkRuns(cfg: Config, s: State, e: Event)
    requires Safe(cfg, s) && GetsToWork(s, e) && !s.runs[e.i].status.Running?
    ensures Next(cfg, s, e).effects == s.effects + RunsOf(cfg, s, e)
  {
    var c, a, act := WorkBehind(cfg, s, e);
    BeginsWithGate(cfg, s, e, c, a);
    hide Safe;
    hide Started;
    hide Next;
    hide Begin;
    hide Told;
    hide SameRequests;
    hide ToolCallsIn;
    hide GateOn;
    hide CallsBefore;
    hide WakesNext;
    hide GetsToWork;
    if a.fate.Working? {
      hide RunsOf;
      LoopRuns(cfg, s, e, a, act, Next(cfg, s, e));
    } else {
      assert e.delivery.script[..0] == [];
      assert ToolRuns(EnvAt(cfg, s, e), [], CallsBefore(s, s.runs[e.i])) == [];
    }
  }

  /** Every event, in every reachable state: the outside world sees exactly the tools a delivery's answers ask for, in order,
      after the call a human approved; and nothing on any other event. */
  lemma EffectsAreAskedFor(cfg: Config, history: seq<Event>, e: Event)
    ensures var s := Threads.After(cfg, history);
            Next(cfg, s, e).effects == s.effects + (if GetsToWork(s, e) then RunsOf(cfg, s, e) else [])
  {
    var s := Threads.After(cfg, history);
    if GetsToWork(s, e) {
      NotRunning(cfg, history, e);
      EveryHistorySafe(cfg, history);
      WorkRuns(cfg, s, e);
    } else {
      OthersPostNothing(cfg, history, e);
      assert s.effects + [] == s.effects;
    }
    hide Safe;
    hide Next;
    hide Threads.After;
    hide GetsToWork;
    hide RunsOf;
  }

  // ------------------------------------------------------------------ what the provider hears

  /** The first transcript of a delivery: the opening of a fresh run, or the parked transcript with the parked call answered by
      the page itself, by the tool a human approved, or by the human's refusal. */
  predicate FirstHeard(s: State, e: Event, first: seq<Msg>)
    requires GetsToWork(s, e)
  {
    var r := s.runs[e.i];
    if r.pending.None? then Opens(first, e.delivery.prompt, e.delivery.lines)
    else
      match r.pending.value
      case ForPage(id, _, _, _, _, result) =>
        if result.value.Readable? then Answers(first, r.snapshot, id, result.value.text, result.value.failed)
        else Answers(first, r.snapshot, id, "unreadable", true)
      case ForHuman(id, _, _, _) =>
        var o := e.delivery.outcome;
        if VerdictOn(s, r).Approved? then Answers(first, r.snapshot, id, o.text, o.Plain? && o.isError)
        else Answers(first, r.snapshot, id, if VerdictOn(s, r).Expired? then "expired" else "rejected", true)
  }

  lemma BeginsHearing(cfg: Config, s: State, e: Event, c: Run, a: Act)
    requires GetsToWork(s, e) && c.pending == s.runs[e.i].pending && c.snapshot == s.runs[e.i].snapshot && a.fate.Working?
    requires Begin(EnvAt(cfg, s, e), c, VerdictOn(s, s.runs[e.i]), s.desk, s.link, e.delivery) == Began(a)
    ensures FirstHeard(s, e, a.msgs)
  {
    var env := EnvAt(cfg, s, e);
    var verdict := VerdictOn(s, s.runs[e.i]);
    if c.pending.Some? {
      ResumeTells(env, c, verdict, s.desk, s.link, e.delivery);
    } else {
      StartsFrom(env, c, verdict, s.desk, s.link, e.delivery);
      FreshRunOpens(e.delivery.prompt, e.delivery.lines);
    }
    hide Answers;
    hide Opens;
    hide Opening;
    hide Begin;
    hide SameRequests;
    hide ToolCallsIn;
    hide NoneBefore;
    hide Enabled;
    hide Controls;
  }

  /** What a delivery tells its provider: the first transcript settles what was parked, each later one is the one before with the
      answer to it recorded and dealt with, and a run that parks keeps the last of them, with the calls in it, for its resume. */
  predicate Hears(cfg: Config, s: State, e: Event, sent: seq<seq<Msg>>, t: State)
    requires GetsToWork(s, e)
  {
    var n := HeardOf(cfg, s, e);
    var script := e.delivery.script;
    && |sent| == n && (n > 0 ==> FirstHeard(s, e, sent[0]))
    && (forall k :: 0 <= k < n - 1 ==> script[k].Calls? && Grows(EnvAt(cfg, s, e), script[k], sent[k], sent[k + 1]))
    && (n > 0 && script[n - 1].Calls? && |t.runs| == |s.runs| && t.runs[e.i] != s.runs[e.i] && InFlight(t.runs[e.i].status) ==>
          KeepsTranscript(script[n - 1], sent[n - 1], t.runs[e.i]))
  }

  predicate KeepsTranscript(last: Turn, sent: seq<Msg>, r: Run)
    requires last.Calls?
  {
    DeserializeMessages(r.snapshot).Some? && Recorded(last, sent, DeserializeMessages(r.snapshot).value)
  }

  lemma LoopHears(cfg: Config, s: State, e: Event, a: Act, act: Act, t: State)
    requires GetsToWork(s, e) && Told(EnvAt(cfg, s, e), a, e.delivery.script, act) && Became(s, e.i, act, t)
    requires a.sent == [] && FirstHeard(s, e, a.msgs) && |act.sent| == HeardOf(cfg, s, e)
    requires act.fate.Finished? ==> Terminal(act.run.status)
    ensures Hears(cfg, s, e, act.sent, t)
  {
    var env := EnvAt(cfg, s, e);
    var script := e.delivery.script;
    var n := |act.sent|;
    forall k | 0 <= k < n - 1 ensures script[k].Calls? && Grows(env, script[k], act.sent[k], act.sent[k + 1]) {
      LoopGrows(env, a, script, act, k);
    }
    ParkTells(env, a, script, act);
    hide FirstHeard;
    hide Grows;
    hide Told;
    hide GetsToWork;
    hide HeardOf;
    hide WakesNext;
    hide KeepsTranscript;
  }

  lemma LoopGrows(env: Env, a: Act, script: seq<Turn>, act: Act, k: nat)
    requires Told(env, a, script, act) && a.sent == [] && k + 1 < |act.sent|
    ensures k < |script| && script[k].Calls? && Grows(env, script[k], act.sent[k], act.sent[k + 1])
  {
    hide Grows;
    hide ToolRuns;
    hide Charged;
    hide ToolCallsIn;
    hide Stops;
    var n := |act.sent|;
    assert script[..n][k] == script[k];
    assert GoesOn(env, a.run.trace, a.used + k, script[..n][k]);
    hide PolicyOf;
    hide AsksPage;
    hide MaxToolCalls;
  }

  lemma ParkTells(env: Env, a: Act, script: seq<Turn>, act: Act)
    requires Told(env, a, script, act) && a.sent == []
    ensures var n := |act.sent|;
            n <= |script| && (act.fate.Parked? ==>
              n > 0 && script[n - 1].Calls? && KeepsTranscript(script[n - 1], act.sent[n - 1], act.run))
    ensures !act.fate.Working?
  {
    hide Conversed;
    hide ToolRuns;
    hide Charged;
    hide ToolCallsIn;
    hide Parks;
    hide Ends;
    hide Counted;
    hide AsksOutside;
    hide GoesOn;
    hide KeepsTranscript;
    hide MaxToolCalls;
    var n := |act.sent|;
    if act.fate.Parked? { ParkKeeps(env, script[n - 1], a.link, act.sent[n - 1], act); }
  }

  lemma ParkKeeps(env: Env, last: Turn, link: Option<Link>, sent: seq<Msg>, b: Act)
    requires Parks(env, last, link, sent, b)
    ensures last.Calls? && KeepsTranscript(last, sent, b.run)
  {
    hide Recorded;
  }

  /** In every reachable state, a delivery that gets to work tells its provider exactly this. */
  lemma DeliveryHears(cfg: Config, history: seq<Event>, e: Event) returns (sent: seq<seq<Msg>>)
    requires GetsToWork(Threads.After(cfg, history), e)
    ensures Started(cfg, Threads.After(cfg, history), e).Began?
    ensures sent == Started(cfg, Threads.After(cfg, history), e).act.sent
    ensures Hears(cfg, Threads.After(cfg, history), e, sent, Next(cfg, Threads.After(cfg, history), e))
  {
    var s := Threads.After(cfg, history);
    NotRunning(cfg, history, e);
    EveryHistorySafe(cfg, history);
    hide Threads.After;
    sent := WorkHears(cfg, s, e);
  }

  lemma WorkHears(cfg: Config, s: State, e: Event) returns (sent: seq<seq<Msg>>)
    requires Safe(cfg, s) && GetsToWork(s, e) && !s.runs[e.i].status.Running?
    ensures Started(cfg, s, e).Began? && sent == Started(cfg, s, e).act.sent && Hears(cfg, s, e, sent, Next(cfg, s, e))
  {
    var c, a, act := WorkBehind(cfg, s, e);
    sent := act.sent;
    hide Safe;
    hide Started;
    hide Next;
    hide Begin;
    hide Told;
    hide SameRequests;
    hide ToolCallsIn;
    hide CallsBefore;
    hide Became;
    hide GetsToWork;
    if a.fate.Working? {
      BeginsHearing(cfg, s, e, c, a);
      LoopHears(cfg, s, e, a, act, Next(cfg, s, e));
    }
  }

  // ------------------------------------------------------------------ what a run is charged

  /** The budgets after a delivery that was committed: each call it ran or answered itself is charged once, the approved one
      included, and a page operation is counted under its kind exactly when it is the one the run now waits for. */
  predicate Charges(cfg: Config, s: State, e: Event, t: State)
    requires GetsToWork(s, e) && |t.runs| == |s.runs|
  {
    var r, q := s.runs[e.i], t.runs[e.i];
    var heard := e.delivery.script[..HeardOf(cfg, s, e)];
    && ToolCallsIn(q.trace) == CallsBefore(s, r) + Charged(EnvAt(cfg, s, e), r.trace, heard, CallsBefore(s, r))
    && RequestsIn(cfg, q.trace, Changes) == RequestsIn(cfg, r.trace, Changes) + (if WaitsFor(q, Changes) then 1 else 0)
    && RequestsIn(cfg, q.trace, Action) == RequestsIn(cfg, r.trace, Action) + (if WaitsFor(q, Action) then 1 else 0)
  }

  predicate WaitsFor(q: Run, kind: ClientTool) {
    q.status.AwaitingClient? && q.pending.Some? && q.pending.value.ForPage? && q.pending.value.op == kind
  }

  lemma StopsCounted(env: Env, trace: seq<Step>, used: nat, was: Desk, link: Option<Link>, t: Turn, last: seq<Msg>, b: Act)
    requires Stops(env, trace, used, was, link, t, last, b) && !b.fate.Aborted?
    ensures RequestsIn(env.cfg, b.run.trace, Changes) == RequestsIn(env.cfg, trace, Changes) + (if WaitsFor(b.run, Changes) then 1 else 0)
    ensures RequestsIn(env.cfg, b.run.trace, Action) == RequestsIn(env.cfg, trace, Action) + (if WaitsFor(b.run, Action) then 1 else 0)
  {
    hide RequestsIn;
    hide AsksPage;
    hide PolicyOf;
    hide MaxToolCalls;
    hide Recorded;
    hide DeserializeMessages;
  }

  lemma LoopCharges(cfg: Config, s: State, e: Event, a: Act, act: Act, t: State)
    requires GetsToWork(s, e) && Told(EnvAt(cfg, s, e), a, e.delivery.script, act) && Wrote(s, e.i, act, t) && !act.fate.Aborted?
    requires a.sent == [] && a.used == CallsBefore(s, s.runs[e.i]) == ToolCallsIn(a.run.trace) && |act.sent| == HeardOf(cfg, s, e)
    requires SameRequests(cfg, s.runs[e.i].trace, a.run.trace)
    ensures Charges(cfg, s, e, t)
  {
    var env := EnvAt(cfg, s, e);
    var script := e.delivery.script;
    var n := |act.sent|;
    SameCharged(env, s.runs[e.i].trace, a.run.trace, script[..n], a.used);
    hide GetsToWork;
    hide HeardOf;
    hide Conversed;
    hide CallsBefore;
    hide WakesNext;
    hide ToolRuns;
    hide ToolCallsIn;
    hide RequestsIn;
    hide Charged;
    hide Stops;
    hide WaitsFor;
    StopsCounted(env, a.run.trace, a.used + n - 1, a.desk, a.link, script[n - 1], act.sent[n - 1], act);
  }

  lemma ControlCharges(cfg: Config, s: State, e: Event, a: Act, t: State)
    requires GetsToWork(s, e) && Wrote(s, e.i, a, t) && HeardOf(cfg, s, e) == 0 && Terminal(a.run.status)
    requires CallsBefore(s, s.runs[e.i]) == ToolCallsIn(a.run.trace) && SameRequests(cfg, s.runs[e.i].trace, a.run.trace)
    ensures Charges(cfg, s, e, t)
  {
    assert e.delivery.script[..0] == [];
    assert Charged(EnvAt(cfg, s, e), s.runs[e.i].trace, [], CallsBefore(s, s.runs[e.i])) == 0;
    hide GetsToWork;
    hide HeardOf;
    hide CallsBefore;
    hide WakesNext;
    hide ToolCallsIn;
    hide RequestsIn;
    hide Charged;
  }

  lemma CommittedWrote(s: State, i: nat, act: Act, t: State)
    requires i < |s.runs| && Became(s, i, act, t) && t.runs != s.runs
    ensures !act.fate.Aborted? && Wrote(s, i, act, t) && |t.runs| == |s.runs|
  {
    hide WakesNext;
  }

  lemma WorkCharges(cfg: Config, s: State, e: Event)
    requires Safe(cfg, s) && GetsToWork(s, e) && !s.runs[e.i].status.Running? && Next(cfg, s, e).runs != s.runs
    ensures |Next(cfg, s, e).runs| == |s.runs| && Charges(cfg, s, e, Next(cfg, s, e))
  {
    var c, a, act := WorkBehind(cfg, s, e);
    hide Safe;
    hide Started;
    hide Next;
    hide Begin;
    hide Told;
    hide SameRequests;
    hide ToolCallsIn;
    hide CallsBefore;
    hide WakesNext;
    hide Charges;
    hide HeardOf;
    hide Became;
    hide Wrote;
    CommittedWrote(s, e.i, act, Next(cfg, s, e));
    hide GetsToWork;
    if a.fate.Working? {
      LoopCharges(cfg, s, e, a, act, Next(cfg, s, e));
    } else {
      ControlCharges(cfg, s, e, a, Next(cfg, s, e));
    }
  }

  /** In every reachable state a delivery charges its run's budgets exactly. */
  lemma DeliveryCharges(cfg: Config, history: seq<Event>, e: Event)
    requires GetsToWork(Threads.After(cfg, history), e) && Next(cfg, Threads.After(cfg, history), e).runs != Threads.After(cfg, history).runs
    ensures |Next(cfg, Threads.After(cfg, history), e).runs| == |Threads.After(cfg, history).runs|
    ensures Charges(cfg, Threads.After(cfg, history), e, Next(cfg, Threads.After(cfg, history), e))
  {
    NotRunning(cfg, history, e);
    EveryHistorySafe(cfg, history);
    hide Safe;
    hide GetsToWork;
    hide Threads.After;
    hide Next;
    hide Charges;
    WorkCharges(cfg, Threads.After(cfg, history), e);
  }

  // ------------------------------------------------------------------ across a park

  /** What the page submits is what the model hears: the parked transcript, then one tool message with the parked call's id, the
      submitted text and the submitted flag; an unreadable result is an error. */
  lemma PageAnswerIsHeard(cfg: Config, history: seq<Event>, submit: Event, e: Event) returns (sent: seq<seq<Msg>>)
    requires submit.Submit? && e.Execute? && e.i == submit.i && submit.i < |Threads.After(cfg, history).runs|
    requires AwaitsOp(Threads.After(cfg, history).runs[submit.i], submit.opId) && Enabled(Threads.After(cfg, history), submit)
    requires submit.now <= e.now && e.delivery.script != []
    ensures var s := Threads.After(cfg, history);
            var r := s.runs[submit.i];
            var t := Next(cfg, s, submit);
            && GetsToWork(t, e) && Started(cfg, t, e).Began? && sent == Started(cfg, t, e).act.sent && sent != []
            && match submit.result
               case Readable(text, failed) => Answers(sent[0], r.snapshot, r.pending.value.id, text, failed)
               case Unreadable => Answers(sent[0], r.snapshot, r.pending.value.id, "unreadable", true)
  {
    var s := Threads.After(cfg, history);
    var t := Next(cfg, s, submit);
    SubmitExactly(cfg, s, submit);
    Snoc(cfg, history, submit);
    assert t.clock == submit.now && submit.i in t.tasks;
    hide Threads.After;
    hide Next;
    sent := DeliveryHears(cfg, history + [submit], e);
    hide Grows;
    hide KeepsTranscript;
  }

  /** A page that never answers is heard as an error when its time is up. */
  lemma SilenceIsHeard(cfg: Config, history: seq<Event>, sweep: Event, e: Event) returns (sent: seq<seq<Msg>>)
    requires sweep.Sweep? && e.Execute? && e.i < |Threads.After(cfg, history).runs| && Enabled(Threads.After(cfg, history), sweep)
    requires WaitedTooLong(Threads.After(cfg, history).runs[e.i], sweep.now)
    requires sweep.now <= e.now && e.delivery.script != []
    ensures var s := Threads.After(cfg, history);
            var r := s.runs[e.i];
            var t := Next(cfg, s, sweep);
            && GetsToWork(t, e) && Started(cfg, t, e).Began? && sent == Started(cfg, t, e).act.sent && sent != []
            && Answers(sent[0], r.snapshot, r.pending.value.id, "timed out", true)
  {
    var s := Threads.After(cfg, history);
    var t := Next(cfg, s, sweep);
    SweepExactly(cfg, s, sweep);
    Snoc(cfg, history, sweep);
    assert t.clock == sweep.now;
    assert GotAnswer(s.runs[e.i], Readable("timed out", true), sweep.now, t.runs[e.i]);
    assert t.tasks[e.i] == s.tasks[e.i] + 1;
    hide Threads.After;
    hide Next;
    sent := DeliveryHears(cfg, history + [sweep], e);
    hide Grows;
    hide KeepsTranscript;
  }

  /** What the model hears of a ruling on the call it asked for: the refusal or the expiry as an error, and an approval as the
      outcome of the call. */
  predicate HearsRuling(s: State, decide: Event, e: Event, t: State, sent: seq<seq<Msg>>)
    requires decide.Decide? && GetsToWork(t, e) && e.i < |s.runs| && s.runs[e.i].pending.Some? && decide.approval < |s.approvals|
  {
    var r := s.runs[e.i];
    var late := decide.now >= s.approvals[decide.approval].expiresAt;
    var o := e.delivery.outcome;
    if decide.approved && !late then
      && ApprovedCall(t, t.runs[e.i])
      && (o.Plain? ==> sent != [] && Answers(sent[0], r.snapshot, r.pending.value.id, o.text, o.isError))
    else
      && !ApprovedCall(t, t.runs[e.i])
      && sent != [] && Answers(sent[0], r.snapshot, r.pending.value.id, if late then "expired" else "rejected", true)
  }

  lemma HeardRuling(cfg: Config, s: State, decide: Event, e: Event, t: State, sent: seq<seq<Msg>>, u: State)
    requires decide.Decide? && GetsToWork(t, e) && e.i < |s.runs| && decide.approval < |s.approvals| && PendsOn(s.runs[e.i], decide.approval)
    requires e.delivery.script != [] && Hears(cfg, t, e, sent, u)
    requires t.runs[e.i].pending == s.runs[e.i].pending && t.runs[e.i].snapshot == s.runs[e.i].snapshot
    requires VerdictOn(t, t.runs[e.i]) == if decide.now >= s.approvals[decide.approval].expiresAt then Expired
                                          else if decide.approved then Approved else Rejected
    ensures HearsRuling(s, decide, e, t, sent)
  {
    hide Grows;
    hide KeepsTranscript;
    hide Answers;
    hide Enabled;
    hide NoneBefore;
    hide CallsBefore;
  }

  /** A human's ruling is heard too. */
  lemma RulingIsHeard(cfg: Config, history: seq<Event>, decide: Event, e: Event) returns (sent: seq<seq<Msg>>)
    requires decide.Decide? && e.Execute? && e.i < |Threads.After(cfg, history).runs| && Enabled(Threads.After(cfg, history), decide)
    requires PendsOn(Threads.After(cfg, history).runs[e.i], decide.approval) && decide.approval < |Threads.After(cfg, history).approvals|
    requires Threads.After(cfg, history).approvals[decide.approval].verdict.Undecided?
    requires decide.now <= e.now && e.delivery.script != []
    ensures var s := Threads.After(cfg, history);
            var t := Next(cfg, s, decide);
            && GetsToWork(t, e) && Started(cfg, t, e).Began? && sent == Started(cfg, t, e).act.sent
            && HearsRuling(s, decide, e, t, sent)
  {
    var s := Threads.After(cfg, history);
    var t := Next(cfg, s, decide);
    EveryHistorySafe(cfg, history);
    ParkedOnOwnRequest(cfg, s, e.i, decide.approval);
    DecideExactly(cfg, history, decide);
    Snoc(cfg, history, decide);
    RuledReady(s, decide, e.i, t);
    assert t.clock == decide.now;
    hide Safe;
    hide Threads.After;
    hide Next;
    hide RuledAs;
    hide Ready;
    hide VerdictOn;
    assert GetsToWork(t, e);
    hide GetsToWork;
    hide Hears;
    hide HearsRuling;
    sent := DeliveryHears(cfg, history + [decide], e);
    HeardRuling(cfg, s, decide, e, t, sent, Next(cfg, t, e));
  }

  lemma ParkedOnOwnRequest(cfg: Config, s: State, i: nat, a: nat)
    requires Safe(cfg, s) && i < |s.runs| && a < |s.approvals| && PendsOn(s.runs[i], a)
    ensures s.approvals[a].run == i && s.runs[i].status.AwaitingApproval?
  {
    assert RequestsOk(s);
    assert RunOk(cfg, s.runs[i]);
    hide Safe;
    hide WithinBudget;
    hide SnapshotOwes;
  }

  lemma RuledReady(s: State, decide: Event, i: nat, t: State)
    requires decide.Decide? && i < |s.runs| && decide.approval < |s.approvals| && PendsOn(s.runs[i], decide.approval)
    requires |t.approvals| == |s.approvals| && |t.runs| == |s.runs|
    requires RuledAs(s.approvals[decide.approval], t.approvals[decide.approval].verdict, decide.now, t.approvals[decide.approval])
    requires t.runs[i] == s.runs[i].(trace := t.runs[i].trace) && !t.approvals[decide.approval].verdict.Undecided?
    ensures Ready(t, t.runs[i]) && VerdictOn(t, t.runs[i]) == t.approvals[decide.approval].verdict
    ensures t.runs[i].pending == s.runs[i].pending && t.runs[i].snapshot == s.runs[i].snapshot
  {
  }
}
