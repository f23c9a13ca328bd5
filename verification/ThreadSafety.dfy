/** What every history of a thread keeps, whatever the interleaving of messages, deliveries, lost and
    duplicated tasks, decisions, sweeps, telemetry and human takeovers. */
module ThreadSafety {
  import opened Wrappers
  import opened AgentRuns
  import opened AgentRunTheorems
  import opened Threads

  // ------------------------------------------------------------------ the invariant

  predicate Ordered(s: State) {
    (forall i, j :: 0 <= i < j < |s.runs| ==> KeyLess(s.runs[i], s.runs[j]) && s.runs[i].trigger < s.runs[j].trigger)
    && (forall i :: 0 <= i < |s.runs| ==> s.runs[i].trigger < s.inbound)
  }

  /** At most one run is queued and it is the newest; at most one is in flight. */
  predicate SingleFile(s: State) {
    (forall i :: 0 <= i < |s.runs| && s.runs[i].status.Queued? ==> i == |s.runs| - 1)
    && (forall i, j :: 0 <= i < j < |s.runs| ==> !(InFlight(s.runs[i].status) && InFlight(s.runs[j].status)))
  }

  predicate RowsOk(cfg: Config, s: State) { forall i :: 0 <= i < |s.runs| ==> RunOk(cfg, s.runs[i]) }

  predicate Matches(row: Approval, i: nat, p: Pending)
    requires p.ForHuman?
  {
    row.run == i && row.name == p.name && row.input == p.input && row.call == p.id
  }

  predicate PendsOn(r: Run, a: nat) { r.pending.Some? && r.pending.value.ForHuman? && r.pending.value.approval == a }

  predicate VerdictOk(row: Approval, clock: int) {
    (row.verdict.Undecided? <==> row.decidedAt.None?)
    && (row.decidedAt.Some? ==> row.decidedAt.value <= clock)
    && (row.verdict.Approved? ==> row.decidedAt.value < row.expiresAt)
  }

  /** A parked call and its request name each other, and a request is undecided only while its run waits. */
  predicate RequestsOk(s: State) {
    (forall i :: 0 <= i < |s.runs| && s.runs[i].pending.Some? && s.runs[i].pending.value.ForHuman? ==>
       s.runs[i].pending.value.approval < |s.approvals|
       && Matches(s.approvals[s.runs[i].pending.value.approval], i, s.runs[i].pending.value))
    && (forall a :: 0 <= a < |s.approvals| ==>
          s.approvals[a].run < |s.runs| && VerdictOk(s.approvals[a], s.clock)
          && (s.approvals[a].verdict.Undecided? ==> PendsOn(s.runs[s.approvals[a].run], a)))
  }

  /** Why the outside world may have seen this tool run. */
  predicate Licensed(cfg: Config, s: State, e: Effect) {
    match e.approval
    case None => PolicyOf(cfg, e.name).Auto? && e.name !in cfg.clients
    case Some(a) =>
      a < |s.approvals|
      && s.approvals[a].verdict.Approved? && s.approvals[a].decidedAt.Some?
      && s.approvals[a].decidedAt.value <= e.at
      && s.approvals[a].run == e.run && s.approvals[a].name == e.name
      && s.approvals[a].input == e.input && s.approvals[a].call == e.call
  }

  predicate GateOk(cfg: Config, s: State) {
    (forall k :: 0 <= k < |s.effects| ==> Licensed(cfg, s, s.effects[k]))
    && (forall k :: 0 <= k < |s.lost| ==> s.lost[k] < |s.approvals|)
  }

  function Uses(effects: seq<Effect>, a: nat): nat {
    if effects == [] then 0 else
      Uses(effects[..|effects| - 1], a) + (if effects[|effects| - 1].approval == Some(a) then 1 else 0)
  }

  function Losses(lost: seq<nat>, a: nat): nat {
    if lost == [] then 0 else
      Losses(lost[..|lost| - 1], a) + (if lost[|lost| - 1] == a then 1 else 0)
  }

  /** The request was approved and its run has committed past it. */
  predicate Consumed(s: State, a: nat)
    requires a < |s.approvals|
  {
    s.approvals[a].verdict.Approved?
    && (s.approvals[a].run < |s.runs| ==> !PendsOn(s.runs[s.approvals[a].run], a))
  }

  /** Every execution of an approved call is a committed one or one a rollback threw away. */
  predicate CountsOk(s: State) {
    forall a :: 0 <= a < |s.approvals| ==>
      Uses(s.effects, a) == Losses(s.lost, a) + (if Consumed(s, a) then 1 else 0)
  }

  /** Replies appear in run order, one a run, and never from a run that could still speak. */
  predicate PostsOk(s: State) {
    (forall k, l :: 0 <= k < l < |s.posts| ==> s.posts[k].run < s.posts[l].run)
    && (forall k :: 0 <= k < |s.posts| ==>
          s.posts[k].run < |s.runs| && s.posts[k].trigger == s.runs[s.posts[k].run].trigger)
    && (forall k, i :: 0 <= k < |s.posts| && 0 <= i < |s.runs| && Active(s.runs[i]) ==> s.posts[k].run < i)
  }

  predicate LastAnswered(s: State, i: nat) { s.posts != [] && s.posts[|s.posts| - 1].run == i }

  /** A thread that stayed in the AI queue has its newest message answered, closed by its tour, or in hand;
      only superseded runs were canceled. */
  predicate StayOk(s: State) {
    s.stayed ==>
      s.desk.AiQueue?
      && (forall i :: 0 <= i < |s.runs| && s.runs[i].status.Canceled? ==> i < |s.runs| - 1)
      && (s.runs != [] ==>
            var l := |s.runs| - 1; Active(s.runs[l]) || LastAnswered(s, l) || l in s.hushed)
  }

  predicate OpOk(s: State, r: Run) {
    r.pending.Some? && r.pending.value.ForPage? ==>
      r.pending.value.opId < s.nextOp && (r.pending.value.opId in s.settled ==> r.pending.value.result.Some?)
  }

  /** Telemetry settles an op at most once. */
  predicate OpsOk(s: State) {
    (forall k, l :: 0 <= k < l < |s.settled| ==> s.settled[k] != s.settled[l])
    && (forall k :: 0 <= k < |s.settled| ==> s.settled[k] < s.nextOp)
    && (forall i :: 0 <= i < |s.runs| ==> OpOk(s, s.runs[i]))
  }

  /** Each stage of a playback is mirrored at most once per link. */
  predicate LinesOk(s: State) {
    (forall k, l :: 0 <= k < l < |s.lines| ==> s.lines[k] != s.lines[l])
    && (s.link.Some? ==> s.link.value.opId < s.nextOp)
    && (forall k :: 0 <= k < |s.lines| ==>
          s.lines[k].opId < s.nextOp
          && (s.link.Some? && s.link.value.opId == s.lines[k].opId ==> s.lines[k].event in s.link.value.mirrored))
  }

  predicate Safe(cfg: Config, s: State) {
    Ordered(s) && SingleFile(s) && RowsOk(cfg, s) && RequestsOk(s) && GateOk(cfg, s) && CountsOk(s)
    && PostsOk(s) && StayOk(s) && OpsOk(s) && LinesOk(s)
  }

  // ------------------------------------------------------------------ counting

  lemma UsesAppend(e1: seq<Effect>, e2: seq<Effect>, a: nat)
    ensures Uses(e1 + e2, a) == Uses(e1, a) + Uses(e2, a)
    decreases |e2|
  {
    if e2 == [] {
      assert e1 + e2 == e1;
    } else {
      assert (e1 + e2)[..|e1 + e2| - 1] == e1 + e2[..|e2| - 1];
      UsesAppend(e1, e2[..|e2| - 1], a);
    }
  }

  lemma LossesSnoc(lost: seq<nat>, b: nat, a: nat)
    ensures Losses(lost + [b], a) == Losses(lost, a) + (if a == b then 1 else 0)
  {
    assert (lost + [b])[..|lost|] == lost;
  }

  /** An activation uses exactly the approval it resumed on, once. */
  lemma {:induction false} GatedUses(env: Env, gate: Option<Effect>, effects: seq<Effect>, a: nat)
    requires EffectsOk(env, gate, effects)
    ensures Uses(effects, a) == if gate.Some? && gate.value.approval == Some(a) then 1 else 0
    decreases |effects|
  {
    if effects != [] {
      var front := effects[..|effects| - 1];
      if gate.Some? && |effects| == 1 {
        assert Uses(front, a) == 0;
      } else {
        assert EffectsOk(env, gate, front);
        GatedUses(env, gate, front, a);
      }
    }
  }

  // ------------------------------------------------------------------ quiet updates

  /** The state up to its tasks and a later clock. */
  predicate SameButTasks(s: State, t: State) { t == s.(tasks := t.tasks, clock := t.clock) && s.clock <= t.clock }

  lemma TasksDoNotMatter(cfg: Config, s: State, t: State)
    requires Safe(cfg, s) && SameButTasks(s, t)
    ensures Safe(cfg, t)
  {
    hide RunOk;
    hide Uses;
    hide Losses;
    forall k | 0 <= k < |t.effects| ensures Licensed(cfg, t, t.effects[k]) {
      assert Licensed(cfg, s, s.effects[k]);
    }
    forall i | 0 <= i < |t.runs| ensures OpOk(t, t.runs[i]) {
      assert OpOk(s, s.runs[i]);
    }
  }

  /** The same pending call, possibly answered meanwhile. */
  predicate SamePending(p: Option<Pending>, q: Option<Pending>) {
    match p
    case None => q.None?
    case Some(ForHuman(_, _, _, _)) => q == p
    case Some(ForPage(id, name, input, opId, op, result)) =>
      q.Some? && q.value.ForPage? && q.value.id == id && q.value.name == name && q.value.input == input
      && q.value.opId == opId && q.value.op == op && (result.Some? ==> q.value.result.Some?)
  }

  /** Nothing about the row changed that anyone else depends on. */
  predicate QuietRow(r: Run, q: Run) {
    SameRow(r, q) && r.status == q.status && SamePending(r.pending, q.pending)
  }

  lemma QuietPut(cfg: Config, s: State, i: nat, q: Run)
    requires Safe(cfg, s) && i < |s.runs| && QuietRow(s.runs[i], q) && RunOk(cfg, q)
    ensures Safe(cfg, Put(s, i, q))
  {
    var t := Put(s, i, q);
    QuietShape(cfg, s, i, q);
    QuietRequests(cfg, s, i, q);
    QuietRest(cfg, s, i, q);
  }

  lemma QuietShape(cfg: Config, s: State, i: nat, q: Run)
    requires Ordered(s) && SingleFile(s) && RowsOk(cfg, s) && PostsOk(s) && StayOk(s)
    requires i < |s.runs| && QuietRow(s.runs[i], q) && RunOk(cfg, q)
    ensures var t := Put(s, i, q); Ordered(t) && SingleFile(t) && RowsOk(cfg, t) && PostsOk(t) && StayOk(t)
  {
    hide RunOk;
    hide SamePending;
  }

  lemma QuietRequests(cfg: Config, s: State, i: nat, q: Run)
    requires RequestsOk(s) && i < |s.runs| && QuietRow(s.runs[i], q)
    ensures RequestsOk(Put(s, i, q))
  {
  }

  lemma QuietRest(cfg: Config, s: State, i: nat, q: Run)
    requires RequestsOk(s) && GateOk(cfg, s) && CountsOk(s) && OpsOk(s) && LinesOk(s)
    requires i < |s.runs| && QuietRow(s.runs[i], q)
    ensures var t := Put(s, i, q); GateOk(cfg, t) && CountsOk(t) && OpsOk(t) && LinesOk(t)
  {
    var t := Put(s, i, q);
    forall k | 0 <= k < |t.effects| ensures Licensed(cfg, t, t.effects[k]) {
      assert Licensed(cfg, s, s.effects[k]);
    }
    forall a | 0 <= a < |t.approvals| ensures Consumed(s, a) == Consumed(t, a) {
    }
    forall j | 0 <= j < |t.runs| ensures OpOk(t, t.runs[j]) {
      assert OpOk(s, s.runs[j]);
    }
  }

  lemma EnqueueSafe(cfg: Config, s: State, i: nat)
    requires Safe(cfg, s)
    ensures Safe(cfg, Enqueue(s, i))
  {
    TasksDoNotMatter(cfg, s, Enqueue(s, i));
  }

  lemma ChainSafe(cfg: Config, s: State, done: nat)
    requires Safe(cfg, s)
    ensures Safe(cfg, Chain(s, done))
  {
    TasksDoNotMatter(cfg, s, Chain(s, done));
  }

  // ------------------------------------------------------------------ the desk and new messages

  /** The groups that look at neither the desk nor the inbound counter. */
  lemma ElsewhereSafe(cfg: Config, s: State, t: State)
    requires Safe(cfg, s) && t == s.(desk := t.desk, stayed := t.stayed, inbound := t.inbound)
    ensures SingleFile(t) && RowsOk(cfg, t) && RequestsOk(t) && GateOk(cfg, t) && CountsOk(t) && PostsOk(t)
    ensures OpsOk(t) && LinesOk(t)
  {
    hide RunOk;
    hide Uses;
    hide Losses;
    forall k | 0 <= k < |t.effects| ensures Licensed(cfg, t, t.effects[k]) {
      assert Licensed(cfg, s, s.effects[k]);
    }
    forall i | 0 <= i < |t.runs| ensures OpOk(t, t.runs[i]) {
      assert OpOk(s, s.runs[i]);
    }
  }

  lemma MoveDeskSafe(cfg: Config, s: State, d: Desk)
    requires Safe(cfg, s)
    ensures Safe(cfg, MoveDesk(s, d))
  {
    hide SingleFile;
    hide RowsOk;
    hide RequestsOk;
    hide GateOk;
    hide CountsOk;
    hide PostsOk;
    hide OpsOk;
    hide LinesOk;
    ElsewhereSafe(cfg, s, MoveDesk(s, d));
  }

  lemma HeardSafe(cfg: Config, s: State)
    requires Safe(cfg, s)
    ensures Safe(cfg, s.(inbound := s.inbound + 1))
  {
    hide SingleFile;
    hide RowsOk;
    hide RequestsOk;
    hide GateOk;
    hide CountsOk;
    hide PostsOk;
    hide OpsOk;
    hide LinesOk;
    ElsewhereSafe(cfg, s, s.(inbound := s.inbound + 1));
  }

  lemma {:induction false} SupersedeAll(s: State, k: nat, now: int)
    requires k <= |s.runs|
    ensures var t := SupersedeFrom(s, k, now);
            t == s.(runs := t.runs) && |t.runs| == |s.runs|
            && forall j :: 0 <= j < |s.runs| ==> t.runs[j] == if j < k then s.runs[j] else Supersede(s.runs[j], now)
    decreases |s.runs| - k
  {
    if k < |s.runs| {
      SupersedeAll(Put(s, k, Supersede(s.runs[k], now)), k + 1, now);
    }
  }

  /** The thread after its queued runs were merged into a new one. */
  predicate Merged(s: State, t: State, now: int, rid: int, trigger: nat) {
    |t.runs| == |s.runs| + 1
    && (forall j :: 0 <= j < |s.runs| ==> t.runs[j] == Supersede(s.runs[j], now))
    && t.runs[|s.runs|] == NewRun(now, rid, trigger)
    && t == s.(runs := t.runs, stayed := true, tasks := t.tasks)
    && s.desk.AiQueue? && s.inbound > trigger
    && (forall j :: 0 <= j < |s.runs| ==> s.runs[j].trigger < trigger && KeyLess(s.runs[j], NewRun(now, rid, trigger)))
  }

  lemma MergedShape(cfg: Config, s: State, t: State, now: int, rid: int, trigger: nat)
    requires Safe(cfg, s) && Merged(s, t, now, rid, trigger)
    ensures Ordered(t) && SingleFile(t) && PostsOk(t) && StayOk(t)
  {
    hide RunOk;
    hide RequestsOk;
    hide GateOk;
    hide CountsOk;
    hide OpsOk;
    hide LinesOk;
  }

  lemma MergedRows(cfg: Config, s: State, t: State, now: int, rid: int, trigger: nat)
    requires Safe(cfg, s) && Merged(s, t, now, rid, trigger)
    ensures RowsOk(cfg, t)
  {
    hide WithinBudget;
    forall j | 0 <= j < |s.runs| ensures RunOk(cfg, t.runs[j]) {
      assert RunOk(cfg, s.runs[j]);
    }
    EmptyWithinBudget(cfg);
  }

  lemma EmptyWithinBudget(cfg: Config)
    ensures WithinBudget(cfg, [])
  {
  }

  lemma MergedPending(cfg: Config, s: State, t: State, now: int, rid: int, trigger: nat)
    requires Safe(cfg, s) && Merged(s, t, now, rid, trigger)
    ensures RequestsOk(t) && CountsOk(t)
  {
    hide RunOk;
    hide Uses;
    hide Losses;
    assert forall j :: 0 <= j < |s.runs| ==> t.runs[j].pending == s.runs[j].pending;
    forall a | 0 <= a < |t.approvals| ensures Consumed(s, a) == Consumed(t, a) {
      assert s.approvals[a].run < |s.runs|;
    }
  }

  lemma MergedRest(cfg: Config, s: State, t: State, now: int, rid: int, trigger: nat)
    requires Safe(cfg, s) && Merged(s, t, now, rid, trigger)
    ensures GateOk(cfg, t) && OpsOk(t) && LinesOk(t)
  {
    hide RunOk;
    forall k | 0 <= k < |t.effects| ensures Licensed(cfg, t, t.effects[k]) {
      assert Licensed(cfg, s, s.effects[k]);
    }
    forall j | 0 <= j < |t.runs| ensures OpOk(t, t.runs[j]) {
      if j < |s.runs| { assert OpOk(s, s.runs[j]); }
    }
  }

  lemma MergeMerges(s: State, now: int, rid: int, trigger: nat)
    requires s.desk.AiQueue? && s.inbound > trigger
    requires forall j :: 0 <= j < |s.runs| ==> s.runs[j].trigger < trigger && KeyLess(s.runs[j], NewRun(now, rid, trigger))
    ensures Merged(s, Merge(s, now, rid, trigger), now, rid, trigger)
  {
    SupersedeAll(s, 0, now);
  }

  lemma MergeSafe(cfg: Config, s: State, t: State, now: int, rid: int, trigger: nat)
    requires Safe(cfg, s) && Merged(s, t, now, rid, trigger)
    ensures Safe(cfg, t)
  {
    MergedShape(cfg, s, t, now, rid, trigger);
    MergedRows(cfg, s, t, now, rid, trigger);
    MergedPending(cfg, s, t, now, rid, trigger);
    MergedRest(cfg, s, t, now, rid, trigger);
  }

  lemma HearSafe(cfg: Config, s: State, live: bool)
    requires Safe(cfg, s)
    ensures Safe(cfg, Threads.Hear(s, live))
  {
    hide Safe;
    MoveDeskSafe(cfg, s, Reopen(s.desk, live));
    HeardSafe(cfg, MoveDesk(s, Reopen(s.desk, live)));
  }

  lemma TriggersBelowInbound(cfg: Config, s: State)
    requires Safe(cfg, s)
    ensures forall j :: 0 <= j < |s.runs| ==> s.runs[j].trigger < s.inbound
  {
  }

  lemma ReceiveSafe(cfg: Config, s: State, now: int, rid: int, live: bool)
    requires Safe(cfg, s)
    requires forall j :: 0 <= j < |s.runs| ==> KeyLess(s.runs[j], NewRun(now, rid, s.inbound))
    ensures Safe(cfg, Receive(s, now, rid, live))
  {
    hide Safe;
    hide Merge;
    hide Merged;
    hide Reopen;
    HearSafe(cfg, s, live);
    TriggersBelowInbound(cfg, s);
    var t := Threads.Hear(s, live);
    if t.desk.AiQueue? && live {
      MergeMerges(t, now, rid, s.inbound);
      MergeSafe(cfg, t, Merge(t, now, rid, s.inbound), now, rid, s.inbound);
    }
  }

  // ------------------------------------------------------------------ answers, verdicts and sweeps

  lemma AnswerKeepsRow(cfg: Config, r: Run, result: PageResult, now: int)
    requires RunOk(cfg, r) && r.pending.Some? && r.pending.value.ForPage?
    ensures QuietRow(r, WithAnswer(r, result, now)) && RunOk(cfg, WithAnswer(r, result, now))
  {
    hide SnapshotOwes;
    hide WithinBudget;
  }

  lemma AnswerSafe(cfg: Config, s: State, i: nat, result: PageResult, now: int)
    requires Safe(cfg, s) && i < |s.runs| && s.runs[i].pending.Some? && s.runs[i].pending.value.ForPage?
    ensures Safe(cfg, Put(Enqueue(s, i), i, WithAnswer(s.runs[i], result, now)))
  {
    assert RunOk(cfg, s.runs[i]);
    AnswerKeepsRow(cfg, s.runs[i], result, now);
    EnqueueSafe(cfg, s, i);
    QuietPut(cfg, Enqueue(s, i), i, WithAnswer(s.runs[i], result, now));
  }

  lemma {:induction false} SweepSafe(cfg: Config, s: State, k: nat, now: int)
    requires Safe(cfg, s) && k <= |s.runs|
    ensures Safe(cfg, SweepFrom(s, k, now))
    decreases |s.runs| - k
  {
    hide Safe;
    if k < |s.runs| {
      if Stale(s.runs[k], now) {
        AnswerSafe(cfg, s, k, Readable("timed out", true), now);
        SweepSafe(cfg, Put(Enqueue(s, k), k, WithAnswer(s.runs[k], Readable("timed out", true), now)), k + 1, now);
      } else {
        SweepSafe(cfg, s, k + 1, now);
      }
    }
  }

  lemma {:induction false} ReapSafe(cfg: Config, s: State, k: nat, now: int)
    requires Safe(cfg, s) && k <= |s.runs|
    ensures Safe(cfg, ReapFrom(s, k, now))
    decreases |s.runs| - k
  {
    hide Safe;
    if k < |s.runs| {
      EnqueueSafe(cfg, s, k);
      ReapSafe(cfg, if Stalled(s.runs[k], now) then Enqueue(s, k) else s, k + 1, now);
    }
  }

  lemma RulingKeepsRow(cfg: Config, r: Run, a: nat)
    requires RunOk(cfg, r)
    ensures QuietRow(r, WithRuling(r, a)) && RunOk(cfg, WithRuling(r, a))
  {
    hide SnapshotOwes;
    hide ToolCallsIn;
    hide RequestsIn;
    LogKeepsBudget(cfg, r.trace, Ruled(a));
  }

  /** The verdict alone, before the run is told. */
  function Judge(s: State, a: nat, v: Verdict, now: int): State
    requires a < |s.approvals|
  {
    s.(approvals := s.approvals[a := s.approvals[a].(verdict := v, decidedAt := Some(now))])
  }

  lemma JudgeSafe(cfg: Config, s: State, a: nat, v: Verdict, now: int)
    requires Safe(cfg, s) && a < |s.approvals| && s.approvals[a].verdict.Undecided? && now <= s.clock
    requires !v.Undecided? && (v.Approved? ==> now < s.approvals[a].expiresAt)
    ensures Safe(cfg, Judge(s, a, v, now))
  {
    JudgeShape(cfg, s, a, v, now);
    JudgeRequests(cfg, s, a, v, now);
    JudgeGate(cfg, s, a, v, now);
  }

  lemma JudgeShape(cfg: Config, s: State, a: nat, v: Verdict, now: int)
    requires Safe(cfg, s) && a < |s.approvals|
    ensures var t := Judge(s, a, v, now);
            Ordered(t) && SingleFile(t) && RowsOk(cfg, t) && PostsOk(t) && StayOk(t) && OpsOk(t) && LinesOk(t)
  {
    hide RunOk;
    hide RequestsOk;
    hide GateOk;
    hide CountsOk;
    hide KeyLess;
    hide InFlight;
    JudgeOps(s, a, v, now);
    hide OpsOk;
  }

  lemma JudgeOps(s: State, a: nat, v: Verdict, now: int)
    requires OpsOk(s) && a < |s.approvals|
    ensures OpsOk(Judge(s, a, v, now))
  {
    forall i | 0 <= i < |s.runs| ensures OpOk(Judge(s, a, v, now), s.runs[i]) {
      assert OpOk(s, s.runs[i]);
    }
  }

  lemma JudgeRequests(cfg: Config, s: State, a: nat, v: Verdict, now: int)
    requires Safe(cfg, s) && a < |s.approvals| && s.approvals[a].verdict.Undecided? && now <= s.clock
    requires !v.Undecided? && (v.Approved? ==> now < s.approvals[a].expiresAt)
    ensures RequestsOk(Judge(s, a, v, now))
  {
    hide RunOk;
  }

  lemma JudgeGate(cfg: Config, s: State, a: nat, v: Verdict, now: int)
    requires Safe(cfg, s) && a < |s.approvals| && s.approvals[a].verdict.Undecided? && now <= s.clock
    ensures GateOk(cfg, Judge(s, a, v, now)) && CountsOk(Judge(s, a, v, now))
  {
    hide RunOk;
    hide Uses;
    hide Losses;
    var t := Judge(s, a, v, now);
    forall k | 0 <= k < |t.effects| ensures Licensed(cfg, t, t.effects[k]) {
      assert Licensed(cfg, s, s.effects[k]);
    }
    assert PendsOn(s.runs[s.approvals[a].run], a);
    forall b | 0 <= b < |t.approvals| ensures Consumed(s, b) == Consumed(t, b) {
    }
  }

  lemma RuleSafe(cfg: Config, s: State, a: nat, v: Verdict, now: int)
    requires Safe(cfg, s) && a < |s.approvals| && s.approvals[a].verdict.Undecided? && now <= s.clock
    requires !v.Undecided? && (v.Approved? ==> now < s.approvals[a].expiresAt)
    ensures Safe(cfg, Rule(s, a, v, now))
  {
    var i := s.approvals[a].run;
    var t := Judge(s, a, v, now);
    assert i < |s.runs|;
    assert RunOk(cfg, s.runs[i]);
    JudgeSafe(cfg, s, a, v, now);
    EnqueueSafe(cfg, t, i);
    RulingKeepsRow(cfg, s.runs[i], a);
    QuietPut(cfg, Enqueue(t, i), i, WithRuling(s.runs[i], a));
  }

  lemma {:induction false} ExpireSafe(cfg: Config, s: State, a: nat, now: int)
    requires Safe(cfg, s) && a <= |s.approvals| && now <= s.clock
    ensures Safe(cfg, ExpireFrom(s, a, now))
    decreases |s.approvals| - a
  {
    hide Safe;
    if a < |s.approvals| {
      if Overdue(s.approvals[a], now) {
        RuleSafe(cfg, s, a, Expired, now);
        ExpireSafe(cfg, Rule(s, a, Expired, now), a + 1, now);
      } else {
        ExpireSafe(cfg, s, a + 1, now);
      }
    }
  }

  // ------------------------------------------------------------------ tour telemetry

  predicate ClosesGuide(s: State, t: State, i: nat, now: int) {
    i < |s.runs| && s.runs[i].status.AwaitingClient? && s.runs[i].pending.Some?
    && s.runs[i].pending.value.ForPage? && s.runs[i].pending.value.result.None?
    && t == s.(runs := s.runs[i := SilentlyClosed(s.runs[i], now)], hushed := s.hushed + {i},
               settled := s.settled + [s.runs[i].pending.value.opId])
  }

  lemma ClosedShape(cfg: Config, s: State, t: State, i: nat, now: int)
    requires Safe(cfg, s) && ClosesGuide(s, t, i, now)
    ensures Ordered(t) && SingleFile(t) && PostsOk(t) && StayOk(t)
  {
    hide RunOk;
  }

  lemma ClosedRows(cfg: Config, s: State, t: State, i: nat, now: int)
    requires Safe(cfg, s) && ClosesGuide(s, t, i, now)
    ensures RowsOk(cfg, t) && RequestsOk(t)
  {
    hide ToolCallsIn;
    hide RequestsIn;
    hide SnapshotOwes;
    assert RunOk(cfg, s.runs[i]);
    LogKeepsBudget(cfg, s.runs[i].trace, Got(s.runs[i].pending.value.name));
  }

  lemma ClosedRest(cfg: Config, s: State, t: State, i: nat, now: int)
    requires Safe(cfg, s) && ClosesGuide(s, t, i, now)
    ensures GateOk(cfg, t) && CountsOk(t) && LinesOk(t)
  {
    hide RunOk;
    hide Uses;
    hide Losses;
    forall k | 0 <= k < |t.effects| ensures Licensed(cfg, t, t.effects[k]) {
      assert Licensed(cfg, s, s.effects[k]);
    }
    forall b | 0 <= b < |t.approvals| ensures Consumed(s, b) == Consumed(t, b) {
      assert s.approvals[b].run < |s.runs|;
    }
  }

  /** Distinct waits use distinct op ids: only one run is in flight. */
  lemma OthersDoNotWait(cfg: Config, s: State, i: nat, j: nat)
    requires Safe(cfg, s) && i < |s.runs| && j < |s.runs| && i != j && InFlight(s.runs[i].status)
    ensures s.runs[j].pending.None?
  {
    hide WithinBudget;
    hide SnapshotOwes;
    assert RunOk(cfg, s.runs[j]);
  }

  lemma ClosedOps(cfg: Config, s: State, t: State, i: nat, now: int)
    requires Safe(cfg, s) && ClosesGuide(s, t, i, now)
    ensures OpsOk(t)
  {
    assert OpOk(s, s.runs[i]);
    forall j | 0 <= j < |t.runs| ensures OpOk(t, t.runs[j]) {
      if j != i { OthersDoNotWait(cfg, s, i, j); }
    }
  }

  lemma ClosedSafe(cfg: Config, s: State, t: State, i: nat, now: int)
    requires Safe(cfg, s) && ClosesGuide(s, t, i, now)
    ensures Safe(cfg, t)
  {
    ClosedShape(cfg, s, t, i, now);
    ClosedRows(cfg, s, t, i, now);
    ClosedRest(cfg, s, t, i, now);
    ClosedOps(cfg, s, t, i, now);
  }

  /** Only what telemetry keeps has changed. */
  predicate SameButTelemetry(s: State, t: State) {
    t == s.(settled := t.settled, lines := t.lines, link := t.link)
  }

  lemma GateIgnoresTelemetry(cfg: Config, s: State, t: State)
    requires SameButTelemetry(s, t) && GateOk(cfg, s) && CountsOk(s)
    ensures GateOk(cfg, t) && CountsOk(t)
  {
    hide Uses;
    hide Losses;
    forall k | 0 <= k < |t.effects| ensures Licensed(cfg, t, t.effects[k]) {
      assert Licensed(cfg, s, s.effects[k]);
    }
    forall a | 0 <= a < |t.approvals|
      ensures Uses(t.effects, a) == Losses(t.lost, a) + (if Consumed(t, a) then 1 else 0)
    {
      assert Consumed(t, a) == Consumed(s, a);
    }
  }

  lemma RowsIgnoreTelemetry(cfg: Config, s: State, t: State)
    requires SameButTelemetry(s, t) && Ordered(s) && SingleFile(s) && RowsOk(cfg, s) && RequestsOk(s)
    ensures Ordered(t) && SingleFile(t) && RowsOk(cfg, t) && RequestsOk(t)
  {
    hide RunOk;
    hide Matches;
    hide VerdictOk;
    hide PendsOn;
  }

  lemma TelemetrySafe(cfg: Config, s: State, t: State)
    requires Safe(cfg, s) && SameButTelemetry(s, t) && OpsOk(t) && LinesOk(t)
    ensures Safe(cfg, t)
  {
    hide Ordered;
    hide SingleFile;
    hide RowsOk;
    hide RequestsOk;
    hide GateOk;
    hide CountsOk;
    hide OpsOk;
    hide LinesOk;
    GateIgnoresTelemetry(cfg, s, t);
    RowsIgnoreTelemetry(cfg, s, t);
  }

  /** Marking the op settled once its wait has an answer. */
  lemma SettledSafe(cfg: Config, s: State, i: nat)
    requires Safe(cfg, s) && i < |s.runs| && s.runs[i].status.AwaitingClient?
    requires s.runs[i].pending.Some? && s.runs[i].pending.value.ForPage? && s.runs[i].pending.value.result.Some?
    requires s.runs[i].pending.value.opId !in s.settled
    ensures Safe(cfg, s.(settled := s.settled + [s.runs[i].pending.value.opId]))
  {
    var t := s.(settled := s.settled + [s.runs[i].pending.value.opId]);
    assert OpOk(s, s.runs[i]);
    forall j | 0 <= j < |t.runs| ensures OpOk(t, t.runs[j]) {
      if j != i { OthersDoNotWait(cfg, s, i, j); }
    }
    TelemetrySafe(cfg, s, t);
    hide RowsOk;
    hide GateOk;
    hide CountsOk;
    hide RequestsOk;
    hide StayOk;
    hide PostsOk;
  }

  lemma FreshOp(cfg: Config, s: State, i: nat)
    requires Safe(cfg, s) && i < |s.runs| && s.runs[i].pending.Some? && s.runs[i].pending.value.ForPage?
    requires s.runs[i].pending.value.result.None?
    ensures s.runs[i].pending.value.opId !in s.settled
  {
    assert OpOk(s, s.runs[i]);
  }

  lemma SettleGuideSafe(cfg: Config, s: State, i: nat, tour: string, event: TourEvent, now: int)
    requires Safe(cfg, s)
    ensures Safe(cfg, SettleGuide(s, i, tour, event, now))
  {
    hide TourOf;
    hide Chain;
    if i < |s.runs| && AwaitsGuide(s.runs[i], tour) {
      var r := s.runs[i];
      var op := r.pending.value.opId;
      FreshOp(cfg, s, i);
      hide Safe;
      if event.TourStarted? {
        var u := Put(Enqueue(s, i), i, WithAnswer(r, Readable("playing", false), now));
        AnswerSafe(cfg, s, i, Readable("playing", false), now);
        SettledSafe(cfg, u, i);
        assert SettleGuide(s, i, tour, event, now) == u.(settled := s.settled + [op]);
      } else if !event.StepEvent? {
        var u := s.(runs := s.runs[i := SilentlyClosed(r, now)], hushed := s.hushed + {i}, settled := s.settled + [op]);
        ClosedSafe(cfg, s, u, i, now);
        ChainSafe(cfg, u, i);
        assert SettleGuide(s, i, tour, event, now) == Chain(u, i);
      }
    }
  }

  lemma SettleGuideKeepsLink(s: State, i: nat, tour: string, event: TourEvent, now: int)
    ensures var t := SettleGuide(s, i, tour, event, now); t.link == s.link && t.lines == s.lines
  {
  }

  lemma MirrorSafe(cfg: Config, s: State, event: TourEvent, said: seq<TourLine>)
    requires Safe(cfg, s) && s.link.Some? && event !in s.link.value.mirrored
    requires said == [] || said == [TourLine(s.link.value.opId, event)]
    ensures Safe(cfg, s.(link := Some(s.link.value.(mirrored := s.link.value.mirrored + {event})), lines := s.lines + said))
  {
    var t := s.(link := Some(s.link.value.(mirrored := s.link.value.mirrored + {event})), lines := s.lines + said);
    assert LinesOk(t);
    forall j | 0 <= j < |t.runs| ensures OpOk(t, t.runs[j]) {
      assert OpOk(s, s.runs[j]);
    }
    TelemetrySafe(cfg, s, t);
    hide RowsOk;
    hide GateOk;
    hide CountsOk;
    hide RequestsOk;
    hide StayOk;
    hide PostsOk;
  }

  lemma TrackSafe(cfg: Config, s: State, tour: string, event: TourEvent, now: int)
    requires Safe(cfg, s)
    ensures Safe(cfg, Track(s, tour, event, now))
  {
    hide Safe;
    if !event.StepEvent? && s.link.Some? && s.link.value.tour == tour {
      var link := s.link.value;
      var t := SettleGuide(s, link.run, tour, event, now);
      SettleGuideSafe(cfg, s, link.run, tour, event, now);
      SettleGuideKeepsLink(s, link.run, tour, event, now);
      if event !in link.mirrored {
        MirrorSafe(cfg, t, event, if event.TourStarted? && link.announced then [] else [TourLine(link.opId, event)]);
      }
    }
  }

  // ------------------------------------------------------------------ executing a run

  lemma CancelSafe(cfg: Config, s: State, i: nat, now: int)
    requires Safe(cfg, s) && i < |s.runs| && s.runs[i].status.Queued? && !s.desk.AiQueue?
    ensures Safe(cfg, Put(s, i, s.runs[i].(status := Canceled, updatedAt := now)))
  {
    var q := s.runs[i].(status := Canceled, updatedAt := now);
    assert RunOk(cfg, s.runs[i]);
    assert q.pending == s.runs[i].pending;
    CanceledShape(cfg, s, i, q);
    QuietPending(cfg, s, i, q);
  }

  lemma CanceledShape(cfg: Config, s: State, i: nat, q: Run)
    requires Safe(cfg, s) && i < |s.runs| && !s.desk.AiQueue? && Terminal(q.status) && SameRow(s.runs[i], q) && RunOk(cfg, q)
    ensures var t := Put(s, i, q); Ordered(t) && SingleFile(t) && RowsOk(cfg, t) && PostsOk(t) && StayOk(t)
  {
    hide RunOk;
  }

  lemma QuietPending(cfg: Config, s: State, i: nat, q: Run)
    requires Safe(cfg, s) && i < |s.runs| && q.pending == s.runs[i].pending
    ensures var t := Put(s, i, q); RequestsOk(t) && GateOk(cfg, t) && CountsOk(t) && OpsOk(t) && LinesOk(t)
  {
    hide RunOk;
    hide Uses;
    hide Losses;
    var t := Put(s, i, q);
    forall k | 0 <= k < |t.effects| ensures Licensed(cfg, t, t.effects[k]) {
      assert Licensed(cfg, s, s.effects[k]);
    }
    forall a | 0 <= a < |t.approvals| ensures Consumed(s, a) == Consumed(t, a) {
    }
    forall j | 0 <= j < |t.runs| ensures OpOk(t, t.runs[j]) {
      assert OpOk(s, s.runs[j]);
    }
  }

  /** Everything `Commit` relies on: the delivery passed the in-order guard and the claim, the
      activation stopped, and it touched only what an activation may touch. */
  predicate Committable(cfg: Config, s: State, i: nat, env: Env, gate: Option<Effect>, a: Act) {
    i < |s.runs| && Active(s.runs[i])
    && (s.runs[i].status.Queued? ==> !EarlierActive(s.runs, i) && s.desk.AiQueue?)
    && env.cfg == cfg && env.self == i && env.nextApproval == |s.approvals| && env.nextOp == s.nextOp
    && s.clock <= env.now
    && Stopped(env, a) && !a.fate.Aborted? && Footprint(env, s.runs[i], gate, s.link, a)
    && GateFits(s, i, env, gate)
  }

  /** The verdict a resume acts on is in, and its gated effect is the parked call. */
  predicate GateFits(s: State, i: nat, env: Env, gate: Option<Effect>)
    requires i < |s.runs|
  {
    (s.runs[i].pending.Some? && s.runs[i].pending.value.ForHuman? ==> !VerdictFor(s, s.runs[i]).Undecided?)
    && gate == GateOf(env, s.runs[i], VerdictFor(s, s.runs[i]))
  }

  /** Nobody else is active below a run that may be executed, and no reply comes from above. */
  lemma FirstInLine(cfg: Config, s: State, i: nat)
    requires Safe(cfg, s) && i < |s.runs| && Active(s.runs[i])
    requires s.runs[i].status.Queued? ==> !EarlierActive(s.runs, i)
    ensures forall j :: 0 <= j < |s.runs| && j != i && Active(s.runs[j]) ==> i < j && s.runs[j].status.Queued?
    ensures forall k :: 0 <= k < |s.posts| ==> s.posts[k].run < i
  {
    hide RunOk;
    assert s.runs[i].status.Queued? ==> forall j :: 0 <= j < |s.runs| && j != i ==> KeyLess(s.runs[j], s.runs[i]);
  }

  lemma RecordShape(cfg: Config, s: State, i: nat, env: Env, gate: Option<Effect>, a: Act)
    requires Safe(cfg, s) && Committable(cfg, s, i, env, gate, a)
    ensures var t := Record(s, i, a); Ordered(t) && SingleFile(t) && RowsOk(cfg, t)
  {
    hide RequestsOk;
    hide GateOk;
    hide CountsOk;
    hide PostsOk;
    hide StayOk;
    hide OpsOk;
    hide LinesOk;
    FirstInLine(cfg, s, i);
    hide WithinBudget;
    hide SnapshotOwes;
    hide EarlierActive;
    hide EffectsOk;
    hide AllSettled;
    hide GateFits;
    assert RunOk(cfg, a.run);
    hide RunOk;
  }

  lemma RecordPosts(cfg: Config, s: State, i: nat, env: Env, gate: Option<Effect>, a: Act)
    requires Safe(cfg, s) && Committable(cfg, s, i, env, gate, a)
    ensures PostsOk(Record(s, i, a))
  {
    hide RowsOk;
    hide RequestsOk;
    hide GateOk;
    hide CountsOk;
    hide StayOk;
    hide OpsOk;
    hide LinesOk;
    hide Ordered;
    hide SingleFile;
    FirstInLine(cfg, s, i);
    hide RunOk;
    hide EarlierActive;
    hide EffectsOk;
    hide AllSettled;
    hide GateFits;
    var t := Record(s, i, a);
    assert a.run.trigger == s.runs[i].trigger;
    assert a.fate.Finished? ==> !Active(a.run);
  }

  lemma RecordStay(cfg: Config, s: State, i: nat, env: Env, gate: Option<Effect>, a: Act)
    requires Safe(cfg, s) && Committable(cfg, s, i, env, gate, a)
    ensures StayOk(Record(s, i, a))
  {
    FirstInLine(cfg, s, i);
    hide RunOk;
    hide EarlierActive;
    hide EffectsOk;
    hide AllSettled;
    hide Licensed;
    assert !a.run.status.Canceled?;
  }

  lemma RecordRequests(cfg: Config, s: State, i: nat, env: Env, gate: Option<Effect>, a: Act)
    requires Safe(cfg, s) && Committable(cfg, s, i, env, gate, a)
    ensures RequestsOk(Record(s, i, a))
  {
    hide EarlierActive;
    hide EffectsOk;
    hide AllSettled;
    hide Licensed;
    hide WithinBudget;
    hide SnapshotOwes;
    StoppedPending(env, a);
    hide RunOk;
  }

  /** A stopped row waits on a human exactly when it is parked on one. */
  lemma StoppedPending(env: Env, a: Act)
    requires Stopped(env, a) && !a.fate.Aborted?
    ensures a.run.pending.Some? ==> a.fate.Parked?
    ensures a.run.pending.Some? && a.run.pending.value.ForHuman? ==> a.run.status.AwaitingApproval?
    ensures a.run.pending.Some? && a.run.pending.value.ForPage? ==> a.run.status.AwaitingClient?
  {
    hide WithinBudget;
    hide SnapshotOwes;
  }

  lemma RecordGate(cfg: Config, s: State, i: nat, env: Env, gate: Option<Effect>, a: Act)
    requires Safe(cfg, s) && Committable(cfg, s, i, env, gate, a)
    ensures GateOk(cfg, Record(s, i, a))
  {
    hide RowsOk;
    hide RequestsOk;
    hide CountsOk;
    hide PostsOk;
    hide StayOk;
    hide OpsOk;
    hide LinesOk;
    hide Ordered;
    hide SingleFile;
    hide Stopped;
    hide GateFits;
    hide EarlierActive;
    var t := Record(s, i, a);
    GateLicensed(cfg, s, i, env, gate);
    forall k | 0 <= k < |t.effects| ensures Licensed(cfg, t, t.effects[k]) {
      if k < |s.effects| {
        assert Licensed(cfg, s, s.effects[k]);
      } else {
        assert t.effects[k] == a.effects[k - |s.effects|];
        assert gate == Some(t.effects[k]) || Unattended(env, t.effects[k]);
        assert Licensed(cfg, s, t.effects[k]);
      }
    }
  }

  /** The gated effect of a resume is licensed by the request its run was parked on. */
  lemma GateLicensed(cfg: Config, s: State, i: nat, env: Env, gate: Option<Effect>)
    requires Safe(cfg, s) && i < |s.runs| && env.self == i && s.clock <= env.now && GateFits(s, i, env, gate)
    ensures gate.Some? ==> Licensed(cfg, s, gate.value)
    ensures gate.Some? ==> gate.value.approval.Some? && PendsOn(s.runs[i], gate.value.approval.value)
    ensures forall a :: 0 <= a < |s.approvals| && s.approvals[a].verdict.Approved? && PendsOn(s.runs[i], a) ==>
              gate.Some? && gate.value.approval == Some(a)
  {
    hide RunOk;
  }

  lemma UsesUnknown(cfg: Config, s: State, effects: seq<Effect>, a: nat)
    requires a >= |s.approvals| && forall k :: 0 <= k < |effects| ==> Licensed(cfg, s, effects[k])
    ensures Uses(effects, a) == 0
    decreases |effects|
  {
    if effects != [] {
      assert Licensed(cfg, s, effects[|effects| - 1]);
      UsesUnknown(cfg, s, effects[..|effects| - 1], a);
    }
  }

  lemma LossesUnknown(lost: seq<nat>, bound: nat, a: nat)
    requires a >= bound && forall k :: 0 <= k < |lost| ==> lost[k] < bound
    ensures Losses(lost, a) == 0
    decreases |lost|
  {
    if lost != [] { LossesUnknown(lost[..|lost| - 1], bound, a); }
  }

  /** How committing an activation changes who is consumed. */
  lemma RecordConsumes(cfg: Config, s: State, i: nat, env: Env, gate: Option<Effect>, a: Act, b: nat)
    requires Safe(cfg, s) && Committable(cfg, s, i, env, gate, a) && b < |s.approvals|
    ensures Consumed(Record(s, i, a), b) == (Consumed(s, b) || (gate.Some? && gate.value.approval == Some(b)))
    ensures Consumed(s, b) ==> !(gate.Some? && gate.value.approval == Some(b))
  {
    GateLicensed(cfg, s, i, env, gate);
    hide EarlierActive;
    hide EffectsOk;
    hide AllSettled;
    hide WithinBudget;
    hide SnapshotOwes;
    StoppedPending(env, a);
    assert gate.Some? ==> Licensed(cfg, s, gate.value);
    assert !PendsOn(a.run, b);
  }

  lemma RecordCounts(cfg: Config, s: State, i: nat, env: Env, gate: Option<Effect>, a: Act)
    requires Safe(cfg, s) && Committable(cfg, s, i, env, gate, a)
    ensures CountsOk(Record(s, i, a))
  {
    var t := Record(s, i, a);
    GateLicensed(cfg, s, i, env, gate);
    forall b | 0 <= b < |t.approvals|
      ensures Uses(t.effects, b) == Losses(t.lost, b) + (if Consumed(t, b) then 1 else 0)
    {
      RecordCount(cfg, s, i, env, gate, a, b);
    }
  }

  lemma RecordCount(cfg: Config, s: State, i: nat, env: Env, gate: Option<Effect>, a: Act, b: nat)
    requires Safe(cfg, s) && Committable(cfg, s, i, env, gate, a) && b < |Record(s, i, a).approvals|
    ensures var t := Record(s, i, a); Uses(t.effects, b) == Losses(t.lost, b) + (if Consumed(t, b) then 1 else 0)
  {
    var t := Record(s, i, a);
    UsesAppend(s.effects, a.effects, b);
    GatedUses(env, gate, a.effects, b);
    if b < |s.approvals| {
      RecordConsumes(cfg, s, i, env, gate, a, b);
    } else {
      GateLicensed(cfg, s, i, env, gate);
      UsesUnknown(cfg, s, s.effects, b);
      LossesUnknown(s.lost, |s.approvals|, b);
      assert t.approvals[b].verdict.Undecided?;
    }
  }

  lemma RecordOps(cfg: Config, s: State, i: nat, env: Env, gate: Option<Effect>, a: Act)
    requires Safe(cfg, s) && Committable(cfg, s, i, env, gate, a)
    ensures OpsOk(Record(s, i, a)) && LinesOk(Record(s, i, a))
  {
    var t := Record(s, i, a);
    hide EarlierActive;
    hide EffectsOk;
    hide AllSettled;
    hide Licensed;
    StoppedPending(env, a);
    hide RunOk;
    forall j | 0 <= j < |t.runs| ensures OpOk(t, t.runs[j]) {
      if j != i { assert OpOk(s, s.runs[j]); }
    }
  }

  lemma CommitSafe(cfg: Config, s: State, i: nat, env: Env, gate: Option<Effect>, a: Act)
    requires Safe(cfg, s) && Committable(cfg, s, i, env, gate, a)
    ensures Safe(cfg, Commit(s, i, a))
  {
    RecordSafe(cfg, s, i, env, gate, a);
    hide Safe;
    hide Record;
    ChainSafe(cfg, Record(s, i, a), i);
  }

  lemma RecordSafe(cfg: Config, s: State, i: nat, env: Env, gate: Option<Effect>, a: Act)
    requires Safe(cfg, s) && Committable(cfg, s, i, env, gate, a)
    ensures Safe(cfg, Record(s, i, a))
  {
    RecordShape(cfg, s, i, env, gate, a);
    RecordPosts(cfg, s, i, env, gate, a);
    RecordStay(cfg, s, i, env, gate, a);
    RecordRequests(cfg, s, i, env, gate, a);
    RecordGate(cfg, s, i, env, gate, a);
    RecordCounts(cfg, s, i, env, gate, a);
    RecordOps(cfg, s, i, env, gate, a);
  }

  lemma RollBackSafe(cfg: Config, s: State, i: nat, env: Env, r: Run, verdict: Verdict, a: Act)
    requires Safe(cfg, s) && i < |s.runs| && env.self == i && env.cfg == cfg && s.clock <= env.now
    requires r.pending == s.runs[i].pending && verdict == VerdictFor(s, s.runs[i])
    requires GateFits(s, i, env, GateOf(env, r, verdict))
    requires EffectsOk(env, GateOf(env, r, verdict), a.effects)
    ensures Safe(cfg, RollBack(s, r, verdict, a))
  {
    var gate := GateOf(env, r, verdict);
    var t := RollBack(s, r, verdict, a);
    GateLicensed(cfg, s, i, env, gate);
    RollBackGate(cfg, s, i, env, r, verdict, a);
    RollBackCounts(cfg, s, i, env, r, verdict, a);
    RollBackRest(cfg, s, r, verdict, a);
  }

  lemma RollBackRest(cfg: Config, s: State, r: Run, verdict: Verdict, a: Act)
    requires Safe(cfg, s)
    ensures var t := RollBack(s, r, verdict, a);
            Ordered(t) && SingleFile(t) && RowsOk(cfg, t) && RequestsOk(t) && PostsOk(t) && StayOk(t) && OpsOk(t) && LinesOk(t)
  {
    hide GateOk;
    hide CountsOk;
    hide KeyLess;
    hide InFlight;
    RowsIgnoreEffects(cfg, s, RollBack(s, r, verdict, a));
    hide RowsOk;
    hide RequestsOk;
    hide Ordered;
    hide SingleFile;
    hide OpsOk;
  }

  /** The groups that do not look at what the world has seen. */
  lemma RowsIgnoreEffects(cfg: Config, s: State, t: State)
    requires Ordered(s) && SingleFile(s) && RowsOk(cfg, s) && RequestsOk(s) && OpsOk(s)
    requires t == s.(effects := t.effects, lost := t.lost)
    ensures Ordered(t) && SingleFile(t) && RowsOk(cfg, t) && RequestsOk(t) && OpsOk(t)
  {
    hide RunOk;
    hide Matches;
    hide VerdictOk;
    hide PendsOn;
    forall j | 0 <= j < |t.runs| ensures OpOk(t, t.runs[j]) {
      assert OpOk(s, s.runs[j]);
    }
  }

  lemma RollBackGate(cfg: Config, s: State, i: nat, env: Env, r: Run, verdict: Verdict, a: Act)
    requires Safe(cfg, s) && i < |s.runs| && env.self == i && env.cfg == cfg && s.clock <= env.now
    requires r.pending == s.runs[i].pending && verdict == VerdictFor(s, s.runs[i])
    requires GateFits(s, i, env, GateOf(env, r, verdict))
    requires EffectsOk(env, GateOf(env, r, verdict), a.effects)
    ensures GateOk(cfg, RollBack(s, r, verdict, a))
  {
    var gate := GateOf(env, r, verdict);
    var t := RollBack(s, r, verdict, a);
    GateLicensed(cfg, s, i, env, gate);
    forall k | 0 <= k < |t.effects| ensures Licensed(cfg, t, t.effects[k]) {
      if k < |s.effects| {
        assert Licensed(cfg, s, s.effects[k]);
      } else {
        assert t.effects[k] == a.effects[k - |s.effects|];
        assert gate == Some(t.effects[k]) || Unattended(env, t.effects[k]);
        assert Licensed(cfg, s, t.effects[k]);
      }
    }
    assert RequestsOk(s);
  }

  lemma RollBackCounts(cfg: Config, s: State, i: nat, env: Env, r: Run, verdict: Verdict, a: Act)
    requires Safe(cfg, s) && i < |s.runs| && r.pending == s.runs[i].pending
    requires EffectsOk(env, GateOf(env, r, verdict), a.effects)
    ensures CountsOk(RollBack(s, r, verdict, a))
  {
    hide RunOk;
    var t := RollBack(s, r, verdict, a);
    forall b | 0 <= b < |t.approvals|
      ensures Uses(t.effects, b) == Losses(t.lost, b) + (if Consumed(t, b) then 1 else 0)
    {
      UsesAppend(s.effects, a.effects, b);
      GatedUses(env, GateOf(env, r, verdict), a.effects, b);
      if Approves(r, verdict) {
        LossesSnoc(s.lost, r.pending.value.approval, b);
      }
      assert Consumed(t, b) == Consumed(s, b);
      assert Uses(s.effects, b) == Losses(s.lost, b) + (if Consumed(s, b) then 1 else 0);
      if !Approves(r, verdict) { assert t.lost == s.lost; }
    }
  }

  /** Pending calls survive the claim, so the gate computed from the claimed row is the parked one. */
  lemma ClaimKeepsPending(r: Run, now: int)
    requires ClaimRun(r, now).Claimed?
    ensures ClaimRun(r, now).run.pending == r.pending && Active(r) && SameRow(r, ClaimRun(r, now).run)
  {
  }

  /** An activation that began has its verdict. */
  lemma BegunDecided(env: Env, r: Run, verdict: Verdict, desk: Desk, link: Option<Link>, d: Delivery)
    requires Activate(env, r, verdict, desk, link, d).Began?
    ensures r.pending.Some? && r.pending.value.ForHuman? ==> !verdict.Undecided?
  {
  }

  lemma CrashCommittable(cfg: Config, s: State, i: nat, now: int, askFirst: bool)
    requires Safe(cfg, s) && i < |s.runs| && s.clock <= now && ClaimRun(s.runs[i], now).Crashed?
    ensures Committable(cfg, s, i, EnvOf(cfg, s, i, now, askFirst), None,
                        CrashedAct(EnvOf(cfg, s, i, now, askFirst), s.runs[i], s.desk, s.link))
  {
    var env := EnvOf(cfg, s, i, now, askFirst);
    var r := s.runs[i];
    assert RunOk(cfg, r);
    FailStops(env, Act(r, [], s.desk, 0, 0, [], [], None, s.link, Working));
    hide WithinBudget;
    hide EarlierActive;
  }

  lemma ActivationCommittable(cfg: Config, s: State, i: nat, now: int, askFirst: bool, d: Delivery)
    requires Safe(cfg, s) && i < |s.runs| && s.clock <= now && ClaimRun(s.runs[i], now).Claimed?
    requires var env := EnvOf(cfg, s, i, now, askFirst);
             Activate(env, ClaimRun(s.runs[i], now).run, VerdictFor(s, s.runs[i]), s.desk, s.link, d).Began?
    requires s.runs[i].status.Queued? ==> !EarlierActive(s.runs, i) && s.desk.AiQueue?
    ensures var env := EnvOf(cfg, s, i, now, askFirst);
            var c := ClaimRun(s.runs[i], now).run;
            var verdict := VerdictFor(s, s.runs[i]);
            var a := Activate(env, c, verdict, s.desk, s.link, d).act;
            EffectsOk(env, GateOf(env, c, verdict), a.effects) && GateFits(s, i, env, GateOf(env, c, verdict))
            && (!a.fate.Aborted? ==> Committable(cfg, s, i, env, GateOf(env, c, verdict), a))
  {
    hide Activate;
    hide EarlierActive;
    hide RunOk;
    hide EffectsOk;
    var env := EnvOf(cfg, s, i, now, askFirst);
    var r := s.runs[i];
    var verdict := VerdictFor(s, r);
    assert RunOk(cfg, r);
    ClaimLegal(cfg, r, now);
    ClaimKeepsPending(r, now);
    var c := ClaimRun(r, now).run;
    ActivationLegal(env, c, verdict, s.desk, s.link, d);
    BegunDecided(env, c, verdict, s.desk, s.link, d);
    hide Stopped;
    hide Safe;
    hide Claimable;
    hide ClaimRun;
  }

  lemma TasksKeepCommittable(cfg: Config, s: State, t: State, i: nat, env: Env, gate: Option<Effect>, a: Act)
    requires Committable(cfg, s, i, env, gate, a) && t == s.(tasks := t.tasks)
    ensures Committable(cfg, t, i, env, gate, a)
  {
    hide Stopped;
    hide Footprint;
    hide EarlierActive;
  }

  lemma ExecuteClaimedSafe(cfg: Config, s: State, t: State, now: int, i: nat, askFirst: bool, d: Delivery)
    requires Safe(cfg, s) && i < |s.runs| && s.clock <= now && ClaimRun(s.runs[i], now).Claimed?
    requires s.runs[i].status.Queued? ==> !EarlierActive(s.runs, i) && s.desk.AiQueue?
    requires t == s.(tasks := t.tasks)
    ensures var env := EnvOf(cfg, s, i, now, askFirst);
            var c := ClaimRun(s.runs[i], now).run;
            var verdict := VerdictFor(s, s.runs[i]);
            var b := Activate(env, c, verdict, s.desk, s.link, d);
            b.Began? ==> if b.act.fate.Aborted? then Safe(cfg, RollBack(s, c, verdict, b.act)) else Safe(cfg, Commit(t, i, b.act))
  {
    var env := EnvOf(cfg, s, i, now, askFirst);
    var r := s.runs[i];
    var c := ClaimRun(r, now).run;
    var verdict := VerdictFor(s, r);
    var b := Activate(env, c, verdict, s.desk, s.link, d);
    ClaimKeepsPending(r, now);
    hide Safe;
    hide Activate;
    hide Committable;
    hide EffectsOk;
    hide GateFits;
    hide ClaimRun;
    hide Commit;
    hide RollBack;
    hide EarlierActive;
    if b.Began? {
      ActivationCommittable(cfg, s, i, now, askFirst, d);
      if b.act.fate.Aborted? {
        RollBackSafe(cfg, s, i, env, c, verdict, b.act);
      } else {
        TasksKeepCommittable(cfg, s, t, i, env, GateOf(env, c, verdict), b.act);
        TasksDoNotMatter(cfg, s, t);
        CommitSafe(cfg, t, i, env, GateOf(env, c, verdict), b.act);
      }
    }
  }

  lemma DeliverSafe(cfg: Config, s: State, now: int, i: nat, askFirst: bool, d: Delivery)
    requires Safe(cfg, s) && i < |s.runs| && s.clock <= now
    ensures Safe(cfg, Threads.Deliver(cfg, s, now, i, askFirst, d))
  {
    var r := s.runs[i];
    var t := s.(tasks := s.tasks - multiset{i});
    hide Safe;
    hide Activate;
    hide Commit;
    hide RollBack;
    hide EarlierActive;
    hide CrashedAct;
    hide VerdictFor;
    hide Committable;
    TasksDoNotMatter(cfg, s, t);
    if r.status.Queued? && EarlierActive(s.runs, i) {
    } else if r.status.Queued? && !s.desk.AiQueue? {
      CancelSafe(cfg, t, i, now);
    } else if ClaimRun(r, now).Crashed? {
      CrashCommittable(cfg, s, i, now, askFirst);
      var env := EnvOf(cfg, s, i, now, askFirst);
      TasksKeepCommittable(cfg, s, t, i, env, None, CrashedAct(env, r, s.desk, s.link));
      CommitSafe(cfg, t, i, env, None, CrashedAct(env, r, s.desk, s.link));
    } else if ClaimRun(r, now).Claimed? {
      ExecuteClaimedSafe(cfg, s, t, now, i, askFirst, d);
    }
  }

  // ------------------------------------------------------------------ every history

  lemma EmptySafe(cfg: Config)
    ensures Safe(cfg, Empty)
  {
  }

  lemma DecideSafe(cfg: Config, s: State, a: nat, approved: bool, now: int)
    requires Safe(cfg, s) && now == s.clock
    ensures Safe(cfg, DecideApproval(s, a, approved, now))
  {
    hide Safe;
    hide Rule;
    if a < |s.approvals| && s.approvals[a].verdict.Undecided? {
      RuleSafe(cfg, s, a, if s.approvals[a].expiresAt <= now then Expired else if approved then Approved else Rejected, now);
    }
  }

  lemma SubmitSafe(cfg: Config, s: State, i: nat, opId: nat, result: PageResult, now: int)
    requires Safe(cfg, s)
    ensures Safe(cfg, SubmitResult(s, i, opId, result, now))
  {
    hide Safe;
    if i < |s.runs| && AwaitsOp(s.runs[i], opId) {
      AnswerSafe(cfg, s, i, result, now);
    }
  }

  lemma ApplySafe(cfg: Config, s: State, e: Event)
    requires Safe(cfg, s) && Enabled(s, e) && e.now == s.clock
    ensures Safe(cfg, Apply(cfg, s, e))
  {
    hide Safe;
    hide Receive;
    hide Threads.Deliver;
    hide SubmitResult;
    hide DecideApproval;
    hide ExpireFrom;
    hide SweepFrom;
    hide ReapFrom;
    hide Track;
    hide MoveDesk;
    match e
    case Inbound(now, rid, live) => ReceiveSafe(cfg, s, now, rid, live);
    case Execute(now, i, askFirst, d) => DeliverSafe(cfg, s, now, i, askFirst, d);
    case Submit(now, i, opId, result) => SubmitSafe(cfg, s, i, opId, result, now);
    case Decide(now, a, approved) => DecideSafe(cfg, s, a, approved, now);
    case ExpireOverdue(now) => ExpireSafe(cfg, s, 0, now);
    case Sweep(now) => SweepSafe(cfg, s, 0, now);
    case Reap(now) => ReapSafe(cfg, s, 0, now);
    case Telemetry(now, tour, event) => TrackSafe(cfg, s, tour, event, now);
    case SetDesk(_, d) => MoveDeskSafe(cfg, s, d);
    case Redeliver(_, i) => EnqueueSafe(cfg, s, i);
    case Drop(_, i) => TasksDoNotMatter(cfg, s, s.(tasks := s.tasks - multiset{i}));
  }

  lemma NextSafe(cfg: Config, s: State, e: Event)
    requires Safe(cfg, s)
    ensures Safe(cfg, Next(cfg, s, e))
  {
    hide Safe;
    hide Apply;
    if Enabled(s, e) {
      TasksDoNotMatter(cfg, s, s.(clock := e.now));
      ApplySafe(cfg, s.(clock := e.now), e);
    }
  }

  /** The safety theorem: every state any history reaches is safe. */
  lemma {:induction false} EveryHistorySafe(cfg: Config, history: seq<Event>)
    ensures Safe(cfg, After(cfg, history))
    decreases |history|
  {
    hide Safe;
    hide Next;
    if history == [] {
      EmptySafe(cfg);
    } else {
      EveryHistorySafe(cfg, history[..|history| - 1]);
      NextSafe(cfg, After(cfg, history[..|history| - 1]), history[|history| - 1]);
    }
  }
}
