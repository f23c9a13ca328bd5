/** No run is stranded: with a queue that loses nothing, whatever can make progress has a task. */
module ThreadLiveness {
  import opened Wrappers
  import opened AgentRuns
  import opened AgentRunTheorems
  import opened Threads
  import opened ThreadSafety

  /** Parked, but its decision or its page result is in. */
  predicate Ready(s: State, r: Run) {
    (r.status.AwaitingApproval? && r.pending.Some? && r.pending.value.ForHuman?
     && r.pending.value.approval < |s.approvals| && !s.approvals[r.pending.value.approval].verdict.Undecided?)
    || (r.status.AwaitingClient? && r.pending.Some? && r.pending.value.ForPage? && r.pending.value.result.Some?)
  }

  predicate CoveredRun(s: State, i: nat)
    requires i < |s.runs|
  {
    (s.runs[i].status.Queued? ==> i in s.tasks || AnyInFlight(s.runs))
    && (Ready(s, s.runs[i]) ==> i in s.tasks)
  }

  /** Every queued run has a task or sits behind an in-flight run; every ready run has a task. */
  predicate Covered(s: State) { forall i :: 0 <= i < |s.runs| ==> CoveredRun(s, i) }

  /** Covered, counting the run in flight as enqueued while the others wait for it. */
  lemma EnqueueCovered(s: State, i: nat)
    requires Covered(s)
    ensures Covered(Enqueue(s, i))
  {
    forall j | 0 <= j < |s.runs| ensures CoveredRun(Enqueue(s, i), j) {
      assert CoveredRun(s, j);
    }
  }

  /** Replace one row by another that is in flight just as before and whose own task is outstanding. */
  lemma PutCovered(s: State, i: nat, q: Run)
    requires Covered(s) && i < |s.runs| && i in s.tasks && q.status == s.runs[i].status
    ensures Covered(Put(s, i, q))
  {
    var t := Put(s, i, q);
    assert AnyInFlight(s.runs) ==> AnyInFlight(t.runs) by {
      if AnyInFlight(s.runs) {
        var j :| 0 <= j < |s.runs| && InFlight(s.runs[j].status);
        assert InFlight(t.runs[j].status);
      }
    }
    forall j | 0 <= j < |t.runs| ensures CoveredRun(t, j) {
      assert CoveredRun(s, j);
    }
  }

  lemma AnswerCovered(s: State, i: nat, result: PageResult, now: int)
    requires Covered(s) && i < |s.runs| && s.runs[i].pending.Some? && s.runs[i].pending.value.ForPage?
    ensures Covered(Put(Enqueue(s, i), i, WithAnswer(s.runs[i], result, now)))
  {
    EnqueueCovered(s, i);
    PutCovered(Enqueue(s, i), i, WithAnswer(s.runs[i], result, now));
  }

  lemma {:induction false} SweepCovered(s: State, k: nat, now: int)
    requires Covered(s) && k <= |s.runs|
    ensures Covered(SweepFrom(s, k, now))
    decreases |s.runs| - k
  {
    hide Covered;
    if k < |s.runs| {
      if Stale(s.runs[k], now) {
        AnswerCovered(s, k, Readable("timed out", true), now);
        SweepCovered(Put(Enqueue(s, k), k, WithAnswer(s.runs[k], Readable("timed out", true), now)), k + 1, now);
      } else {
        SweepCovered(s, k + 1, now);
      }
    }
  }

  lemma {:induction false} ReapCovered(s: State, k: nat, now: int)
    requires Covered(s) && k <= |s.runs|
    ensures Covered(ReapFrom(s, k, now))
    decreases |s.runs| - k
  {
    hide Covered;
    if k < |s.runs| {
      EnqueueCovered(s, k);
      ReapCovered(if Stalled(s.runs[k], now) then Enqueue(s, k) else s, k + 1, now);
    }
  }

  lemma RuleCovered(cfg: Config, s: State, a: nat, v: Verdict, now: int)
    requires Safe(cfg, s) && Covered(s) && a < |s.approvals|
    ensures Covered(Rule(s, a, v, now))
  {
    var i := s.approvals[a].run;
    var t := Enqueue(Judge(s, a, v, now), i);
    assert RequestsOk(s);
    forall j | 0 <= j < |t.runs| ensures CoveredRun(t, j) {
      assert CoveredRun(s, j);
    }
    PutCovered(t, i, WithRuling(s.runs[i], a));
  }

  lemma {:induction false} ExpireCovered(cfg: Config, s: State, a: nat, now: int)
    requires Safe(cfg, s) && Covered(s) && a <= |s.approvals| && now <= s.clock
    ensures Covered(ExpireFrom(s, a, now))
    decreases |s.approvals| - a
  {
    hide Safe;
    hide Covered;
    if a < |s.approvals| {
      if Overdue(s.approvals[a], now) {
        RuleSafe(cfg, s, a, Expired, now);
        RuleCovered(cfg, s, a, Expired, now);
        ExpireCovered(cfg, Rule(s, a, Expired, now), a + 1, now);
      } else {
        ExpireCovered(cfg, s, a + 1, now);
      }
    }
  }

  /** Coverage looks only at rows, verdicts and tasks. */
  lemma ElsewhereCovered(s: State, t: State)
    requires Covered(s) && t.runs == s.runs && t.approvals == s.approvals && t.tasks == s.tasks
    ensures Covered(t)
  {
    forall j | 0 <= j < |t.runs| ensures CoveredRun(t, j) {
      assert CoveredRun(s, j);
    }
  }

  lemma MergeCovered(cfg: Config, s: State, now: int, rid: int, trigger: nat)
    requires Safe(cfg, s) && Covered(s)
    ensures Covered(Merge(s, now, rid, trigger))
  {
    hide RunOk;
    hide SupersedeFrom;
    hide Safe;
    SupersedeAll(s, 0, now);
    var t := Merge(s, now, rid, trigger);
    if AnyInFlight(s.runs) {
      var j :| 0 <= j < |s.runs| && InFlight(s.runs[j].status);
      assert InFlight(t.runs[j].status);
    }
    hide InFlight;
    forall j | 0 <= j < |t.runs| ensures CoveredRun(t, j) {
      if j < |s.runs| {
        assert CoveredRun(s, j);
        assert t.runs[j] == Supersede(s.runs[j], now);
      }
    }
  }

  lemma ReceiveCovered(cfg: Config, s: State, now: int, rid: int, live: bool)
    requires Safe(cfg, s) && Covered(s)
    ensures Covered(Receive(s, now, rid, live))
  {
    hide Safe;
    hide Covered;
    hide Merge;
    HearSafe(cfg, s, live);
    ElsewhereCovered(s, Threads.Hear(s, live));
    MergeCovered(cfg, Threads.Hear(s, live), now, rid, s.inbound);
  }

  /** A terminal run hands its turn to whoever is queued. */
  lemma FinishCovered(t: State, i: nat)
    requires i < |t.runs|
    requires forall j :: 0 <= j < |t.runs| && j != i ==> (Ready(t, t.runs[j]) ==> j in t.tasks)
    requires Terminal(t.runs[i].status)
    requires forall j, k :: 0 <= j < k < |t.runs| ==> !(t.runs[j].status.Queued? && t.runs[k].status.Queued?)
    ensures Covered(Chain(t, i))
  {
    var o := OldestQueued(t.runs, i, |t.runs|);
    var u := Chain(t, i);
    forall j | 0 <= j < |u.runs| ensures CoveredRun(u, j) {
    }
  }

  /** Nothing is in flight beside a run that may be executed, so nothing else is ready. */
  lemma OthersNotReady(cfg: Config, s: State, i: nat, j: nat)
    requires Safe(cfg, s) && i < |s.runs| && j < |s.runs| && i != j && Active(s.runs[i])
    requires s.runs[i].status.Queued? ==> !EarlierActive(s.runs, i)
    ensures !InFlight(s.runs[j].status)
  {
    FirstInLine(cfg, s, i);
  }

  lemma CommitCovered(cfg: Config, s: State, i: nat, env: Env, gate: Option<Effect>, a: Act)
    requires Safe(cfg, s) && Committable(cfg, s, i, env, gate, a)
    ensures Covered(Commit(s, i, a))
  {
    var t := Record(s, i, a);
    RecordSafe(cfg, s, i, env, gate, a);
    assert SingleFile(t);
    forall j | 0 <= j < |s.runs| && j != i ensures !InFlight(s.runs[j].status) {
      OthersNotReady(cfg, s, i, j);
    }
    StoppedPending(env, a);
    hide Safe;
    hide RunOk;
    hide EffectsOk;
    hide AllSettled;
    hide EarlierActive;
    if a.fate.Finished? {
      FinishCovered(t, i);
    } else {
      assert InFlight(t.runs[i].status);
      assert !Ready(t, t.runs[i]);
      forall j | 0 <= j < |t.runs| ensures CoveredRun(t, j) {
      }
    }
  }

  lemma CancelCovered(cfg: Config, s: State, i: nat, now: int)
    requires Safe(cfg, s) && Covered(s) && i < |s.runs| && s.runs[i].status.Queued?
    ensures Covered(Put(s.(tasks := s.tasks - multiset{i}), i, s.runs[i].(status := Canceled, updatedAt := now)))
  {
    var t := Put(s.(tasks := s.tasks - multiset{i}), i, s.runs[i].(status := Canceled, updatedAt := now));
    hide RunOk;
    forall j | 0 <= j < |t.runs| ensures CoveredRun(t, j) {
      assert CoveredRun(s, j);
      assert j != i ==> !s.runs[j].status.Queued?;
    }
  }

  /** Dropping the task of a run that neither waits in the queue alone nor is ready costs nothing. */
  lemma ConsumeCovered(cfg: Config, s: State, i: nat)
    requires Safe(cfg, s) && Covered(s) && i < |s.runs|
    requires !Ready(s, s.runs[i]) && (s.runs[i].status.Queued? ==> EarlierActive(s.runs, i))
    ensures Covered(s.(tasks := s.tasks - multiset{i}))
  {
    var t := s.(tasks := s.tasks - multiset{i});
    if s.runs[i].status.Queued? {
      var j :| 0 <= j < |s.runs| && j != i && Active(s.runs[j]) && KeyLess(s.runs[j], s.runs[i]);
      assert InFlight(t.runs[j].status);
    }
    forall j | 0 <= j < |t.runs| ensures CoveredRun(t, j) {
      assert CoveredRun(s, j);
    }
  }

  lemma DeliverCovered(cfg: Config, s: State, now: int, i: nat, askFirst: bool, d: Delivery)
    requires Safe(cfg, s) && Covered(s) && i < |s.runs| && s.clock <= now
    ensures Covered(Threads.Deliver(cfg, s, now, i, askFirst, d))
  {
    hide Safe;
    hide Covered;
    hide Commit;
    hide RollBack;
    hide EarlierActive;
    hide Activate;
    hide CrashedAct;
    hide VerdictFor;
    hide Committable;
    var r := s.runs[i];
    var t := s.(tasks := s.tasks - multiset{i});
    TasksDoNotMatter(cfg, s, t);
    if r.status.Queued? && EarlierActive(s.runs, i) {
      ConsumeCovered(cfg, s, i);
    } else if r.status.Queued? && !s.desk.AiQueue? {
      CancelCovered(cfg, s, i, now);
    } else if ClaimRun(r, now).Skip? {
      ConsumeCovered(cfg, s, i);
    } else if ClaimRun(r, now).Crashed? {
      var env := EnvOf(cfg, s, i, now, askFirst);
      CrashCommittable(cfg, s, i, now, askFirst);
      TasksKeepCommittable(cfg, s, t, i, env, None, CrashedAct(env, r, s.desk, s.link));
      CommitCovered(cfg, t, i, env, None, CrashedAct(env, r, s.desk, s.link));
    } else {
      ClaimedCovered(cfg, s, t, now, i, askFirst, d);
    }
  }

  lemma ClaimedCovered(cfg: Config, s: State, t: State, now: int, i: nat, askFirst: bool, d: Delivery)
    requires Safe(cfg, s) && Covered(s) && i < |s.runs| && s.clock <= now && ClaimRun(s.runs[i], now).Claimed?
    requires s.runs[i].status.Queued? ==> !EarlierActive(s.runs, i) && s.desk.AiQueue?
    requires t == s.(tasks := t.tasks)
    ensures var env := EnvOf(cfg, s, i, now, askFirst);
            var c := ClaimRun(s.runs[i], now).run;
            var verdict := VerdictFor(s, s.runs[i]);
            var b := Activate(env, c, verdict, s.desk, s.link, d);
            b.Began? ==> if b.act.fate.Aborted? then Covered(RollBack(s, c, verdict, b.act)) else Covered(Commit(t, i, b.act))
  {
    hide Safe;
    hide Covered;
    hide Commit;
    hide EarlierActive;
    hide Activate;
    hide VerdictFor;
    hide Committable;
    hide EffectsOk;
    hide GateFits;
    var env := EnvOf(cfg, s, i, now, askFirst);
    var c := ClaimRun(s.runs[i], now).run;
    var verdict := VerdictFor(s, s.runs[i]);
    var b := Activate(env, c, verdict, s.desk, s.link, d);
    if b.Began? {
      ActivationCommittable(cfg, s, i, now, askFirst, d);
      if b.act.fate.Aborted? {
        ElsewhereCovered(s, RollBack(s, c, verdict, b.act));
      } else {
        TasksDoNotMatter(cfg, s, t);
        TasksKeepCommittable(cfg, s, t, i, env, GateOf(env, c, verdict), b.act);
        CommitCovered(cfg, t, i, env, GateOf(env, c, verdict), b.act);
      }
    }
  }

  lemma ClosedCovered(cfg: Config, s: State, t: State, i: nat, now: int)
    requires Safe(cfg, s) && ClosesGuide(s, t, i, now)
    ensures Covered(Chain(t, i))
  {
    ClosedSafe(cfg, s, t, i, now);
    assert SingleFile(t);
    forall j | 0 <= j < |s.runs| && j != i ensures !InFlight(s.runs[j].status) {
      OthersNotReady(cfg, s, i, j);
    }
    hide Safe;
    FinishCovered(t, i);
  }

  lemma SettleGuideCovered(cfg: Config, s: State, i: nat, tour: string, event: TourEvent, now: int)
    requires Safe(cfg, s) && Covered(s)
    ensures Covered(SettleGuide(s, i, tour, event, now))
  {
    hide Safe;
    hide Covered;
    if i < |s.runs| && AwaitsGuide(s.runs[i], tour) {
      var r := s.runs[i];
      var op := r.pending.value.opId;
      if event.TourStarted? {
        var u := Put(Enqueue(s, i), i, WithAnswer(r, Readable("playing", false), now));
        AnswerCovered(s, i, Readable("playing", false), now);
        ElsewhereCovered(u, SettleGuide(s, i, tour, event, now));
      } else if !event.StepEvent? {
        var u := s.(runs := s.runs[i := SilentlyClosed(r, now)], hushed := s.hushed + {i}, settled := s.settled + [op]);
        ClosedCovered(cfg, s, u, i, now);
        assert SettleGuide(s, i, tour, event, now) == Chain(u, i);
      }
    }
  }

  lemma TrackCovered(cfg: Config, s: State, tour: string, event: TourEvent, now: int)
    requires Safe(cfg, s) && Covered(s)
    ensures Covered(Track(s, tour, event, now))
  {
    hide Safe;
    hide Covered;
    if !event.StepEvent? && s.link.Some? && s.link.value.tour == tour {
      SettleGuideCovered(cfg, s, s.link.value.run, tour, event, now);
      ElsewhereCovered(SettleGuide(s, s.link.value.run, tour, event, now), Track(s, tour, event, now));
    }
  }

  lemma ApplyCovered(cfg: Config, s: State, e: Event)
    requires Safe(cfg, s) && Covered(s) && Enabled(s, e) && e.now == s.clock && !e.Drop?
    ensures Covered(Apply(cfg, s, e))
  {
    hide Safe;
    hide Covered;
    hide Receive;
    hide Threads.Deliver;
    hide ExpireFrom;
    hide SweepFrom;
    hide ReapFrom;
    hide Track;
    hide Rule;
    match e
    case Inbound(now, rid, live) => ReceiveCovered(cfg, s, now, rid, live);
    case Execute(now, i, askFirst, d) => DeliverCovered(cfg, s, now, i, askFirst, d);
    case Submit(now, i, opId, result) =>
      if i < |s.runs| && AwaitsOp(s.runs[i], opId) { AnswerCovered(s, i, result, now); }
    case Decide(now, a, approved) =>
      if a < |s.approvals| && s.approvals[a].verdict.Undecided? {
        RuleCovered(cfg, s, a, if s.approvals[a].expiresAt <= now then Expired else if approved then Approved else Rejected, now);
      }
    case ExpireOverdue(now) => ExpireCovered(cfg, s, 0, now);
    case Sweep(now) => SweepCovered(s, 0, now);
    case Reap(now) => ReapCovered(s, 0, now);
    case Telemetry(now, tour, event) => TrackCovered(cfg, s, tour, event, now);
    case SetDesk(_, d) => ElsewhereCovered(s, MoveDesk(s, d));
    case Redeliver(_, i) => EnqueueCovered(s, i);
  }

  lemma NextCovered(cfg: Config, s: State, e: Event)
    requires Safe(cfg, s) && Covered(s) && !e.Drop?
    ensures Covered(Next(cfg, s, e))
  {
    hide Safe;
    hide Covered;
    hide Apply;
    if Enabled(s, e) {
      TasksDoNotMatter(cfg, s, s.(clock := e.now));
      ElsewhereCovered(s, s.(clock := e.now));
      ApplyCovered(cfg, s.(clock := e.now), e);
    }
  }

  predicate Lossless(history: seq<Event>) { forall k :: 0 <= k < |history| ==> !history[k].Drop? }

  /** The coverage theorem: over a queue that loses no task, nothing that could run is stranded. */
  lemma {:induction false} NothingStranded(cfg: Config, history: seq<Event>)
    requires Lossless(history)
    ensures Covered(After(cfg, history))
    decreases |history|
  {
    hide Safe;
    hide Covered;
    hide Next;
    if history == [] {
      EmptyCovered();
    } else {
      NothingStranded(cfg, history[..|history| - 1]);
      EveryHistorySafe(cfg, history[..|history| - 1]);
      NextCovered(cfg, After(cfg, history[..|history| - 1]), history[|history| - 1]);
    }
  }

  lemma EmptyCovered()
    ensures Covered(Empty)
  {
  }

  /** Lost queue tasks are recovered too: two quiet minutes after its last change, one pass of the
      reaper re-enqueues any queued run. */
  lemma {:induction false} ReaperRecovers(s: State, k: nat, now: int, i: nat)
    requires k <= i < |s.runs| && s.runs[i].status.Queued? && s.runs[i].updatedAt + QUEUED_STALL_SECONDS <= now
    ensures i in ReapFrom(s, k, now).tasks
    decreases i - k
  {
    var t := if Stalled(s.runs[k], now) then Enqueue(s, k) else s;
    if k == i {
      ReapKeepsTasks(t, k + 1, now, i);
    } else {
      ReaperRecovers(t, k + 1, now, i);
    }
  }

  lemma {:induction false} ReapKeepsTasks(s: State, k: nat, now: int, i: nat)
    requires k <= |s.runs| && i in s.tasks
    ensures i in ReapFrom(s, k, now).tasks
    decreases |s.runs| - k
  {
    if k < |s.runs| {
      ReapKeepsTasks(if Stalled(s.runs[k], now) then Enqueue(s, k) else s, k + 1, now, i);
    }
  }
}
