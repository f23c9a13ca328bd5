/** What time can only add to: terminal runs are frozen, verdicts are final, replies and effects are
    append-only. Histories compose, so this holds between any two points of any history. */
module ThreadHistory {
  import opened Wrappers
  import opened AgentRuns
  import opened AgentRunTheorems
  import opened Threads
  import opened ThreadSafety

  predicate RowForward(r: Run, q: Run) {
    SameRow(r, q) && (Terminal(r.status) ==> q == r) && (q.status.Running? ==> r.status.Running?)
  }

  predicate RequestForward(a: Approval, b: Approval) {
    a.run == b.run && a.name == b.name && a.input == b.input && a.call == b.call && a.expiresAt == b.expiresAt
    && (!a.verdict.Undecided? ==> b == a)
  }

  predicate Forward(s: State, t: State) {
    |s.runs| <= |t.runs| && |s.approvals| <= |t.approvals|
    && (forall i :: 0 <= i < |s.runs| ==> RowForward(s.runs[i], t.runs[i]))
    && (forall i :: |s.runs| <= i < |t.runs| ==> !t.runs[i].status.Running?)
    && (forall a :: 0 <= a < |s.approvals| ==> RequestForward(s.approvals[a], t.approvals[a]))
    && s.posts <= t.posts && s.effects <= t.effects && s.settled <= t.settled && s.lines <= t.lines
  }

  lemma ForwardRefl(s: State)
    ensures Forward(s, s)
  {
  }

  lemma ForwardTrans(s: State, t: State, u: State)
    requires Forward(s, t) && Forward(t, u)
    ensures Forward(s, u)
  {
    forall i | 0 <= i < |s.runs| ensures RowForward(s.runs[i], u.runs[i]) {
      assert RowForward(s.runs[i], t.runs[i]) && RowForward(t.runs[i], u.runs[i]);
    }
    forall i | |s.runs| <= i < |u.runs| ensures !u.runs[i].status.Running? {
      if i < |t.runs| { assert RowForward(t.runs[i], u.runs[i]); }
    }
    forall a | 0 <= a < |s.approvals| ensures RequestForward(s.approvals[a], u.approvals[a]) {
      assert RequestForward(s.approvals[a], t.approvals[a]) && RequestForward(t.approvals[a], u.approvals[a]);
    }
  }

  /** Rows, requests and logs only; desk, tasks and counters are free. */
  lemma ForwardElsewhere(s: State, t: State)
    requires t.runs == s.runs && t.approvals == s.approvals && s.posts <= t.posts && s.effects <= t.effects
    requires s.settled <= t.settled && s.lines <= t.lines
    ensures Forward(s, t)
  {
  }

  lemma ForwardPut(s: State, i: nat, q: Run)
    requires i < |s.runs| && RowForward(s.runs[i], q)
    ensures Forward(s, Put(s, i, q))
  {
  }

  lemma AnswerForward(s: State, i: nat, result: PageResult, now: int)
    requires i < |s.runs| && s.runs[i].status.AwaitingClient?
    requires s.runs[i].pending.Some? && s.runs[i].pending.value.ForPage?
    ensures Forward(s, Put(Enqueue(s, i), i, WithAnswer(s.runs[i], result, now)))
  {
  }

  lemma {:induction false} SweepForward(s: State, k: nat, now: int)
    requires k <= |s.runs|
    ensures Forward(s, SweepFrom(s, k, now))
    decreases |s.runs| - k
  {
    hide Forward;
    ForwardRefl(s);
    if k < |s.runs| {
      if Stale(s.runs[k], now) {
        var t := Put(Enqueue(s, k), k, WithAnswer(s.runs[k], Readable("timed out", true), now));
        AnswerForward(s, k, Readable("timed out", true), now);
        SweepForward(t, k + 1, now);
        ForwardTrans(s, t, SweepFrom(t, k + 1, now));
      } else {
        SweepForward(s, k + 1, now);
      }
    }
  }

  lemma {:induction false} ReapForward(s: State, k: nat, now: int)
    requires k <= |s.runs|
    ensures Forward(s, ReapFrom(s, k, now))
    decreases |s.runs| - k
  {
    hide Forward;
    ForwardRefl(s);
    if k < |s.runs| {
      var t := if Stalled(s.runs[k], now) then Enqueue(s, k) else s;
      ForwardElsewhere(s, t);
      ReapForward(t, k + 1, now);
      ForwardTrans(s, t, ReapFrom(t, k + 1, now));
    }
  }

  /** A ruling wakes only a run that is waiting for it. */
  lemma RuleForward(cfg: Config, s: State, a: nat, v: Verdict, now: int)
    requires Safe(cfg, s) && a < |s.approvals| && s.approvals[a].verdict.Undecided?
    ensures Forward(s, Rule(s, a, v, now))
  {
    var i := s.approvals[a].run;
    assert PendsOn(s.runs[i], a);
    assert RunOk(cfg, s.runs[i]);
    hide WithinBudget;
    hide SnapshotOwes;
    assert RowForward(s.runs[i], WithRuling(s.runs[i], a));
  }

  lemma {:induction false} ExpireForward(cfg: Config, s: State, a: nat, now: int)
    requires Safe(cfg, s) && a <= |s.approvals| && now <= s.clock
    ensures Forward(s, ExpireFrom(s, a, now))
    decreases |s.approvals| - a
  {
    hide Safe;
    hide Forward;
    ForwardRefl(s);
    if a < |s.approvals| {
      if Overdue(s.approvals[a], now) {
        var t := Rule(s, a, Expired, now);
        RuleSafe(cfg, s, a, Expired, now);
        RuleForward(cfg, s, a, Expired, now);
        ExpireForward(cfg, t, a + 1, now);
        ForwardTrans(s, t, ExpireFrom(t, a + 1, now));
      } else {
        ExpireForward(cfg, s, a + 1, now);
      }
    }
  }

  lemma ReceiveForward(s: State, now: int, rid: int, live: bool)
    ensures Forward(s, Receive(s, now, rid, live))
  {
    SupersedeAll(Threads.Hear(s, live), 0, now);
  }

  lemma RecordForward(s: State, i: nat, a: Act)
    requires i < |s.runs| && RowForward(s.runs[i], a.run)
    ensures Forward(s, Record(s, i, a))
  {
  }

  lemma CommitForward(cfg: Config, s: State, i: nat, env: Env, gate: Option<Effect>, a: Act)
    requires Committable(cfg, s, i, env, gate, a)
    ensures Forward(s, Commit(s, i, a))
  {
    hide EffectsOk;
    hide AllSettled;
    hide EarlierActive;
    hide WithinBudget;
    hide SnapshotOwes;
    hide GateFits;
    hide RaisedOk;
    hide LinkOk;
    hide Record;
    hide Forward;
    RecordForward(s, i, a);
    var t := Record(s, i, a);
    if a.fate.Finished? {
      ForwardElsewhere(t, Chain(t, i));
      ForwardTrans(s, t, Chain(t, i));
    }
  }

  lemma DeliverForward(cfg: Config, s: State, now: int, i: nat, askFirst: bool, d: Delivery)
    requires Safe(cfg, s) && i < |s.runs| && s.clock <= now
    ensures Forward(s, Threads.Deliver(cfg, s, now, i, askFirst, d))
  {
    hide Safe;
    hide Commit;
    hide EarlierActive;
    hide Activate;
    hide CrashedAct;
    hide VerdictFor;
    hide Committable;
    hide EffectsOk;
    hide GateFits;
    hide Forward;
    var r := s.runs[i];
    var t := s.(tasks := s.tasks - multiset{i});
    var env := EnvOf(cfg, s, i, now, askFirst);
    ForwardElsewhere(s, t);
    ForwardRefl(s);
    if r.status.Queued? && EarlierActive(s.runs, i) {
    } else if r.status.Queued? && !s.desk.AiQueue? {
      ForwardPut(t, i, r.(status := Canceled, updatedAt := now));
      ForwardTrans(s, t, Put(t, i, r.(status := Canceled, updatedAt := now)));
    } else if ClaimRun(r, now).Crashed? {
      var a := CrashedAct(env, r, s.desk, s.link);
      CrashCommittable(cfg, s, i, now, askFirst);
      TasksKeepCommittable(cfg, s, t, i, env, None, a);
      CommitForward(cfg, t, i, env, None, a);
      ForwardTrans(s, t, Commit(t, i, a));
    } else if ClaimRun(r, now).Claimed? {
      ClaimedForward(cfg, s, t, now, i, askFirst, d);
    }
  }

  lemma ClaimedForward(cfg: Config, s: State, t: State, now: int, i: nat, askFirst: bool, d: Delivery)
    requires Safe(cfg, s) && i < |s.runs| && s.clock <= now && ClaimRun(s.runs[i], now).Claimed?
    requires s.runs[i].status.Queued? ==> !EarlierActive(s.runs, i) && s.desk.AiQueue?
    requires t == s.(tasks := t.tasks)
    ensures var env := EnvOf(cfg, s, i, now, askFirst);
            var c := ClaimRun(s.runs[i], now).run;
            var verdict := VerdictFor(s, s.runs[i]);
            var b := Activate(env, c, verdict, s.desk, s.link, d);
            b.Began? ==> if b.act.fate.Aborted? then Forward(s, RollBack(s, c, verdict, b.act)) else Forward(s, Commit(t, i, b.act))
  {
    hide Safe;
    hide Commit;
    hide EarlierActive;
    hide Activate;
    hide VerdictFor;
    hide Committable;
    hide EffectsOk;
    hide GateFits;
    hide Forward;
    var env := EnvOf(cfg, s, i, now, askFirst);
    var c := ClaimRun(s.runs[i], now).run;
    var verdict := VerdictFor(s, s.runs[i]);
    var b := Activate(env, c, verdict, s.desk, s.link, d);
    if b.Began? {
      ActivationCommittable(cfg, s, i, now, askFirst, d);
      if b.act.fate.Aborted? {
        ForwardElsewhere(s, RollBack(s, c, verdict, b.act));
      } else {
        TasksKeepCommittable(cfg, s, t, i, env, GateOf(env, c, verdict), b.act);
        CommitForward(cfg, t, i, env, GateOf(env, c, verdict), b.act);
        ForwardElsewhere(s, t);
        ForwardTrans(s, t, Commit(t, i, b.act));
      }
    }
  }

  lemma SettleGuideForward(s: State, i: nat, tour: string, event: TourEvent, now: int)
    ensures Forward(s, SettleGuide(s, i, tour, event, now))
  {
    hide ToolCallsIn;
    hide TourOf;
    hide OldestQueued;
    hide RequestForward;
    RequestsForwardRefl(s);
  }

  lemma RequestsForwardRefl(s: State)
    ensures forall a :: 0 <= a < |s.approvals| ==> RequestForward(s.approvals[a], s.approvals[a])
  {
  }

  lemma TrackForward(s: State, tour: string, event: TourEvent, now: int)
    ensures Forward(s, Track(s, tour, event, now))
  {
    hide Forward;
    hide SettleGuide;
    ForwardRefl(s);
    if !event.StepEvent? && s.link.Some? && s.link.value.tour == tour {
      var t := SettleGuide(s, s.link.value.run, tour, event, now);
      SettleGuideForward(s, s.link.value.run, tour, event, now);
      ForwardElsewhere(t, Track(s, tour, event, now));
      ForwardTrans(s, t, Track(s, tour, event, now));
    }
  }

  lemma ApplyForward(cfg: Config, s: State, e: Event)
    requires Safe(cfg, s) && Enabled(s, e) && e.now == s.clock
    ensures Forward(s, Apply(cfg, s, e))
  {
    hide Safe;
    hide Forward;
    hide Receive;
    hide Threads.Deliver;
    hide ExpireFrom;
    hide SweepFrom;
    hide ReapFrom;
    hide Track;
    hide Rule;
    ForwardRefl(s);
    match e
    case Inbound(now, rid, live) => ReceiveForward(s, now, rid, live);
    case Execute(now, i, askFirst, d) => DeliverForward(cfg, s, now, i, askFirst, d);
    case Submit(now, i, opId, result) =>
      if i < |s.runs| && AwaitsOp(s.runs[i], opId) { AnswerForward(s, i, result, now); }
    case Decide(now, a, approved) =>
      if a < |s.approvals| && s.approvals[a].verdict.Undecided? {
        RuleForward(cfg, s, a, if s.approvals[a].expiresAt <= now then Expired else if approved then Approved else Rejected, now);
      }
    case ExpireOverdue(now) => ExpireForward(cfg, s, 0, now);
    case Sweep(now) => SweepForward(s, 0, now);
    case Reap(now) => ReapForward(s, 0, now);
    case Telemetry(now, tour, event) => TrackForward(s, tour, event, now);
    case SetDesk(_, d) => ForwardElsewhere(s, MoveDesk(s, d));
    case Redeliver(_, i) => ForwardElsewhere(s, Enqueue(s, i));
    case Drop(_, i) => ForwardElsewhere(s, s.(tasks := s.tasks - multiset{i}));
  }

  lemma NextForward(cfg: Config, s: State, e: Event)
    requires Safe(cfg, s)
    ensures Forward(s, Next(cfg, s, e))
  {
    hide Safe;
    hide Forward;
    hide Apply;
    ForwardRefl(s);
    if Enabled(s, e) {
      var t := s.(clock := e.now);
      TasksDoNotMatter(cfg, s, t);
      ForwardElsewhere(s, t);
      ApplyForward(cfg, t, e);
      ForwardTrans(s, t, Apply(cfg, t, e));
    }
  }

  /** Between any two points of any history: no terminal run is touched again, no verdict is revised,
      no row, request, reply, effect or transcript line is ever lost or reordered. */
  lemma {:induction false} HistoryOnlyAdds(cfg: Config, history: seq<Event>, more: seq<Event>)
    ensures Forward(After(cfg, history), After(cfg, history + more))
    decreases |more|
  {
    hide Safe;
    hide Forward;
    hide Next;
    if more == [] {
      assert history + more == history;
      ForwardRefl(After(cfg, history));
    } else {
      var front, e := more[..|more| - 1], more[|more| - 1];
      HistoryOnlyAdds(cfg, history, front);
      assert (history + more)[..|history + more| - 1] == history + front;
      EveryHistorySafe(cfg, history + front);
      NextForward(cfg, After(cfg, history + front), e);
      ForwardTrans(After(cfg, history), After(cfg, history + front), After(cfg, history + more));
    }
  }

  /** One activation is one transaction, so `running` is never a committed status: the lease branch of
      the reaper and the crash path of the claim only guard against rows nobody commits. */
  lemma RunningIsNeverCommitted(cfg: Config, history: seq<Event>, i: nat)
    requires i < |After(cfg, history).runs|
    ensures !After(cfg, history).runs[i].status.Running?
  {
    HistoryOnlyAdds(cfg, [], history);
    assert [] + history == history;
    assert After(cfg, []) == Empty;
  }

  // ------------------------------------------------------------------ the newest message that was taken up

  /** This event is an inbound message that finds the thread in the queue of a live agent, or resolved, which puts it back there. */
  predicate TakesUp(s: State, e: Event) { e.Inbound? && Enabled(s, e) && e.live && (s.desk.AiQueue? || s.desk.Resolved?) }

  /** The number of the newest inbound message the agent took up. */
  function LastTakenUp(cfg: Config, history: seq<Event>): Option<nat>
    decreases |history|
  {
    if history == [] then None
    else
      var n := |history| - 1;
      var s := Threads.After(cfg, history[..n]);
      if TakesUp(s, history[n]) then Some(s.inbound) else LastTakenUp(cfg, history[..n])
  }

  /** The desk, and how long it has been the AI queue's, are as they were. */
  predicate SameDesk(s: State, t: State) { t.desk == s.desk && t.stayed == s.stayed }

  lemma {:induction false} SweepCounts(s: State, k: nat, now: int)
    requires k <= |s.runs|
    ensures |SweepFrom(s, k, now).runs| == |s.runs| && SameDesk(s, SweepFrom(s, k, now))
    decreases |s.runs| - k
  {
    if k < |s.runs| {
      SweepCounts(if Stale(s.runs[k], now)
                  then Put(Enqueue(s, k), k, WithAnswer(s.runs[k], Readable("timed out", true), now)) else s, k + 1, now);
    }
  }

  lemma {:induction false} ReapCounts(s: State, k: nat, now: int)
    requires k <= |s.runs|
    ensures |ReapFrom(s, k, now).runs| == |s.runs| && SameDesk(s, ReapFrom(s, k, now))
    decreases |s.runs| - k
  {
    if k < |s.runs| { ReapCounts(if Stalled(s.runs[k], now) then Enqueue(s, k) else s, k + 1, now); }
  }

  lemma {:induction false} ExpireCounts(s: State, a: nat, now: int)
    requires a <= |s.approvals|
    ensures |ExpireFrom(s, a, now).runs| == |s.runs| && SameDesk(s, ExpireFrom(s, a, now))
    decreases |s.approvals| - a
  {
    if a < |s.approvals| { ExpireCounts(if Overdue(s.approvals[a], now) then Rule(s, a, Expired, now) else s, a + 1, now); }
  }

  lemma DeliveryCounts(cfg: Config, s: State, now: int, i: nat, askFirst: bool, d: Delivery)
    requires i < |s.runs|
    ensures |Threads.Deliver(cfg, s, now, i, askFirst, d).runs| == |s.runs|
  {
    hide Activate;
    hide CrashedAct;
    hide EarlierActive;
    hide OldestQueued;
    hide VerdictFor;
    hide ClaimRun;
  }

  lemma TrackCounts(s: State, tour: string, event: TourEvent, now: int)
    ensures |Track(s, tour, event, now).runs| == |s.runs|
  {
    hide OldestQueued;
    hide TourOf;
  }

  lemma ReceiveCounts(s: State, now: int, rid: int, live: bool)
    ensures var t := Receive(s, now, rid, live);
            if live && Reopen(s.desk, live).AiQueue?
            then |t.runs| == |s.runs| + 1 && t.runs[|s.runs|].trigger == s.inbound
            else t.runs == s.runs
  {
    hide SupersedeFrom;
  }

  /** Only a message that is taken up adds a run, and the run is its own. */
  lemma NextCounts(cfg: Config, s: State, e: Event)
    ensures var t := Next(cfg, s, e);
            if TakesUp(s, e) then |t.runs| == |s.runs| + 1 && t.runs[|s.runs|].trigger == s.inbound
            else |t.runs| == |s.runs|
  {
    hide Threads.Deliver;
    hide Track;
    hide SweepFrom;
    hide ReapFrom;
    hide ExpireFrom;
    hide Receive;
    if Enabled(s, e) {
      var t := s.(clock := e.now);
      match e
      case Inbound(now, rid, live) => ReceiveCounts(t, now, rid, live);
      case Execute(now, i, askFirst, d) => DeliveryCounts(cfg, t, now, i, askFirst, d);
      case ExpireOverdue(now) => ExpireCounts(t, 0, now);
      case Sweep(now) => SweepCounts(t, 0, now);
      case Reap(now) => ReapCounts(t, 0, now);
      case Telemetry(now, tour, event) => TrackCounts(t, tour, event, now);
      case _ =>
    }
  }

  /** The newest run is always the one of the newest message taken up. */
  lemma {:induction false} NewestRunIsNewestMessage(cfg: Config, history: seq<Event>)
    ensures var runs := Threads.After(cfg, history).runs;
            LastTakenUp(cfg, history) == if runs == [] then None else Some(runs[|runs| - 1].trigger)
    decreases |history|
  {
    hide Next;
    hide TakesUp;
    hide Safe;
    if history != [] {
      var n := |history| - 1;
      var s := Threads.After(cfg, history[..n]);
      NewestRunIsNewestMessage(cfg, history[..n]);
      EveryHistorySafe(cfg, history[..n]);
      NextForward(cfg, s, history[n]);
      NextCounts(cfg, s, history[n]);
      if s.runs != [] { assert RowForward(s.runs[|s.runs| - 1], Next(cfg, s, history[n]).runs[|s.runs| - 1]); }
    }
    hide RequestForward;
  }

  // ------------------------------------------------------------------ since the newest message was taken up

  lemma DeliveryStays(cfg: Config, s: State, now: int, i: nat, askFirst: bool, d: Delivery)
    requires i < |s.runs| && (s.stayed ==> s.desk.AiQueue?)
    ensures var t := Threads.Deliver(cfg, s, now, i, askFirst, d); t.stayed == (s.stayed && t.desk.AiQueue?)
  {
    hide Activate;
    hide CrashedAct;
    hide EarlierActive;
    hide OldestQueued;
    hide VerdictFor;
    hide ClaimRun;
  }

  lemma ReceiveStays(s: State, now: int, rid: int, live: bool)
    ensures var t := Receive(s, now, rid, live);
            t.stayed == ((live && (s.desk.AiQueue? || s.desk.Resolved?)) || (s.stayed && t.desk.AiQueue?))
  {
    SupersedeAll(Threads.Hear(s, live), 0, now);
    hide SupersedeFrom;
  }

  lemma TrackStays(s: State, tour: string, event: TourEvent, now: int)
    ensures SameDesk(s, Track(s, tour, event, now))
  {
    hide OldestQueued;
    hide TourOf;
  }

  lemma NextStays(cfg: Config, s: State, e: Event)
    requires s.stayed ==> s.desk.AiQueue?
    ensures var t := Next(cfg, s, e); t.stayed == (TakesUp(s, e) || (s.stayed && t.desk.AiQueue?))
  {
    hide Threads.Deliver;
    hide Track;
    hide SweepFrom;
    hide ReapFrom;
    hide ExpireFrom;
    hide Receive;
    if Enabled(s, e) {
      var t := s.(clock := e.now);
      match e
      case Inbound(now, rid, live) => ReceiveStays(t, now, rid, live);
      case Execute(now, i, askFirst, d) => DeliveryStays(cfg, t, now, i, askFirst, d);
      case ExpireOverdue(now) => ExpireCounts(t, 0, now);
      case Sweep(now) => SweepCounts(t, 0, now);
      case Reap(now) => ReapCounts(t, 0, now);
      case Telemetry(now, tour, event) => TrackStays(t, tour, event, now);
      case _ =>
    }
  }

  /** Message number k of the history was taken up, and the desk has been the AI queue's ever since. */
  predicate StayedSince(cfg: Config, history: seq<Event>, k: nat)
    requires k < |history|
  {
    TakesUp(Threads.After(cfg, history[..k]), history[k])
    && forall j :: k < j <= |history| ==> Threads.After(cfg, history[..j]).desk.AiQueue?
  }

  /** The thread counts as having stayed exactly when some message was taken up and no event since has moved the desk. */
  lemma {:induction false} StayedExactly(cfg: Config, history: seq<Event>)
    ensures Threads.After(cfg, history).stayed <==> exists k :: 0 <= k < |history| && StayedSince(cfg, history, k)
    decreases |history|
  {
    hide Next;
    hide TakesUp;
    hide Safe;
    if history != [] {
      var n := |history| - 1;
      var before := history[..n];
      StayedExactly(cfg, before);
      EveryHistorySafe(cfg, before);
      EveryHistorySafe(cfg, history);
      SafeStays(cfg, Threads.After(cfg, before));
      SafeStays(cfg, Threads.After(cfg, history));
      NextStays(cfg, Threads.After(cfg, before), history[n]);
      assert history[..|history|] == history;
      assert forall j :: 0 <= j <= n ==> before[..j] == history[..j];
      hide Threads.After;
      if Threads.After(cfg, history).stayed {
        if TakesUp(Threads.After(cfg, before), history[n]) {
          assert StayedSince(cfg, history, n);
        } else {
          var k :| 0 <= k < n && StayedSince(cfg, before, k);
          assert before[k] == history[k];
          assert StayedSince(cfg, history, k);
        }
      }
      if k :| 0 <= k < |history| && StayedSince(cfg, history, k) {
        if k < n {
          assert before[k] == history[k];
          assert StayedSince(cfg, before, k);
        }
      }
    }
  }

  lemma SafeStays(cfg: Config, s: State)
    requires Safe(cfg, s)
    ensures s.stayed ==> s.desk.AiQueue?
  {
    assert StayOk(s);
    hide Safe;
  }
}
