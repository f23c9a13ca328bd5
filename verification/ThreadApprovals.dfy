/** How often an approved call runs, told from the deliveries of its run alone. */
module ThreadApprovals {
  import opened Wrappers
  import opened Transcript
  import opened AgentRuns
  import opened AgentRunTheorems
  import opened Threads
  import opened ThreadSafety
  import opened ThreadHistory
  import opened ThreadTheorems

  /** This event delivers the run that is parked on request `a`, with the approval in. */
  predicate Armed(s: State, e: Event, a: nat) { e.Execute? && Enabled(s, e) && ParkedOnApproved(s, e.i, a) }

  // ------------------------------------------------------------------ one event

  lemma GateNamesParked(cfg: Config, s: State, i: nat, env: Env, c: Run, a: nat)
    requires Safe(cfg, s) && i < |s.runs| && c.pending == s.runs[i].pending && !ParkedOnApproved(s, i, a)
    ensures var gate := GateOf(env, c, VerdictFor(s, s.runs[i])); gate.Some? ==> gate.value.approval != Some(a)
    ensures Approves(c, VerdictFor(s, s.runs[i])) ==> c.pending.value.approval != a
  {
    assert RunOk(cfg, s.runs[i]);
    hide Safe;
    hide WithinBudget;
    hide Owes;
    hide DeserializeMessages;
    hide ToolCallsIn;
  }

  lemma CommitKeepsLost(s: State, i: nat, a: Act)
    requires i < |s.runs|
    ensures Commit(s, i, a).effects == s.effects + a.effects && Commit(s, i, a).lost == s.lost
  {
    hide OldestQueued;
  }

  lemma CrashRunsNothing(env: Env, r: Run, desk: Desk, link: Option<Link>)
    ensures CrashedAct(env, r, desk, link).effects == []
  {
  }

  /** An activation of a run that is not parked on an approved `a` executes `a` nowhere. */
  lemma UnarmedActivation(cfg: Config, s: State, i: nat, now: int, askFirst: bool, d: Delivery, a: nat)
    requires Safe(cfg, s) && i < |s.runs| && s.clock <= now && !ParkedOnApproved(s, i, a) && ClaimRun(s.runs[i], now).Claimed?
    requires s.runs[i].status.Queued? ==> !EarlierActive(s.runs, i) && s.desk.AiQueue?
    ensures var env := EnvOf(cfg, s, i, now, askFirst);
            var c := ClaimRun(s.runs[i], now).run;
            var verdict := VerdictFor(s, s.runs[i]);
            var b := Activate(env, c, verdict, s.desk, s.link, d);
            b.Began? ==> Uses(b.act.effects, a) == 0 && (Approves(c, verdict) ==> c.pending.value.approval != a)
  {
    var env := EnvOf(cfg, s, i, now, askFirst);
    var c := ClaimRun(s.runs[i], now).run;
    var verdict := VerdictFor(s, s.runs[i]);
    var b := Activate(env, c, verdict, s.desk, s.link, d);
    ClaimKeepsPending(s.runs[i], now);
    hide Safe;
    hide Activate;
    hide Committable;
    hide EffectsOk;
    hide GateFits;
    hide ClaimRun;
    hide EarlierActive;
    hide VerdictFor;
    hide ParkedOnApproved;
    if b.Began? {
      ActivationCommittable(cfg, s, i, now, askFirst, d);
      GateNamesParked(cfg, s, i, env, c, a);
      GatedUses(env, GateOf(env, c, verdict), b.act.effects, a);
    }
  }

  /** What a claimed delivery comes to. */
  lemma ClaimedDelivery(cfg: Config, s: State, now: int, i: nat, askFirst: bool, d: Delivery)
    requires i < |s.runs| && ClaimRun(s.runs[i], now).Claimed?
    requires !(s.runs[i].status.Queued? && (EarlierActive(s.runs, i) || !s.desk.AiQueue?))
    ensures var c := ClaimRun(s.runs[i], now).run;
            var verdict := VerdictFor(s, s.runs[i]);
            var b := Activate(EnvOf(cfg, s, i, now, askFirst), c, verdict, s.desk, s.link, d);
            Threads.Deliver(cfg, s, now, i, askFirst, d) ==
            if b.NotReady? then s
            else if b.act.fate.Aborted? then RollBack(s, c, verdict, b.act)
            else Commit(s.(tasks := s.tasks - multiset{i}), i, b.act)
  {
    hide Activate;
    hide Commit;
    hide RollBack;
    hide EarlierActive;
    hide VerdictFor;
    hide ClaimRun;
  }

  lemma UnarmedClaim(cfg: Config, s: State, now: int, i: nat, askFirst: bool, d: Delivery, a: nat)
    requires Safe(cfg, s) && i < |s.runs| && s.clock <= now && !ParkedOnApproved(s, i, a) && ClaimRun(s.runs[i], now).Claimed?
    requires !(s.runs[i].status.Queued? && (EarlierActive(s.runs, i) || !s.desk.AiQueue?))
    ensures var t := Threads.Deliver(cfg, s, now, i, askFirst, d);
            Uses(t.effects, a) == Uses(s.effects, a) && Losses(t.lost, a) == Losses(s.lost, a)
  {
    hide Safe;
    hide Activate;
    hide Commit;
    hide EarlierActive;
    hide VerdictFor;
    hide ParkedOnApproved;
    hide Uses;
    hide Losses;
    hide Threads.Deliver;
    hide ClaimRun;
    var c := ClaimRun(s.runs[i], now).run;
    var b := Activate(EnvOf(cfg, s, i, now, askFirst), c, VerdictFor(s, s.runs[i]), s.desk, s.link, d);
    ClaimedDelivery(cfg, s, now, i, askFirst, d);
    UnarmedActivation(cfg, s, i, now, askFirst, d, a);
    if b.Began? {
      CommitKeepsLost(s.(tasks := s.tasks - multiset{i}), i, b.act);
      UsesAppend(s.effects, b.act.effects, a);
      if Approves(c, VerdictFor(s, s.runs[i])) { LossesSnoc(s.lost, c.pending.value.approval, a); }
      assert s.lost + [] == s.lost;
    }
  }

  lemma UnarmedDelivery(cfg: Config, s: State, now: int, i: nat, askFirst: bool, d: Delivery, a: nat)
    requires Safe(cfg, s) && i < |s.runs| && s.clock <= now && !ParkedOnApproved(s, i, a)
    ensures var t := Threads.Deliver(cfg, s, now, i, askFirst, d);
            Uses(t.effects, a) == Uses(s.effects, a) && Losses(t.lost, a) == Losses(s.lost, a)
  {
    var r := s.runs[i];
    var u := s.(tasks := s.tasks - multiset{i});
    hide Safe;
    hide Activate;
    hide Commit;
    hide EarlierActive;
    hide CrashedAct;
    hide VerdictFor;
    hide ParkedOnApproved;
    hide Uses;
    hide Losses;
    hide RollBack;
    if r.status.Queued? && (EarlierActive(s.runs, i) || !s.desk.AiQueue?) {
    } else if ClaimRun(r, now).Claimed? {
      UnarmedClaim(cfg, s, now, i, askFirst, d, a);
    } else if ClaimRun(r, now).Crashed? {
      var env := EnvOf(cfg, s, i, now, askFirst);
      CommitKeepsLost(u, i, CrashedAct(env, r, s.desk, s.link));
      CrashRunsNothing(env, r, s.desk, s.link);
      assert s.effects + [] == s.effects;
    }
  }

  /** An armed delivery that is rolled back is the only way to lose an execution. */
  lemma ArmedLosses(cfg: Config, s: State, e: Event, a: nat)
    requires Safe(cfg, s) && Armed(s, e, a)
    ensures Losses(Next(cfg, s, e).lost, a) == Losses(s.lost, a) + (if FailsRetryably(cfg, s, e) then 1 else 0)
  {
    ApprovedGate(cfg, s, e, a);
    DeliveryOutcome(cfg, s, e);
    AbortsExactly(cfg, s, e);
    var t := s.(clock := e.now);
    var act := Started(cfg, s, e).act;
    var c := ClaimRun(s.runs[e.i], e.now).run;
    LossesSnoc(s.lost, a, a);
    CommitKeepsLost(t.(tasks := t.tasks - multiset{e.i}), e.i, act);
    assert s.approvals[a].run == e.i by { assert RequestsOk(s); }
    hide Safe;
    hide Started;
    hide Next;
    hide Commit;
    hide ClaimRun;
    hide FailsRetryably;
    hide Committable;
    hide EffectsOk;
    hide Losses;
  }

  /** Every event: the world sees the approved call once more exactly on an armed delivery. */
  lemma NextUses(cfg: Config, s: State, e: Event, a: nat)
    requires Safe(cfg, s)
    ensures Uses(Next(cfg, s, e).effects, a) == Uses(s.effects, a) + (if Armed(s, e, a) then 1 else 0)
    ensures Losses(Next(cfg, s, e).lost, a)
         == Losses(s.lost, a) + (if Armed(s, e, a) && FailsRetryably(cfg, s, e) then 1 else 0)
  {
    if Armed(s, e, a) {
      DeliveryRunsApprovedCall(cfg, s, e, a);
      ArmedLosses(cfg, s, e, a);
      hide Next;
      hide FailsRetryably;
      hide Safe;
    } else if Enabled(s, e) && e.Execute? {
      var t := s.(clock := e.now);
      TasksDoNotMatter(cfg, s, t);
      assert ParkedOnApproved(t, e.i, a) == ParkedOnApproved(s, e.i, a);
      UnarmedDelivery(cfg, t, e.now, e.i, e.askFirst, e.delivery, a);
      hide Threads.Deliver;
      hide Safe;
      hide ParkedOnApproved;
    } else {
      OtherEventsExecuteNothing(cfg, s, e);
      hide Next;
      hide Safe;
    }
  }

  lemma OtherEventsExecuteNothing(cfg: Config, s: State, e: Event)
    requires !e.Execute? || !Enabled(s, e)
    ensures Next(cfg, s, e).effects == s.effects && Next(cfg, s, e).lost == s.lost
  {
    hide Threads.Deliver;
    hide SweepFrom;
    hide ReapFrom;
    hide ExpireFrom;
    hide SupersedeFrom;
    hide OldestQueued;
    if Enabled(s, e) {
      var t := s.(clock := e.now);
      match e
      case Inbound(now, rid, live) => SupersedeAll(Threads.Hear(t, live), 0, now);
      case ExpireOverdue(now) => ExpireExecutesNothing(t, 0, now);
      case Sweep(now) => SweepExecutesNothing(t, 0, now);
      case Reap(now) => ReapExecutesNothing(t, 0, now);
      case _ =>
    }
  }

  lemma {:induction false} SweepExecutesNothing(s: State, k: nat, now: int)
    requires k <= |s.runs|
    ensures SweepFrom(s, k, now).effects == s.effects && SweepFrom(s, k, now).lost == s.lost
    decreases |s.runs| - k
  {
    if k < |s.runs| {
      SweepExecutesNothing(if Stale(s.runs[k], now)
                           then Put(Enqueue(s, k), k, WithAnswer(s.runs[k], Readable("timed out", true), now)) else s, k + 1, now);
    }
  }

  lemma {:induction false} ReapExecutesNothing(s: State, k: nat, now: int)
    requires k <= |s.runs|
    ensures ReapFrom(s, k, now).effects == s.effects && ReapFrom(s, k, now).lost == s.lost
    decreases |s.runs| - k
  {
    if k < |s.runs| { ReapExecutesNothing(if Stalled(s.runs[k], now) then Enqueue(s, k) else s, k + 1, now); }
  }

  lemma {:induction false} ExpireExecutesNothing(s: State, a: nat, now: int)
    requires a <= |s.approvals|
    ensures ExpireFrom(s, a, now).effects == s.effects && ExpireFrom(s, a, now).lost == s.lost
    decreases |s.approvals| - a
  {
    if a < |s.approvals| {
      ExpireExecutesNothing(if Overdue(s.approvals[a], now) then Rule(s, a, Expired, now) else s, a + 1, now);
    }
  }

  // ------------------------------------------------------------------ a spent request

  lemma ArmedIsUnspent(cfg: Config, s: State, e: Event, a: nat)
    requires Safe(cfg, s) && Armed(s, e, a)
    ensures a < |s.approvals| && !Consumed(s, a)
  {
    assert s.approvals[a].run == e.i by { assert RequestsOk(s); }
    hide Enabled;
    hide Safe;
  }

  lemma SpentIsNotArmed(cfg: Config, s: State, e: Event, a: nat)
    requires Safe(cfg, s) && a < |s.approvals| && Consumed(s, a)
    ensures !Armed(s, e, a)
  {
    hide Safe;
    hide Armed;
    hide Consumed;
    if Armed(s, e, a) { ArmedIsUnspent(cfg, s, e, a); }
  }

  lemma SpentStaysSpent(cfg: Config, s: State, e: Event, a: nat)
    requires Safe(cfg, s) && a < |s.approvals| && Consumed(s, a)
    ensures a < |Next(cfg, s, e).approvals| && Consumed(Next(cfg, s, e), a)
  {
    var t := Next(cfg, s, e);
    NextSafe(cfg, s, e);
    NextForward(cfg, s, e);
    SpentIsNotArmed(cfg, s, e, a);
    NextUses(cfg, s, e, a);
    assert CountsOk(s) && CountsOk(t);
    hide Next;
    hide Armed;
    hide FailsRetryably;
    hide Consumed;
    hide Uses;
    hide Losses;
    hide RowForward;
    hide RequestForward;
    hide Ordered;
    hide SingleFile;
    hide RowsOk;
    hide RequestsOk;
    hide GateOk;
    hide PostsOk;
    hide StayOk;
    hide OpsOk;
    hide LinesOk;
  }

  // ------------------------------------------------------------------ every history

  predicate ArmedAt(cfg: Config, history: seq<Event>, k: nat, a: nat)
    requires k < |history|
  {
    Armed(Threads.After(cfg, history[..k]), history[k], a)
  }

  predicate FailsAt(cfg: Config, history: seq<Event>, k: nat, a: nat)
    requires k < |history|
  {
    ArmedAt(cfg, history, k, a) && FailsRetryably(cfg, Threads.After(cfg, history[..k]), history[k])
  }

  /** How many deliveries found request `a` approved and its run waiting on it. */
  function ArmedDeliveries(cfg: Config, history: seq<Event>, a: nat): nat
    decreases |history|
  {
    if history == [] then 0
    else
      var n := |history| - 1;
      ArmedDeliveries(cfg, history[..n], a) + (if Armed(Threads.After(cfg, history[..n]), history[n], a) then 1 else 0)
  }

  /** Over every history the approved call has been executed exactly once per armed delivery. */
  lemma {:induction false} ExecutedOncePerArmedDelivery(cfg: Config, history: seq<Event>, a: nat)
    ensures Uses(Threads.After(cfg, history).effects, a) == ArmedDeliveries(cfg, history, a)
    decreases |history|
  {
    hide Next;
    hide Armed;
    hide FailsRetryably;
    if history != [] {
      var n := |history| - 1;
      ExecutedOncePerArmedDelivery(cfg, history[..n], a);
      EveryHistorySafe(cfg, history[..n]);
      hide Safe;
      NextUses(cfg, Threads.After(cfg, history[..n]), history[n], a);
    }
  }

  lemma ArmedInFront(cfg: Config, history: seq<Event>, n: nat, k: nat, a: nat)
    requires k < n <= |history|
    ensures ArmedAt(cfg, history[..n], k, a) == ArmedAt(cfg, history, k, a)
    ensures FailsAt(cfg, history[..n], k, a) == FailsAt(cfg, history, k, a)
  {
    assert history[..n][..k] == history[..k] && history[..n][k] == history[k];
  }

  lemma {:induction false} SomeArmed(cfg: Config, history: seq<Event>, a: nat) returns (k: nat)
    requires ArmedDeliveries(cfg, history, a) > 0
    ensures k < |history| && ArmedAt(cfg, history, k, a)
    decreases |history|
  {
    hide Armed;
    var n := |history| - 1;
    k := n;
    if !Armed(Threads.After(cfg, history[..n]), history[n], a) {
      k := SomeArmed(cfg, history[..n], a);
      ArmedInFront(cfg, history, n, k, a);
    }
  }

  lemma {:induction false} TwoArmed(cfg: Config, history: seq<Event>, a: nat) returns (j: nat, k: nat)
    requires ArmedDeliveries(cfg, history, a) > 1
    ensures j < k < |history| && ArmedAt(cfg, history, j, a) && ArmedAt(cfg, history, k, a)
    decreases |history|
  {
    hide Armed;
    var n := |history| - 1;
    if Armed(Threads.After(cfg, history[..n]), history[n], a) {
      j := SomeArmed(cfg, history[..n], a);
      k := n;
    } else {
      j, k := TwoArmed(cfg, history[..n], a);
      ArmedInFront(cfg, history, n, k, a);
    }
    ArmedInFront(cfg, history, n, j, a);
  }

  lemma {:induction false} ArmedCounted(cfg: Config, history: seq<Event>, k: nat, a: nat)
    requires k < |history| && ArmedAt(cfg, history, k, a)
    ensures ArmedDeliveries(cfg, history, a) > ArmedDeliveries(cfg, history[..k], a)
    decreases |history|
  {
    hide Armed;
    hide Threads.After;
    hide Next;
    var n := |history| - 1;
    if k < n {
      ArmedInFront(cfg, history, n, k, a);
      ArmedCounted(cfg, history[..n], k, a);
      assert history[..n][..k] == history[..k];
    }
  }

  lemma ArmedSpends(cfg: Config, s: State, e: Event, a: nat)
    requires Safe(cfg, s) && Armed(s, e, a) && !FailsRetryably(cfg, s, e)
    ensures a < |Next(cfg, s, e).approvals| && Consumed(Next(cfg, s, e), a)
  {
    hide Safe;
    hide Next;
    hide Started;
    hide FailsRetryably;
    hide Consumed;
    hide ParkedOnApproved;
    ParkedRun(s, e, a);
    DeliveryRunsApprovedCall(cfg, s, e, a);
    AbortsExactly(cfg, s, e);
  }

  lemma ParkedRun(s: State, e: Event, a: nat)
    requires Armed(s, e, a)
    ensures e.i < |s.runs|
  {
  }

  /** An armed delivery that does not fail retryably spends the request for good. */
  lemma {:induction false} SpentFrom(cfg: Config, history: seq<Event>, j: nat, m: nat, a: nat)
    requires j < m <= |history| && ArmedAt(cfg, history, j, a) && !FailsAt(cfg, history, j, a)
    ensures a < |Threads.After(cfg, history[..m]).approvals| && Consumed(Threads.After(cfg, history[..m]), a)
    decreases m - j
  {
    hide Safe;
    hide Next;
    hide Started;
    hide FailsRetryably;
    hide Consumed;
    hide Armed;
    var before := history[..m - 1];
    assert history[..m][..m - 1] == before && history[..m][m - 1] == history[m - 1];
    EveryHistorySafe(cfg, before);
    if m == j + 1 {
      ArmedSpends(cfg, Threads.After(cfg, before), history[j], a);
    } else {
      SpentFrom(cfg, history, j, m - 1, a);
      SpentStaysSpent(cfg, Threads.After(cfg, before), history[m - 1], a);
    }
  }

  /** Two armed deliveries: the first was rolled back by its provider. */
  lemma SecondNeedsFailure(cfg: Config, history: seq<Event>, j: nat, k: nat, a: nat)
    requires j < k < |history| && ArmedAt(cfg, history, j, a) && ArmedAt(cfg, history, k, a)
    ensures FailsAt(cfg, history, j, a)
  {
    if !FailsAt(cfg, history, j, a) {
      SpentFrom(cfg, history, j, k, a);
      EveryHistorySafe(cfg, history[..k]);
      SpentIsNotArmed(cfg, Threads.After(cfg, history[..k]), history[k], a);
    }
    hide Safe;
    hide FailsRetryably;
    hide Armed;
  }

  /** An approval causes at most one execution, over any history, if and only if no delivery of its armed run that its
      provider fails retryably is followed by another delivery of that run. */
  lemma ApprovedAtMostOnceExactly(cfg: Config, history: seq<Event>, a: nat)
    ensures Uses(Threads.After(cfg, history).effects, a) <= 1 <==>
            !exists j, k :: 0 <= j < k < |history| && FailsAt(cfg, history, j, a) && ArmedAt(cfg, history, k, a)
  {
    ExecutedOncePerArmedDelivery(cfg, history, a);
    hide Armed;
    hide FailsRetryably;
    if ArmedDeliveries(cfg, history, a) > 1 {
      var j, k := TwoArmed(cfg, history, a);
      SecondNeedsFailure(cfg, history, j, k, a);
    }
    if j, k :| 0 <= j < k < |history| && FailsAt(cfg, history, j, a) && ArmedAt(cfg, history, k, a) {
      ArmedInFront(cfg, history, k, j, a);
      ArmedCounted(cfg, history[..k], j, a);
      ArmedCounted(cfg, history, k, a);
    }
  }
}
