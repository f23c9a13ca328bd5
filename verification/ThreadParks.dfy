/** What a parked run keeps until its answer comes, and whose word a verdict is. */
module ThreadParks {
  import opened Wrappers
  import opened Transcript
  import opened AgentRuns
  import opened AgentRunTheorems
  import opened AgentAnswers
  import opened Threads
  import opened ThreadSafety
  import opened ThreadHistory
  import opened ThreadTheorems
  import opened ThreadSteps
  import opened ThreadAnswers
  import opened ThreadWords

  // ------------------------------------------------------------------ a parked run waits unchanged

  /** The same call, still open, with the same transcript; its answer may have come in. */
  predicate StillParked(r: Run, q: Run) {
    && InFlight(r.status) && q.status == r.status && q.snapshot == r.snapshot && q.pending.Some? && r.pending.Some?
    && match r.pending.value
       case ForHuman(_, _, _, _) => q.pending == r.pending
       case ForPage(id, name, input, opId, op, _) => q.pending.value == ForPage(id, name, input, opId, op, ResultOf(q.pending.value))
  }

  function ResultOf(p: Pending): Option<PageResult> { if p.ForPage? then p.result else None }

  lemma StillParkedChains(r: Run, p: Run, q: Run)
    requires StillParked(r, p) && StillParked(p, q)
    ensures StillParked(r, q)
  {
  }

  lemma AnswerLeavesParked(r: Run, result: PageResult, now: int, q: Run)
    requires InFlight(r.status) && GotAnswer(r, result, now, q)
    ensures StillParked(r, q)
  {
  }

  lemma TraceLeavesParked(r: Run, q: Run)
    requires InFlight(r.status) && r.pending.Some? && q == r.(trace := q.trace)
    ensures StillParked(r, q)
  {
  }

  lemma ParkedHasCall(cfg: Config, history: seq<Event>, i: nat)
    requires i < |Threads.After(cfg, history).runs| && InFlight(Threads.After(cfg, history).runs[i].status)
    ensures Threads.After(cfg, history).runs[i].pending.Some?
  {
    ParksAreConsistent(cfg, history, i);
    RunningIsNeverCommitted(cfg, history, i);
  }

  /** A delivery of another run leaves this one alone. */
  lemma DeliveryOfAnother(cfg: Config, history: seq<Event>, e: Event, i: nat)
    requires e.Execute? && e.i != i && i < |Threads.After(cfg, history).runs| && Enabled(Threads.After(cfg, history), e)
    ensures i < |Next(cfg, Threads.After(cfg, history), e).runs|
    ensures Next(cfg, Threads.After(cfg, history), e).runs[i] == Threads.After(cfg, history).runs[i]
  {
    var s := Threads.After(cfg, history);
    if GetsToWork(s, e) {
      AnswersDecideDelivery(cfg, history, e);
      DecidedElsewhere(cfg, s, e, Next(cfg, s, e), i);
    } else {
      IdleDelivery(cfg, history, e);
    }
    hide Threads.After;
    hide Next;
    hide GetsToWork;
  }

  lemma DecidedElsewhere(cfg: Config, s: State, e: Event, t: State, i: nat)
    requires GetsToWork(s, e) && Decided(cfg, s, e, t) && i < |s.runs| && i != e.i
    ensures |t.runs| == |s.runs| && t.runs[i] == s.runs[i]
  {
    hide HeardOf;
    hide CallsBefore;
    hide WakesNext;
    hide AsksPage;
    hide PolicyOf;
    hide MaxToolCalls;
  }

  /** Still parked, or closed by its own tour. */
  predicate Left(s: State, e: Event, i: nat, t: State)
    requires i < |s.runs|
  {
    i < |t.runs| && (StillParked(s.runs[i], t.runs[i]) || ClosedSilently(s.runs[i], e.now, t.runs[i]))
  }

  lemma SameRowLeft(s: State, e: Event, i: nat, t: State)
    requires i < |s.runs| && InFlight(s.runs[i].status) && s.runs[i].pending.Some?
    requires i < |t.runs| && t.runs[i] == s.runs[i].(trace := t.runs[i].trace)
    ensures Left(s, e, i, t)
  {
    TraceLeavesParked(s.runs[i], t.runs[i]);
  }

  lemma AnsweredRowLeft(s: State, e: Event, i: nat, t: State, result: PageResult)
    requires i < |s.runs| && InFlight(s.runs[i].status) && i < |t.runs| && GotAnswer(s.runs[i], result, e.now, t.runs[i])
    ensures Left(s, e, i, t)
  {
    AnswerLeavesParked(s.runs[i], result, e.now, t.runs[i]);
    hide GotAnswer;
    hide StillParked;
  }

  /** The events that may answer a page wait. */
  lemma AnswersLeave(cfg: Config, s: State, e: Event, i: nat)
    requires i < |s.runs| && InFlight(s.runs[i].status) && s.runs[i].pending.Some? && Enabled(s, e) && (e.Submit? || e.Sweep?)
    ensures Left(s, e, i, Next(cfg, s, e))
  {
    var t := Next(cfg, s, e);
    if e.Submit? {
      SubmitExactly(cfg, s, e);
      hide Next;
      hide GotAnswer;
      hide Left;
      if t.runs[i] == s.runs[i] { SameRowLeft(s, e, i, t); } else { AnsweredRowLeft(s, e, i, t, e.result); }
    } else {
      SweepExactly(cfg, s, e);
      hide Next;
      hide GotAnswer;
      hide WaitedTooLong;
      hide Left;
      if t.runs[i] == s.runs[i] { SameRowLeft(s, e, i, t); } else { AnsweredRowLeft(s, e, i, t, Readable("timed out", true)); }
    }
  }

  lemma RulingsLeave(cfg: Config, history: seq<Event>, e: Event, i: nat)
    requires var s := Threads.After(cfg, history);
             i < |s.runs| && InFlight(s.runs[i].status) && s.runs[i].pending.Some? && Enabled(s, e) && (e.Decide? || e.ExpireOverdue?)
    ensures Left(Threads.After(cfg, history), e, i, Next(cfg, Threads.After(cfg, history), e))
  {
    var s := Threads.After(cfg, history);
    if e.Decide? { DecideExactly(cfg, history, e); } else { ExpireExactly(cfg, history, e); }
    hide Threads.After;
    hide Next;
    hide AskedTooLate;
    hide RuledAs;
    hide Left;
    SameRowLeft(s, e, i, Next(cfg, s, e));
  }

  lemma TelemetryLeaves(cfg: Config, history: seq<Event>, e: Event, i: nat)
    requires var s := Threads.After(cfg, history);
             i < |s.runs| && InFlight(s.runs[i].status) && s.runs[i].pending.Some? && Enabled(s, e) && e.Telemetry?
    ensures Left(Threads.After(cfg, history), e, i, Next(cfg, Threads.After(cfg, history), e))
  {
    var s := Threads.After(cfg, history);
    var t := Next(cfg, s, e);
    TelemetryExactly(cfg, history, e);
    hide Threads.After;
    hide Next;
    hide GotAnswer;
    hide ClosedSilently;
    hide WaitsToPlay;
    hide WakesNext;
    hide StillParked;
    if t.runs[i] == s.runs[i] {
      SameRowLeft(s, e, i, t);
    } else if e.event.TourStarted? {
      AnsweredRowLeft(s, e, i, t, Readable("playing", false));
    }
  }

  /** Any event but its own delivery leaves a parked run waiting for the same call with the same transcript, unless its own tour
      closes it. */
  lemma EventLeavesParked(cfg: Config, history: seq<Event>, e: Event, i: nat)
    requires i < |Threads.After(cfg, history).runs| && InFlight(Threads.After(cfg, history).runs[i].status)
    requires e.Execute? ==> e.i != i
    ensures Left(Threads.After(cfg, history), e, i, Next(cfg, Threads.After(cfg, history), e))
  {
    var s := Threads.After(cfg, history);
    var t := Next(cfg, s, e);
    ParkedHasCall(cfg, history, i);
    hide Left;
    if Enabled(s, e) {
      match e
      case Submit(_, _, _, _) => AnswersLeave(cfg, s, e, i);
      case Sweep(_) => AnswersLeave(cfg, s, e, i);
      case Decide(_, _, _) => RulingsLeave(cfg, history, e, i);
      case ExpireOverdue(_) => RulingsLeave(cfg, history, e, i);
      case Telemetry(_, _, _) => TelemetryLeaves(cfg, history, e, i);
      case Execute(_, _, _, _) =>
        DeliveryOfAnother(cfg, history, e, i);
        SameRowLeft(s, e, i, t);
      case Inbound(_, _, _) =>
        InboundExactly(cfg, s, e);
        SameRowLeft(s, e, i, t);
      case Reap(_) =>
        ReapExactly(cfg, s, e);
        SameRowLeft(s, e, i, t);
      case SetDesk(_, _) => SameRowLeft(s, e, i, t);
      case Redeliver(_, _) => SameRowLeft(s, e, i, t);
      case Drop(_, _) => SameRowLeft(s, e, i, t);
    } else {
      SameRowLeft(s, e, i, t);
    }
    hide Threads.After;
    hide Reopens;
    hide Forgotten;
    hide Threads.Deliver;
    hide Receive;
    hide ReapFrom;
    hide SweepFrom;
    hide ExpireFrom;
    hide Track;
  }

  predicate NoDelivery(more: seq<Event>, i: nat) {
    forall k :: 0 <= k < |more| && more[k].Execute? ==> more[k].i != i
  }

  /** Over any stretch of history without a delivery of its own, a parked run keeps its open call and its transcript, or has been
      closed. */
  lemma {:induction false} ParkSurvives(cfg: Config, history: seq<Event>, more: seq<Event>, i: nat)
    requires i < |Threads.After(cfg, history).runs| && InFlight(Threads.After(cfg, history).runs[i].status) && NoDelivery(more, i)
    ensures var r := Threads.After(cfg, history).runs[i];
            var t := Threads.After(cfg, history + more);
            i < |t.runs| && (StillParked(r, t.runs[i]) || t.runs[i].status.Completed?)
    decreases |more|
  {
    hide Next;
    hide StillParked;
    var r := Threads.After(cfg, history).runs[i];
    if more == [] {
      assert history + more == history;
      ParkedHasCall(cfg, history, i);
      TraceLeavesParked(r, r);
    } else {
      var n := |more| - 1;
      var before := history + more[..n];
      ParkSurvives(cfg, history, more[..n], i);
      Snoc(cfg, before, more[n]);
      assert before + [more[n]] == history + more;
      var p := Threads.After(cfg, before).runs[i];
      var q := Threads.After(cfg, history + more);
      if p.status.Completed? {
        EveryHistorySafe(cfg, before);
        NextForward(cfg, Threads.After(cfg, before), more[n]);
        assert RowForward(p, q.runs[i]);
      } else {
        ParkedKeepsStatus(r, p);
        EventLeavesParked(cfg, before, more[n], i);
        if StillParked(p, q.runs[i]) { StillParkedChains(r, p, q.runs[i]); }
      }
    }
    hide Threads.After;
    hide Safe;
    hide RequestForward;
  }

  lemma ParkedKeepsStatus(r: Run, q: Run)
    requires StillParked(r, q)
    ensures InFlight(q.status)
  {
  }

  /** This delivery leaves its run parked, and not as it found it. */
  predicate LeavesParked(s: State, e: Event, t: State) {
    e.Execute? && e.i < |s.runs| && |t.runs| == |s.runs| && t.runs[e.i] != s.runs[e.i] && InFlight(t.runs[e.i].status)
  }

  lemma ParkHears(cfg: Config, history: seq<Event>, park: Event) returns (before: seq<seq<Msg>>)
    requires GetsToWork(Threads.After(cfg, history), park)
    requires LeavesParked(Threads.After(cfg, history), park, Next(cfg, Threads.After(cfg, history), park))
    ensures var s := Threads.After(cfg, history);
            var t := Next(cfg, s, park);
            var n := HeardOf(cfg, s, park);
            && Started(cfg, s, park).Began? && before == Started(cfg, s, park).act.sent && Hears(cfg, s, park, before, t)
            && n > 0 && park.delivery.script[n - 1].Calls? && t.runs[park.i].pending.Some?
            && t.runs[park.i].pending.value.id == park.delivery.script[n - 1].first.call.id
  {
    hide HeardOf;
    hide Next;
    before := DeliveryHears(cfg, history, park);
    AnswersDecideDelivery(cfg, history, park);
    hide Threads.After;
    hide Decided;
    hide Started;
    hide Hears;
    ParkedByCalls(cfg, Threads.After(cfg, history), park, Next(cfg, Threads.After(cfg, history), park));
    hide GetsToWork;
  }

  /** The resume goes on where the park left off. A delivery parks run i; then anything happens but another delivery of it; then
      one finds it with its answer. The first transcript its provider hears is the last one it heard before the park, with the
      calls it made in answer recorded, and the open one answered. */
  lemma ResumeGoesOn(cfg: Config, history: seq<Event>, park: Event, more: seq<Event>, e: Event)
    returns (before: seq<seq<Msg>>, after: seq<seq<Msg>>)
    requires GetsToWork(Threads.After(cfg, history), park) && e.Execute? && e.i == park.i && NoDelivery(more, e.i)
    requires LeavesParked(Threads.After(cfg, history), park, Next(cfg, Threads.After(cfg, history), park))
    requires GetsToWork(Threads.After(cfg, history + [park] + more), e) && HeardOf(cfg, Threads.After(cfg, history + [park] + more), e) > 0
    ensures Started(cfg, Threads.After(cfg, history), park).Began? && before == Started(cfg, Threads.After(cfg, history), park).act.sent
    ensures Started(cfg, Threads.After(cfg, history + [park] + more), e).Began?
    ensures after == Started(cfg, Threads.After(cfg, history + [park] + more), e).act.sent
    ensures PicksUp(park.delivery.script, before, after)
  {
    hide HeardOf;
    hide Next;
    hide Hears;
    hide StillParked;
    hide Threads.After;
    hide Started;
    hide PicksUp;
    before := ParkHears(cfg, history, park);
    after := DeliveryHears(cfg, history + [park] + more, e);
    Snoc(cfg, history, park);
    assert Threads.After(cfg, history + [park] + more).runs[e.i].status.Completed? ==> false by { NotEnded(Threads.After(cfg, history + [park] + more), e); }
    hide GetsToWork;
    ParkSurvives(cfg, history + [park], more, e.i);
    var u := Threads.After(cfg, history + [park] + more);
    Joins(cfg, Threads.After(cfg, history), park, before, Threads.After(cfg, history + [park]), u, e, after, Next(cfg, u, e));
  }

  lemma NotEnded(s: State, e: Event)
    requires GetsToWork(s, e)
    ensures !s.runs[e.i].status.Completed?
  {
  }

  predicate PicksUp(script: seq<Turn>, before: seq<seq<Msg>>, after: seq<seq<Msg>>) {
    && 0 < |before| <= |script| && after != [] && after[0] != []
    && var last := script[|before| - 1];
       && last.Calls? && Recorded(last, before[|before| - 1], after[0][..|after[0]| - 1])
       && after[0][|after[0]| - 1].toolCallId == Some(last.first.call.id)
  }

  lemma Joins(cfg: Config, s: State, park: Event, before: seq<seq<Msg>>, t: State, u: State, e: Event, after: seq<seq<Msg>>, v: State)
    requires GetsToWork(s, park) && Hears(cfg, s, park, before, t) && GetsToWork(u, e) && Hears(cfg, u, e, after, v) && e.i == park.i
    requires HeardOf(cfg, s, park) > 0 && HeardOf(cfg, u, e) > 0 && park.delivery.script[HeardOf(cfg, s, park) - 1].Calls?
    requires LeavesParked(s, park, t) && e.i < |u.runs|
    requires StillParked(t.runs[e.i], u.runs[e.i])
    requires t.runs[e.i].pending.Some?
             && t.runs[e.i].pending.value.id == park.delivery.script[HeardOf(cfg, s, park) - 1].first.call.id
    ensures PicksUp(park.delivery.script, before, after)
  {
    SamePendingId(t.runs[e.i], u.runs[e.i]);
    FirstAnswers(u, e, after[0]);
    hide FirstHeard;
    hide StillParked;
    hide Recorded;
    hide Grows;
    hide GetsToWork;
    hide HeardOf;
    hide DeserializeMessages;
    var ms := DeserializeMessages(u.runs[e.i].snapshot).value;
    assert after[0][..|after[0]| - 1] == ms;
  }

  lemma SamePendingId(r: Run, q: Run)
    requires StillParked(r, q)
    ensures q.pending.Some? && r.pending.Some? && q.pending.value.id == r.pending.value.id && q.snapshot == r.snapshot
  {
  }

  /** Whatever answered the parked call, it is the last message of the first transcript, after the parked ones. */
  lemma FirstAnswers(s: State, e: Event, first: seq<Msg>)
    requires GetsToWork(s, e) && s.runs[e.i].pending.Some? && FirstHeard(s, e, first)
    ensures var r := s.runs[e.i];
            DeserializeMessages(r.snapshot).Some? && first != [] && first[..|first| - 1] == DeserializeMessages(r.snapshot).value
            && first[|first| - 1].toolCallId == Some(r.pending.value.id)
  {
    hide NoneBefore;
    hide Enabled;
    hide DeserializeMessages;
  }

  /** A delivery that leaves its run parked anew heard calls last, and the run waits for the first of them. */
  lemma ParkedByCalls(cfg: Config, s: State, e: Event, t: State)
    requires GetsToWork(s, e) && Decided(cfg, s, e, t) && t.runs[e.i] != s.runs[e.i] && |t.runs| == |s.runs| && InFlight(t.runs[e.i].status)
    ensures HeardOf(cfg, s, e) > 0 && e.delivery.script[HeardOf(cfg, s, e) - 1].Calls?
    ensures t.runs[e.i].pending.Some? && t.runs[e.i].pending.value.id == e.delivery.script[HeardOf(cfg, s, e) - 1].first.call.id
  {
    hide HeardOf;
    hide CallsBefore;
    hide WakesNext;
    hide AsksPage;
    hide PolicyOf;
    hide MaxToolCalls;
  }

  // ------------------------------------------------------------------ whose word a verdict is

  /** Event k of the history rules on request a: by a human's decision while its day lasted, or after its end by whoever looked. */
  predicate RulesAt(cfg: Config, history: seq<Event>, k: nat, a: nat, v: Verdict)
    requires k < |history|
  {
    var s := Threads.After(cfg, history[..k]);
    var e := history[k];
    && Enabled(s, e) && a < |s.approvals| && s.approvals[a].verdict.Undecided?
    && match v
       case Undecided => false
       case Approved => e.Decide? && e.approval == a && e.approved && e.now < s.approvals[a].expiresAt
       case Rejected => e.Decide? && e.approval == a && !e.approved && e.now < s.approvals[a].expiresAt
       case Expired => ((e.Decide? && e.approval == a) || e.ExpireOverdue?) && e.now >= s.approvals[a].expiresAt
  }

  /** What one event does to the verdict on request a. */
  predicate RulingOf(s: State, e: Event, a: nat, v: Verdict)
    requires a < |s.approvals|
  {
    if !s.approvals[a].verdict.Undecided? || !Enabled(s, e) then v == s.approvals[a].verdict
    else if e.Decide? && e.approval == a then
      v == if e.now >= s.approvals[a].expiresAt then Expired else if e.approved then Approved else Rejected
    else v == if e.ExpireOverdue? && e.now >= s.approvals[a].expiresAt then Expired else Undecided
  }

  /** Events that have nothing to do with requests. */
  lemma OthersKeepRequests(cfg: Config, history: seq<Event>, e: Event)
    requires !e.Execute? && !e.Decide? && !e.ExpireOverdue?
    ensures Next(cfg, Threads.After(cfg, history), e).approvals == Threads.After(cfg, history).approvals
  {
    var s := Threads.After(cfg, history);
    if Enabled(s, e) {
      match e
      case Inbound(_, _, _) => InboundExactly(cfg, s, e);
      case Submit(_, _, _, _) => SubmitExactly(cfg, s, e);
      case Sweep(_) => SweepExactly(cfg, s, e);
      case Reap(_) => ReapExactly(cfg, s, e);
      case Telemetry(_, _, _) => TelemetryExactly(cfg, history, e);
      case SetDesk(_, _) =>
      case Redeliver(_, _) =>
      case Drop(_, _) =>
    }
    hide Threads.After;
    hide WaitsToPlay;
    hide ClosedSilently;
    hide GotAnswer;
    hide WaitedTooLong;
    hide Forgotten;
    hide Reopens;
    hide GivesWay;
    hide WakesNext;
    hide Receive;
    hide SweepFrom;
    hide ReapFrom;
    hide Track;
    hide SubmitResult;
  }

  lemma NextRules(cfg: Config, history: seq<Event>, e: Event, a: nat)
    requires a < |Threads.After(cfg, history).approvals|
    ensures var s := Threads.After(cfg, history);
            var t := Next(cfg, s, e);
            a < |t.approvals| && RulingOf(s, e, a, t.approvals[a].verdict)
  {
    var s := Threads.After(cfg, history);
    if Enabled(s, e) {
      if e.Execute? {
        DeliveryRulesNothing(cfg, history, e, a);
      } else if e.Decide? {
        DecideExactly(cfg, history, e);
      } else if e.ExpireOverdue? {
        ExpireExactly(cfg, history, e);
      } else {
        OthersKeepRequests(cfg, history, e);
      }
      hide Apply;
    }
    hide Threads.After;
    hide AskedTooLate;
  }

  lemma DeliveryRulesNothing(cfg: Config, history: seq<Event>, e: Event, a: nat)
    requires e.Execute? && Enabled(Threads.After(cfg, history), e) && a < |Threads.After(cfg, history).approvals|
    ensures var s := Threads.After(cfg, history);
            var t := Next(cfg, s, e);
            a < |t.approvals| && t.approvals[a] == s.approvals[a]
            && forall b :: |s.approvals| <= b < |t.approvals| ==> t.approvals[b].verdict.Undecided?
  {
    var s := Threads.After(cfg, history);
    if GetsToWork(s, e) {
      AnswersDecideDelivery(cfg, history, e);
      DecidedRulesNothing(cfg, s, e, Next(cfg, s, e));
    } else {
      IdleDelivery(cfg, history, e);
    }
    hide Threads.After;
    hide Next;
    hide GetsToWork;
  }

  lemma DecidedRulesNothing(cfg: Config, s: State, e: Event, t: State)
    requires GetsToWork(s, e) && Decided(cfg, s, e, t)
    ensures |s.approvals| <= |t.approvals| && t.approvals[..|s.approvals|] == s.approvals
    ensures forall b :: |s.approvals| <= b < |t.approvals| ==> t.approvals[b].verdict.Undecided?
  {
    hide HeardOf;
    hide CallsBefore;
    hide WakesNext;
    hide AsksPage;
    hide PolicyOf;
    hide MaxToolCalls;
  }

  /** Requests are born undecided. */
  lemma NewRequestsAreUndecided(cfg: Config, history: seq<Event>, e: Event)
    ensures var s := Threads.After(cfg, history);
            var t := Next(cfg, s, e);
            |s.approvals| <= |t.approvals| && forall b :: |s.approvals| <= b < |t.approvals| ==> t.approvals[b].verdict.Undecided?
  {
    var s := Threads.After(cfg, history);
    if GetsToWork(s, e) {
      AnswersDecideDelivery(cfg, history, e);
      DecidedRulesNothing(cfg, s, e, Next(cfg, s, e));
    } else if e.Execute? && Enabled(s, e) {
      IdleDelivery(cfg, history, e);
    } else {
      OthersRaiseNothing(cfg, s, e);
    }
    hide Threads.After;
    hide Next;
    hide GetsToWork;
  }

  lemma OthersRaiseNothing(cfg: Config, s: State, e: Event)
    requires !e.Execute? || !Enabled(s, e)
    ensures |Next(cfg, s, e).approvals| == |s.approvals|
  {
    if Enabled(s, e) {
      match e
      case Inbound(_, _, _) => InboundExactly(cfg, s, e);
      case Sweep(_) => SweepExactly(cfg, s, e);
      case Reap(_) => ReapExactly(cfg, s, e);
      case ExpireOverdue(_) => ExpireCountsRequests(s.(clock := e.now), 0, e.now);
      case _ =>
    }
    hide Threads.Deliver;
    hide Receive;
    hide SweepFrom;
    hide ReapFrom;
    hide ExpireFrom;
    hide OldestQueued;
    hide GotAnswer;
    hide WaitedTooLong;
    hide Forgotten;
    hide Reopens;
    hide GivesWay;
  }

  lemma {:induction false} ExpireCountsRequests(s: State, a: nat, now: int)
    requires a <= |s.approvals|
    ensures |ExpireFrom(s, a, now).approvals| == |s.approvals|
    decreases |s.approvals| - a
  {
    if a < |s.approvals| {
      ExpireCountsRequests(if Overdue(s.approvals[a], now) then Rule(s, a, Expired, now) else s, a + 1, now);
    }
  }

  lemma RulesInFront(cfg: Config, history: seq<Event>, n: nat, k: nat, a: nat, v: Verdict)
    requires k < n <= |history|
    ensures RulesAt(cfg, history[..n], k, a, v) == RulesAt(cfg, history, k, a, v)
  {
    assert history[..n][..k] == history[..k] && history[..n][k] == history[k];
  }

  predicate Ruled(cfg: Config, history: seq<Event>, a: nat, v: Verdict) {
    exists k :: 0 <= k < |history| && RulesAt(cfg, history, k, a, v)
  }

  lemma RuledSnoc(cfg: Config, history: seq<Event>, a: nat, v: Verdict)
    requires history != []
    ensures var n := |history| - 1;
            Ruled(cfg, history, a, v) <==> Ruled(cfg, history[..n], a, v) || RulesAt(cfg, history, n, a, v)
  {
    var n := |history| - 1;
    hide RulesAt;
    forall k | 0 <= k < n ensures RulesAt(cfg, history[..n], k, a, v) == RulesAt(cfg, history, k, a, v) {
      RulesInFront(cfg, history, n, k, a, v);
    }
    if Ruled(cfg, history[..n], a, v) {
      var k :| 0 <= k < n && RulesAt(cfg, history[..n], k, a, v);
      assert RulesAt(cfg, history, k, a, v);
    }
    if Ruled(cfg, history, a, v) {
      var k :| 0 <= k < |history| && RulesAt(cfg, history, k, a, v);
      assert k < n ==> RulesAt(cfg, history[..n], k, a, v);
    }
  }

  lemma RulesNow(cfg: Config, history: seq<Event>, a: nat, v: Verdict, w: Verdict)
    requires history != [] && !v.Undecided?
    requires var n := |history| - 1;
             var s := Threads.After(cfg, history[..n]);
             a < |s.approvals| && RulingOf(s, history[n], a, w)
    ensures var n := |history| - 1;
            var s := Threads.After(cfg, history[..n]);
            w == v <==> s.approvals[a].verdict == v || RulesAt(cfg, history, n, a, v)
  {
    hide Threads.After;
    hide Enabled;
  }

  /** Over every history, a request stands approved exactly if a human approved it, first of all rulings and before its day was
      over; rejected exactly if a human rejected it so; and expired exactly if it was first looked at after its day. */
  lemma {:induction false} VerdictsAreRulings(cfg: Config, history: seq<Event>, a: nat, v: Verdict)
    requires a < |Threads.After(cfg, history).approvals| && !v.Undecided?
    ensures Threads.After(cfg, history).approvals[a].verdict == v <==> Ruled(cfg, history, a, v)
    decreases |history|
  {
    hide Next;
    hide Ruled;
    if history != [] {
      var n := |history| - 1;
      var s := Threads.After(cfg, history[..n]);
      RuledSnoc(cfg, history, a, v);
      if a < |s.approvals| {
        VerdictsAreRulings(cfg, history[..n], a, v);
        NextRules(cfg, history[..n], history[n], a);
        RulesNow(cfg, history, a, v, Threads.After(cfg, history).approvals[a].verdict);
      } else {
        NewRequestsAreUndecided(cfg, history[..n], history[n]);
        NobodyRules(cfg, history, a, v);
      }
    }
    hide RulesAt;
    hide RulingOf;
  }

  lemma NoRulingYet(cfg: Config, history: seq<Event>, k: nat, a: nat, v: Verdict)
    requires k < |history| && a >= |Threads.After(cfg, history[..k]).approvals|
    ensures !RulesAt(cfg, history, k, a, v)
  {
    hide Threads.After;
    hide Enabled;
  }

  /** A request that is not there yet has no ruling. */
  lemma NobodyRules(cfg: Config, history: seq<Event>, a: nat, v: Verdict)
    requires history != [] && a >= |Threads.After(cfg, history[..|history| - 1]).approvals|
    ensures !Ruled(cfg, history, a, v)
  {
    var n := |history| - 1;
    hide Threads.After;
    hide RulesAt;
    forall k | 0 <= k < |history| ensures !RulesAt(cfg, history, k, a, v) {
      RequestsOnlyGrow(cfg, history[..n], k);
      assert history[..n][..k] == history[..k];
      NoRulingYet(cfg, history, k, a, v);
    }
  }

  lemma RequestsOnlyGrow(cfg: Config, history: seq<Event>, k: nat)
    requires k <= |history|
    ensures |Threads.After(cfg, history[..k]).approvals| <= |Threads.After(cfg, history).approvals|
  {
    HistoryOnlyAdds(cfg, history[..k], history[k..]);
    assert history[..k] + history[k..] == history;
    hide Threads.After;
    hide RowForward;
    hide RequestForward;
  }

  /** So a tool under approval only ever runs after a human approved that very call before its day was over. */
  lemma GatedToolsWereApproved(cfg: Config, history: seq<Event>, k: nat)
    requires k < |Threads.After(cfg, history).effects|
    requires PolicyOf(cfg, Threads.After(cfg, history).effects[k].name).RequireApproval?
    ensures var e := Threads.After(cfg, history).effects[k];
            e.approval.Some? && Ruled(cfg, history, e.approval.value, Approved)
  {
    ApprovalGate(cfg, history, k);
    VerdictsAreRulings(cfg, history, Threads.After(cfg, history).effects[k].approval.value, Approved);
    hide Threads.After;
    hide Ruled;
  }
}
