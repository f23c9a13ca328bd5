/** What every event other than a delivery does to a thread, told from the rows it finds: which desks reopen, which runs give
    way, which waits are answered, which requests are ruled, and who is woken. */
module ThreadSteps {
  import opened Wrappers
  import opened AgentRuns
  import opened AgentRunTheorems
  import opened Threads
  import opened ThreadSafety
  import opened ThreadHistory

  /** Replies, executions and what was lost are as they were. */
  predicate SameLogs(s: State, t: State) { t.posts == s.posts && t.effects == s.effects && t.lost == s.lost }

  /** The thread, but for its runs, tasks and clock. */
  predicate SameRest(s: State, t: State) {
    SameLogs(s, t) && t.desk == s.desk && t.approvals == s.approvals && t.link == s.link && t.inbound == s.inbound
    && t.nextOp == s.nextOp && t.lines == s.lines && t.settled == s.settled && t.hushed == s.hushed
  }

  /** Runs are strictly ordered by the time they were created and then by id, any two of them that differ in either. */
  lemma KeysAreOrdered(r: Run, q: Run, p: Run)
    ensures r.createdAt < q.createdAt ==> KeyLess(r, q)
    ensures !(KeyLess(r, q) && KeyLess(q, r))
    ensures r.createdAt != q.createdAt || r.rid != q.rid ==> KeyLess(r, q) || KeyLess(q, r)
    ensures KeyLess(r, q) && KeyLess(q, p) ==> KeyLess(r, p)
    ensures r.createdAt == q.createdAt ==> (KeyLess(r, q) <==> r.rid < q.rid)
  {
  }

  // ------------------------------------------------------------------ an inbound message

  /** A message reopens a snoozed thread for a human, and a resolved one for its agent if that is live, else for a human. */
  predicate Reopens(was: Desk, live: bool, now: Desk) {
    match was
    case AiQueue => now.AiQueue?
    case Open => now.Open?
    case Snoozed => now.Open?
    case Resolved => if live then now.AiQueue? else now.Open?
  }

  /** Queued runs are canceled, every other run is left alone, and one new run is queued for message number `trigger`. */
  predicate GivesWay(s: State, now: int, rid: int, trigger: nat, t: State) {
    var n := |s.runs|;
    && |t.runs| == n + 1
    && (forall i :: 0 <= i < n ==>
          t.runs[i] == if s.runs[i].status.Queued? then s.runs[i].(status := Canceled, updatedAt := now) else s.runs[i])
    && t.runs[n] == Run(now, rid, trigger, Queued, None, None, now, None, None, [])
    && t.tasks == s.tasks + (if exists j :: 0 <= j < n && InFlight(s.runs[j].status) then multiset{} else multiset{n})
  }

  /** An inbound message reopens the desk as it should, is taken up exactly when the thread is then in the queue of a live
      agent, and only then adds a run and supersedes the queued one. */
  lemma InboundExactly(cfg: Config, s: State, e: Event)
    requires e.Inbound? && Enabled(s, e)
    ensures var t := Next(cfg, s, e);
            && Reopens(s.desk, e.live, t.desk) && t.inbound == s.inbound + 1 && SameLogs(s, t)
            && t.approvals == s.approvals && t.link == s.link && t.lines == s.lines
            && (if e.live && (s.desk.AiQueue? || s.desk.Resolved?) then GivesWay(s, e.now, e.rid, s.inbound, t)
                else t.runs == s.runs && t.tasks == s.tasks)
  {
    var u := s.(clock := e.now);
    var v := Threads.Hear(u, e.live);
    SupersedeAll(v, 0, e.now);
    hide SupersedeFrom;
    assert AnyInFlight(v.runs) <==> exists j :: 0 <= j < |s.runs| && InFlight(s.runs[j].status);
  }

  // ------------------------------------------------------------------ the page answers

  /** The row with the page's answer in it. */
  predicate GotAnswer(r: Run, result: PageResult, now: int, q: Run) {
    && r.pending.Some? && r.pending.value.ForPage? && q.pending.Some? && q.pending.value.ForPage?
    && q.pending.value.result == Some(result)
    && q == r.(pending := Some(r.pending.value.(result := Some(result))), updatedAt := now)
  }

  /** The page's answer is taken exactly by the run that waits for this very operation, which is woken. */
  lemma SubmitExactly(cfg: Config, s: State, e: Event)
    requires e.Submit? && Enabled(s, e)
    ensures var t := Next(cfg, s, e);
            SameRest(s, t)
            && if e.i < |s.runs| && s.runs[e.i].status.AwaitingClient? && s.runs[e.i].pending.Some?
                  && s.runs[e.i].pending.value.ForPage? && s.runs[e.i].pending.value.opId == e.opId
               then |t.runs| == |s.runs| && t.runs == s.runs[e.i := t.runs[e.i]] && GotAnswer(s.runs[e.i], e.result, e.now, t.runs[e.i])
                    && t.tasks == s.tasks + multiset{e.i}
               else t.runs == s.runs && t.tasks == s.tasks
  {
  }

  /** A page wait that has lasted too long: a minute and a half, or ten minutes in front of a confirmation card. */
  predicate WaitedTooLong(r: Run, now: int) {
    && r.status.AwaitingClient? && r.pending.Some? && r.pending.value.ForPage? && r.pending.value.result.None?
    && now - r.updatedAt >= (if r.pending.value.op.Action? then 600 else 90)
  }

  /** The sweep answers exactly the waits that have lasted too long, each once, with an error, and wakes their runs. */
  lemma SweepExactly(cfg: Config, s: State, e: Event)
    requires e.Sweep? && Enabled(s, e)
    ensures var t := Next(cfg, s, e);
            && SameRest(s, t) && |t.runs| == |s.runs| && t.clock == e.now
            && (forall i :: 0 <= i < |s.runs| ==>
                  if WaitedTooLong(s.runs[i], e.now) then GotAnswer(s.runs[i], Readable("timed out", true), e.now, t.runs[i])
                  else t.runs[i] == s.runs[i])
            && (forall i: nat :: t.tasks[i] == s.tasks[i] + (if i < |s.runs| && WaitedTooLong(s.runs[i], e.now) then 1 else 0))
  {
    SweepsFrom(s.(clock := e.now), 0, e.now);
  }

  lemma StaleWaited(r: Run, now: int)
    ensures Stale(r, now) <==> WaitedTooLong(r, now)
  {
  }

  lemma {:induction false} SweepsFrom(s: State, k: nat, now: int)
    requires k <= |s.runs|
    ensures var t := SweepFrom(s, k, now);
            && SameRest(s, t) && |t.runs| == |s.runs| && t.clock == s.clock && (forall i :: 0 <= i < k ==> t.runs[i] == s.runs[i])
            && (forall i :: k <= i < |s.runs| ==>
                  if WaitedTooLong(s.runs[i], now) then GotAnswer(s.runs[i], Readable("timed out", true), now, t.runs[i])
                  else t.runs[i] == s.runs[i])
            && (forall i: nat :: t.tasks[i] == s.tasks[i] + (if k <= i < |s.runs| && WaitedTooLong(s.runs[i], now) then 1 else 0))
    decreases |s.runs| - k
  {
    if k < |s.runs| {
      StaleWaited(s.runs[k], now);
      assert Stale(s.runs[k], now) ==> s.runs[k].pending.Some? && s.runs[k].pending.value.ForPage?;
      hide GotAnswer;
      hide Stale;
      hide WaitedTooLong;
      var u := if Stale(s.runs[k], now)
               then Put(Enqueue(s, k), k, WithAnswer(s.runs[k], Readable("timed out", true), now)) else s;
      if Stale(s.runs[k], now) { AnswersRow(s.runs[k], Readable("timed out", true), now); }
      SweepsFrom(u, k + 1, now);
    }
  }

  lemma AnswersRow(r: Run, result: PageResult, now: int)
    requires r.pending.Some? && r.pending.value.ForPage?
    ensures GotAnswer(r, result, now, WithAnswer(r, result, now))
  {
  }

  // ------------------------------------------------------------------ rulings

  /** A request as it is after a ruling. */
  predicate RuledAs(a: Approval, v: Verdict, now: int, b: Approval) { b == a.(verdict := v, decidedAt := Some(now)) }

  /** A decision rules exactly a request that is undecided: approved or rejected as it says, unless its day is over, then
      expired. The ruling is noted in the trace of the run that asked, which is woken. */
  lemma DecideExactly(cfg: Config, history: seq<Event>, e: Event)
    requires e.Decide? && Enabled(Threads.After(cfg, history), e)
    ensures var s := Threads.After(cfg, history);
            var t := Next(cfg, s, e);
            var a := e.approval;
            if a < |s.approvals| && s.approvals[a].verdict.Undecided? then
              var i := s.approvals[a].run;
              && i < |s.runs| && |t.approvals| == |s.approvals| && t.approvals == s.approvals[a := t.approvals[a]]
              && RuledAs(s.approvals[a], if e.now >= s.approvals[a].expiresAt then Expired else if e.approved then Approved else Rejected,
                         e.now, t.approvals[a])
              && t.runs == s.runs[i := s.runs[i].(trace := s.runs[i].trace + [Ruled(a)])] && t.tasks == s.tasks + multiset{i}
              && SameRest(s, t.(approvals := s.approvals))
            else t == s.(clock := e.now)
  {
    var s := Threads.After(cfg, history);
    EveryHistorySafe(cfg, history);
    assert RequestsOk(s);
    hide Safe;
    hide Threads.After;
    hide VerdictOk;
    hide PendsOn;
  }

  /** A request nobody ruled on before its day was over. */
  predicate RanOut(a: Approval, now: int) { a.verdict.Undecided? && now >= a.expiresAt }

  /** Some request of run i has run out. */
  predicate AskedTooLate(requests: seq<Approval>, from: nat, i: nat, now: int) {
    exists a :: from <= a < |requests| && RanOut(requests[a], now) && requests[a].run == i
  }

  ghost predicate Expires(s: State, from: nat, now: int, t: State) {
    && SameRest(s, t.(approvals := s.approvals)) && |t.runs| == |s.runs| && |t.approvals| == |s.approvals|
    && (forall a :: 0 <= a < from && a < |s.approvals| ==> t.approvals[a] == s.approvals[a])
    && (forall a :: from <= a < |s.approvals| ==>
          if RanOut(s.approvals[a], now) then RuledAs(s.approvals[a], Expired, now, t.approvals[a])
          else t.approvals[a] == s.approvals[a])
    && (forall i :: 0 <= i < |s.runs| ==> t.runs[i] == s.runs[i].(trace := t.runs[i].trace) && s.runs[i].trace <= t.runs[i].trace)
    && (forall i: nat :: t.tasks[i] >= s.tasks[i] && (t.tasks[i] > s.tasks[i] <==> AskedTooLate(s.approvals, from, i, now)))
  }

  /** The expiry sweep expires exactly the undecided requests whose day is over, and wakes exactly the runs that asked. */
  lemma ExpireExactly(cfg: Config, history: seq<Event>, e: Event)
    requires e.ExpireOverdue? && Enabled(Threads.After(cfg, history), e)
    ensures Expires(Threads.After(cfg, history), 0, e.now, Next(cfg, Threads.After(cfg, history), e))
  {
    var s := Threads.After(cfg, history);
    EveryHistorySafe(cfg, history);
    assert RequestsOk(s);
    hide Safe;
    hide Threads.After;
    hide VerdictOk;
    hide PendsOn;
    ExpiresFrom(s.(clock := e.now), 0, e.now);
    hide ExpireFrom;
    hide Expires;
    ExpiresLater(s, e.now, e.now, Next(cfg, s, e));
  }

  lemma ExpiresLater(s: State, clock: int, now: int, t: State)
    requires Expires(s.(clock := clock), 0, now, t)
    ensures Expires(s, 0, now, t)
  {
    hide AskedTooLate;
    hide RuledAs;
    hide RanOut;
  }

  lemma NoneTooLate(s: State, now: int)
    ensures Expires(s, |s.approvals|, now, s)
  {
  }

  lemma OneMore(requests: seq<Approval>, a: nat, i: nat, now: int)
    requires a < |requests|
    ensures AskedTooLate(requests, a, i, now) <==> (RanOut(requests[a], now) && requests[a].run == i) || AskedTooLate(requests, a + 1, i, now)
  {
  }

  lemma SameTooLate(requests: seq<Approval>, others: seq<Approval>, from: nat, i: nat, now: int)
    requires |others| == |requests| && forall a :: from <= a < |requests| ==> others[a] == requests[a]
    ensures AskedTooLate(others, from, i, now) <==> AskedTooLate(requests, from, i, now)
  {
  }

  lemma {:induction false} ExpiresFrom(s: State, k: nat, now: int)
    requires k <= |s.approvals| && forall a :: 0 <= a < |s.approvals| ==> s.approvals[a].run < |s.runs|
    ensures Expires(s, k, now, ExpireFrom(s, k, now))
    decreases |s.approvals| - k
  {
    hide Expires;
    hide Rule;
    if k == |s.approvals| {
      NoneTooLate(s, now);
    } else {
      var u := if Overdue(s.approvals[k], now) then Rule(s, k, Expired, now) else s;
      RulesOne(s, k, now, u);
      ExpiresFrom(u, k + 1, now);
      ExpiresOneMore(s, k, now, u, ExpireFrom(s, k, now));
    }
  }

  /** State u is s with request k ruled expired if it had run out. */
  predicate RuledOne(s: State, k: nat, now: int, u: State)
    requires k < |s.approvals| && s.approvals[k].run < |s.runs|
  {
    var i := s.approvals[k].run;
    if RanOut(s.approvals[k], now) then
      && u.approvals == s.approvals[k := s.approvals[k].(verdict := Expired, decidedAt := Some(now))]
      && u.runs == s.runs[i := s.runs[i].(trace := s.runs[i].trace + [Ruled(k)])] && u.tasks == s.tasks + multiset{i}
      && SameRest(s, u.(approvals := s.approvals))
    else u == s
  }

  lemma RulesOne(s: State, k: nat, now: int, u: State)
    requires k < |s.approvals| && s.approvals[k].run < |s.runs|
    requires u == if Overdue(s.approvals[k], now) then Rule(s, k, Expired, now) else s
    ensures RuledOne(s, k, now, u) && forall a :: 0 <= a < |u.approvals| ==> u.approvals[a].run == s.approvals[a].run
    ensures |u.approvals| == |s.approvals| && |u.runs| == |s.runs|
  {
  }

  lemma WokenOneMore(s: State, k: nat, now: int, u: State, t: State, i: nat)
    requires k < |s.approvals| && s.approvals[k].run < |s.runs| && RuledOne(s, k, now, u)
    requires t.tasks[i] >= u.tasks[i] && (t.tasks[i] > u.tasks[i] <==> AskedTooLate(u.approvals, k + 1, i, now))
    ensures t.tasks[i] >= s.tasks[i] && (t.tasks[i] > s.tasks[i] <==> AskedTooLate(s.approvals, k, i, now))
  {
    OneMore(s.approvals, k, i, now);
    SameTooLate(s.approvals, u.approvals, k + 1, i, now);
    hide AskedTooLate;
  }

  lemma ExpiresOneMore(s: State, k: nat, now: int, u: State, t: State)
    requires k < |s.approvals| && s.approvals[k].run < |s.runs| && RuledOne(s, k, now, u) && Expires(u, k + 1, now, t)
    ensures Expires(s, k, now, t)
  {
    hide AskedTooLate;
    forall i: nat ensures t.tasks[i] >= s.tasks[i] && (t.tasks[i] > s.tasks[i] <==> AskedTooLate(s.approvals, k, i, now)) {
      WokenOneMore(s, k, now, u, t, i);
    }
  }

  // ------------------------------------------------------------------ the reaper

  /** A queued run nobody took up for two minutes, or a lease that ran out half a minute ago. */
  predicate Forgotten(r: Run, now: int) {
    (r.status.Queued? && now - r.updatedAt >= 120) || (r.status.Running? && r.lease.Some? && now - r.lease.value >= 30)
  }

  /** The reaper wakes exactly the runs that were forgotten, each once, and changes no row. */
  lemma ReapExactly(cfg: Config, s: State, e: Event)
    requires e.Reap? && Enabled(s, e)
    ensures var t := Next(cfg, s, e);
            && SameRest(s, t) && t.runs == s.runs
            && (forall i: nat :: t.tasks[i] == s.tasks[i] + (if i < |s.runs| && Forgotten(s.runs[i], e.now) then 1 else 0))
  {
    ReapsFrom(s.(clock := e.now), 0, e.now);
  }

  lemma {:induction false} ReapsFrom(s: State, k: nat, now: int)
    requires k <= |s.runs|
    ensures var t := ReapFrom(s, k, now);
            && SameRest(s, t) && t.runs == s.runs
            && (forall i: nat :: t.tasks[i] == s.tasks[i] + (if k <= i < |s.runs| && Forgotten(s.runs[i], now) then 1 else 0))
    decreases |s.runs| - k
  {
    if k < |s.runs| {
      assert Stalled(s.runs[k], now) <==> Forgotten(s.runs[k], now);
      hide Stalled;
      hide Forgotten;
      ReapsFrom(if Stalled(s.runs[k], now) then Enqueue(s, k) else s, k + 1, now);
    }
  }

  // ------------------------------------------------------------------ telemetry

  /** Run i waits for the page to play this tour, and nothing has answered it yet. */
  predicate WaitsToPlay(s: State, i: nat, tour: string) {
    i < |s.runs| && s.runs[i].status.AwaitingClient? && s.runs[i].pending.Some?
    && match s.runs[i].pending.value
       case ForHuman(_, _, _, _) => false
       case ForPage(_, _, input, _, op, result) =>
         op.Guide? && result.None?
         && (if "tour_id" in input && input["tour_id"].Str? then input["tour_id"].s == tour else tour == "")
  }

  /** Run i has been closed without a word: completed, nothing pending, one more result in its trace. */
  predicate ClosedSilently(r: Run, now: int, q: Run) {
    && r.pending.Some? && q.status.Completed? && q.pending.None? && q.snapshot.None? && q.lease.None? && q.updatedAt == now
    && q == r.(status := q.status, pending := q.pending, snapshot := q.snapshot, lease := q.lease, updatedAt := q.updatedAt,
               trace := r.trace + [Got(r.pending.value.name)])
  }

  /** The run that is queued, if any but `done` is, has a task more. */
  predicate WakesNext(s: State, done: nat, tasks: multiset<nat>) {
    tasks == s.tasks + if s.runs != [] && s.runs[|s.runs| - 1].status.Queued? && done != |s.runs| - 1
                       then multiset{|s.runs| - 1} else multiset{}
  }

  lemma ChainWakesNext(s: State, done: nat)
    requires SingleFile(s)
    ensures Chain(s, done) == s.(tasks := Chain(s, done).tasks) && WakesNext(s, done, Chain(s, done).tasks)
  {
    if s.runs != [] && s.runs[|s.runs| - 1].status.Queued? && done != |s.runs| - 1 { assert OldestQueued(s.runs, done, |s.runs|).Some?; }
    hide OldestQueued;
    hide InFlight;
  }

  /** What playing, finishing or stopping tour `tour` does to the run behind its link. */
  predicate Played(s: State, i: nat, tour: string, event: TourEvent, now: int, t: State) {
    && SameLogs(s, t) && t.desk == s.desk && t.approvals == s.approvals && t.inbound == s.inbound && t.nextOp == s.nextOp
    && (if !WaitsToPlay(s, i, tour) then t.runs == s.runs && t.tasks == s.tasks
        else
          && |t.runs| == |s.runs| && t.runs == s.runs[i := t.runs[i]]
          && if event.TourStarted?
             then GotAnswer(s.runs[i], Readable("playing", false), now, t.runs[i]) && t.tasks == s.tasks + multiset{i}
             else ClosedSilently(s.runs[i], now, t.runs[i]) && WakesNext(t.(tasks := s.tasks), i, t.tasks))
    && t.settled == s.settled + (if WaitsToPlay(s, i, tour) then [s.runs[i].pending.value.opId] else [])
    && t.hushed == s.hushed + (if WaitsToPlay(s, i, tour) && !event.TourStarted? then {i} else {})
  }

  /** What a stage of the linked tour leaves: the run behind the link is settled, and the stage is told once per link. */
  predicate Mirrored(s: State, tour: string, event: TourEvent, now: int, t: State)
    requires s.link.Some?
  {
    var link := s.link.value;
    && Played(s, link.run, tour, event, now, t)
    && t.link == Some(link.(mirrored := link.mirrored + {event}))
    && t.lines == s.lines + (if event in link.mirrored || (event.TourStarted? && link.announced) then [] else [TourLine(link.opId, event)])
  }

  /** Telemetry of the linked tour: a start answers the run that waits for it and wakes it; an end closes that run without a
      word and wakes the next; either is told in the transcript once per link, a start only if it was not announced. Telemetry
      of any other tour, and the steps within one, change nothing. */
  lemma TelemetryExactly(cfg: Config, history: seq<Event>, e: Event)
    requires e.Telemetry? && Enabled(Threads.After(cfg, history), e)
    ensures var s := Threads.After(cfg, history);
            var t := Next(cfg, s, e);
            if e.event.StepEvent? || s.link.None? || s.link.value.tour != e.tour then t == s.(clock := e.now)
            else Mirrored(s, e.tour, e.event, e.now, t)
  {
    var s := Threads.After(cfg, history);
    EveryHistorySafe(cfg, history);
    assert SingleFile(s);
    hide Safe;
    hide Threads.After;
    hide SingleFile;
    hide Mirrored;
    if !e.event.StepEvent? && s.link.Some? && s.link.value.tour == e.tour {
      TracksMirrored(s, e.now, e.tour, e.event);
      hide Track;
    }
  }

  lemma TracksMirrored(s: State, now: int, tour: string, event: TourEvent)
    requires SingleFile(s) && !event.StepEvent? && s.link.Some? && s.link.value.tour == tour
    ensures Mirrored(s, tour, event, now, Track(s.(clock := now), tour, event, now))
  {
    var u := s.(clock := now);
    var i := s.link.value.run;
    var v := SettleGuide(u, i, tour, event, now);
    assert SingleFile(u);
    hide SingleFile;
    SettlesPlayed(u, i, tour, event, now);
    SettleGuideLeaves(u, i, tour, event, now);
    hide SettleGuide;
    PlayedLater(s, now, i, tour, event, v);
    hide Played;
    PlayedElsewhere(s, i, tour, event, now, v, Track(u, tour, event, now));
    if event in s.link.value.mirrored { assert s.link.value.mirrored + {event} == s.link.value.mirrored; }
    assert s.lines + [] == s.lines;
  }

  lemma SettleGuideLeaves(s: State, i: nat, tour: string, event: TourEvent, now: int)
    ensures var t := SettleGuide(s, i, tour, event, now); t.link == s.link && t.lines == s.lines
  {
    hide OldestQueued;
    hide TourOf;
  }

  lemma PlayedElsewhere(s: State, i: nat, tour: string, event: TourEvent, now: int, t: State, u: State)
    requires Played(s, i, tour, event, now, t) && u == t.(link := u.link, lines := u.lines)
    ensures Played(s, i, tour, event, now, u)
  {
    hide WaitsToPlay;
    hide GotAnswer;
    hide ClosedSilently;
  }

  lemma PlayedLater(s: State, clock: int, i: nat, tour: string, event: TourEvent, t: State)
    requires Played(s.(clock := clock), i, tour, event, clock, t)
    ensures Played(s, i, tour, event, clock, t)
  {
    hide GotAnswer;
    hide ClosedSilently;
  }

  lemma SettlesPlayed(s: State, i: nat, tour: string, event: TourEvent, now: int)
    requires SingleFile(s) && !event.StepEvent?
    ensures Played(s, i, tour, event, now, SettleGuide(s, i, tour, event, now))
  {
    if i < |s.runs| {
      WaitsAre(s, i, tour);
      if AwaitsGuide(s.runs[i], tour) && !event.TourStarted? { ClosesPlayed(s, i, tour, event, now); }
      if AwaitsGuide(s.runs[i], tour) && event.TourStarted? { AnswersRow(s.runs[i], Readable("playing", false), now); }
      hide WaitsToPlay;
      hide AwaitsGuide;
      hide SingleFile;
      hide GotAnswer;
      hide ClosedSilently;
      hide OldestQueued;
    }
  }

  lemma WaitsAre(s: State, i: nat, tour: string)
    requires i < |s.runs|
    ensures WaitsToPlay(s, i, tour) <==> AwaitsGuide(s.runs[i], tour)
    ensures AwaitsGuide(s.runs[i], tour) ==> s.runs[i].pending.Some? && s.runs[i].pending.value.ForPage? && s.runs[i].status.AwaitingClient?
  {
  }

  lemma ClosesPlayed(s: State, i: nat, tour: string, event: TourEvent, now: int)
    requires SingleFile(s) && i < |s.runs| && AwaitsGuide(s.runs[i], tour) && !event.StepEvent? && !event.TourStarted?
    ensures Played(s, i, tour, event, now, SettleGuide(s, i, tour, event, now))
  {
    WaitsAre(s, i, tour);
    var r := s.runs[i];
    var t := s.(settled := s.settled + [r.pending.value.opId]);
    var u := Put(t, i, SilentlyClosed(r, now)).(hushed := s.hushed + {i});
    assert SettleGuide(s, i, tour, event, now) == Chain(u, i) by {
      hide AwaitsGuide;
      hide OldestQueued;
    }
    hide AwaitsGuide;
    hide WaitsToPlay;
    assert SingleFile(u);
    ChainWakesNext(u, i);
    hide Chain;
    hide SingleFile;
    hide SettleGuide;
  }
}
