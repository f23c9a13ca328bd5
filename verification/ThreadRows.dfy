/** The engine's entry points as it writes them: loops over rows, fields reassigned in place, one
    activation object per delivery. Each is proved to take exactly the step `Threads` specifies. */
module ThreadRows {
  import opened Wrappers
  import opened AgentRuns
  import opened Activations
  import opened Threads

  class Thread {
    const cfg: Config

    var desk: Desk
    var runs: seq<Run>
    var approvals: seq<Approval>
    var tasks: multiset<nat>
    var posts: seq<Post>
    var link: Option<Link>
    var inbound: nat
    var nextOp: nat
    var lines: seq<TourLine>

    ghost var clock: int
    ghost var stayed: bool
    ghost var effects: seq<Effect>
    ghost var lost: seq<nat>
    ghost var settled: seq<nat>
    ghost var hushed: set<nat>

    ghost function Value(): State reads this {
      State(desk, runs, approvals, tasks, posts, link, inbound, nextOp, clock, stayed, effects, lost, lines, settled, hushed)
    }

    constructor (cfg: Config)
      ensures this.cfg == cfg && Value() == Empty
    {
      this.cfg := cfg;
      desk, runs, approvals, tasks, posts, link := Open, [], [], multiset{}, [], None;
      inbound, nextOp, lines := 0, 0, [];
      clock, stayed, effects, lost, settled, hushed := 0, false, [], [], [], {};
    }

    // ---------------------------------------------------------------- small updates

    /** Time passes before each step; the methods below take `now` from their caller. */
    ghost method Tick(now: int)
      requires clock <= now
      modifies this`clock
      ensures Value() == old(Value()).(clock := now)
    {
      clock := now;
    }

    method Schedule(i: nat)
      modifies this`tasks
      ensures Value() == Enqueue(old(Value()), i)
    {
      tasks := tasks + multiset{i};
    }

    method Consume(i: nat)
      modifies this`tasks
      ensures Value() == old(Value()).(tasks := old(tasks) - multiset{i})
    {
      tasks := tasks - multiset{i};
    }

    method Store(i: nat, r: Run)
      requires i < |runs|
      modifies this`runs
      ensures Value() == Put(old(Value()), i, r)
    {
      runs := runs[i := r];
    }

    method UpdateStatus(to: Desk)
      modifies this`desk, this`stayed
      ensures Value() == MoveDesk(old(Value()), to)
    {
      desk := to;
      stayed := stayed && to.AiQueue?;
    }

    // ---------------------------------------------------------------- queries over rows

    /** An older non-terminal run, scanning every other active row. */
    method HasEarlierActive(i: nat) returns (found: bool)
      requires i < |runs|
      ensures found == EarlierActive(runs, i)
    {
      found := false;
      var j := 0;
      while j < |runs| && !found
        invariant j <= |runs|
        invariant found ==> EarlierActive(runs, i)
        invariant !found ==> forall k :: 0 <= k < j && k != i && Active(runs[k]) ==> !KeyLess(runs[k], runs[i])
      {
        if j != i && Active(runs[j]) && KeyLess(runs[j], runs[i]) { found := true; }
        j := j + 1;
      }
    }

    method HasInFlight() returns (found: bool)
      ensures found == AnyInFlight(runs)
    {
      found := false;
      for j := 0 to |runs|
        invariant found == exists k :: 0 <= k < j && InFlight(runs[k].status)
      {
        if InFlight(runs[j].status) { found := true; }
      }
    }

    /** Kick the oldest queued follow-up. */
    method ChainNextQueued(done: nat)
      modifies this`tasks
      ensures Value() == Chain(old(Value()), done)
    {
      var best: Option<nat> := None;
      for j := 0 to |runs|
        invariant best == OldestQueued(runs, done, j)
      {
        if runs[j].status.Queued? && j != done && (best.None? || KeyLess(runs[j], runs[best.value])) {
          best := Some(j);
        }
      }
      if best.Some? { Schedule(best.value); }
    }

    // ---------------------------------------------------------------- inbound messages

    method MergeQueued(now: int, rid: int, trigger: nat)
      modifies this
      ensures Value() == Merge(old(Value()), now, rid, trigger)
    {
      ghost var start := Value();
      var busy := HasInFlight();
      for k := 0 to |runs|
        invariant |runs| == |start.runs|
        invariant SupersedeFrom(Value(), k, now) == SupersedeFrom(start, 0, now)
        modifies this
      {
        Store(k, Supersede(runs[k], now));
      }
      runs := runs + [NewRun(now, rid, trigger)];
      stayed := true;
      if !busy { Schedule(|runs| - 1); }
    }

    method OnMessageCreated(now: int, rid: int, live: bool)
      modifies this
      ensures Value() == Receive(old(Value()), now, rid, live)
    {
      hide Merge;
      var trigger := inbound;
      UpdateStatus(Reopen(desk, live));
      inbound := inbound + 1;
      if desk.AiQueue? && live {
        MergeQueued(now, rid, trigger);
      }
    }

    // ---------------------------------------------------------------- executing a run

    method AddRecords(i: nat, a: Act)
      modifies this`approvals, this`link, this`nextOp, this`effects, this`posts
      ensures Value() == Annex(old(Value()), i, a)
    {
      approvals := approvals + (if a.raised.Some? then [a.raised.value] else []);
      link := a.link;
      nextOp := nextOp + 1;
      effects := effects + a.effects;
      posts := posts + (if a.fate.Finished? && a.fate.posted then [Post(i, a.run.trigger)] else []);
    }

    /** Write the row back together with what the activation raised, posted and linked. */
    method RecordActivation(i: nat, a: Act)
      requires i < |runs|
      modifies this
      ensures Value() == Threads.Record(old(Value()), i, a)
    {
      hide Annex;
      Store(i, a.run);
      UpdateStatus(a.desk);
      AddRecords(i, a);
    }

    method CommitActivation(i: nat, a: Act)
      requires i < |runs|
      modifies this
      ensures Value() == Commit(old(Value()), i, a)
    {
      hide Threads.Record;
      hide OldestQueued;
      RecordActivation(i, a);
      if a.fate.Finished? { ChainNextQueued(i); }
    }

    /** The verdict of the request a run is parked on. */
    method ReadVerdict(r: Run) returns (v: Verdict)
      ensures v == VerdictFor(Value(), r)
    {
      v := Rejected;
      if r.pending.Some? && r.pending.value.ForHuman? && r.pending.value.approval < |approvals| {
        v := approvals[r.pending.value.approval].verdict;
      }
    }

    /** Roll an activation back: what the world has seen stays seen. */
    ghost method Forget(c: Run, verdict: Verdict, act: Act)
      modifies this`effects, this`lost
      ensures Value() == RollBack(old(Value()), c, verdict, act)
    {
      effects := effects + act.effects;
      if Approves(c, verdict) { lost := lost + [c.pending.value.approval]; }
    }

    method RunClaimed(now: int, i: nat, askFirst: bool, c: Run, verdict: Verdict, d: Delivery)
      requires i < |runs| && verdict == VerdictFor(Value(), runs[i])
      modifies this
      ensures var s := old(Value());
              Value() == match Activate(EnvOf(cfg, s, i, now, askFirst), c, verdict, s.desk, s.link, d)
                         case NotReady => s
                         case Began(a) => if a.fate.Aborted? then RollBack(s, c, verdict, a)
                                          else Commit(s.(tasks := s.tasks - multiset{i}), i, a)
    {
      hide Begin;
      hide Drive;
      hide Commit;
      hide RollBack;
      var act := new Activation(Env(cfg, now, askFirst, i, |approvals|, nextOp), c, desk, link);
      var ready := act.Resume(verdict, d);
      if ready {
        act.Loop(d.script);
        if act.fate.Aborted? {
          Forget(c, verdict, act.Value());
        } else {
          Consume(i);
          CommitActivation(i, act.Value());
        }
      }
    }

    /** A dead worker's run: fail it without asking the provider again. */
    method FailCrashed(now: int, i: nat, askFirst: bool)
      requires i < |runs|
      modifies this
      ensures var s := old(Value());
              Value() == Commit(s, i, CrashedAct(EnvOf(cfg, s, i, now, askFirst), s.runs[i], s.desk, s.link))
    {
      hide Commit;
      hide Fail;
      var act := new Activation(Env(cfg, now, askFirst, i, |approvals|, nextOp), runs[i], desk, link);
      act.Break();
      CommitActivation(i, act.Value());
    }

    method ExecuteRun(now: int, i: nat, askFirst: bool, d: Delivery)
      requires i < |runs|
      modifies this
      ensures Value() == Threads.Deliver(cfg, old(Value()), now, i, askFirst, d)
    {
      hide Activate;
      hide Commit;
      hide CrashedAct;
      hide VerdictFor;
      hide RollBack;
      hide EarlierActive;
      var r := runs[i];
      if r.status.Queued? {
        var earlier := HasEarlierActive(i);
        if earlier {
          Consume(i);
          return;
        }
        if !desk.AiQueue? {
          Consume(i);
          Store(i, r.(status := Canceled, updatedAt := now));
          return;
        }
      }
      match ClaimRun(r, now) {
        case Skip => Consume(i);
        case Crashed =>
          Consume(i);
          FailCrashed(now, i, askFirst);
        case Claimed(c) =>
          var verdict := ReadVerdict(r);
          RunClaimed(now, i, askFirst, c, verdict, d);
      }
    }

    // ---------------------------------------------------------------- answers from outside

    method SubmitClientResult(i: nat, opId: nat, result: PageResult, now: int) returns (accepted: bool)
      modifies this`runs, this`tasks
      ensures accepted <==> i < |old(runs)| && AwaitsOp(old(runs)[i], opId)
      ensures Value() == SubmitResult(old(Value()), i, opId, result, now)
    {
      if i >= |runs| { return false; }
      var r := runs[i];
      if !r.status.AwaitingClient? || r.pending.None? || !r.pending.value.ForPage? { return false; }
      if r.pending.value.opId != opId { return false; }
      Schedule(i);
      Store(i, WithAnswer(r, result, now));
      return true;
    }

    method RecordVerdict(a: nat, v: Verdict, now: int)
      requires a < |approvals|
      modifies this`approvals, this`runs, this`tasks
      ensures Value() == Rule(old(Value()), a, v, now)
    {
      var row := approvals[a];
      approvals := approvals[a := row.(verdict := v, decidedAt := Some(now))];
      if row.run < |runs| { Store(row.run, WithRuling(runs[row.run], a)); }
      Schedule(row.run);
    }

    method Decides(a: nat, approved: bool, now: int) returns (accepted: bool)
      modifies this`approvals, this`runs, this`tasks
      ensures accepted <==> a < |old(approvals)| && old(approvals)[a].verdict.Undecided?
      ensures Value() == DecideApproval(old(Value()), a, approved, now)
    {
      hide Rule;
      if a >= |approvals| || !approvals[a].verdict.Undecided? { return false; }
      var expired := approvals[a].expiresAt <= now;
      RecordVerdict(a, if expired then Expired else if approved then Approved else Rejected, now);
      return true;
    }

    method ExpireAllOverdue(now: int)
      modifies this`approvals, this`runs, this`tasks
      ensures Value() == ExpireFrom(old(Value()), 0, now)
    {
      hide Rule;
      ghost var start := Value();
      for a := 0 to |approvals|
        invariant |approvals| == |start.approvals|
        invariant ExpireFrom(Value(), a, now) == ExpireFrom(start, 0, now)
        modifies this`approvals, this`runs, this`tasks
      {
        ghost var before := Value();
        if Overdue(approvals[a], now) {
          RecordVerdict(a, Expired, now);
          assert |approvals| == |before.approvals| by { RuleKeepsCount(before, a, Expired, now); }
        }
      }
    }

    method SweepStaleClientWaits(now: int)
      modifies this`runs, this`tasks
      ensures Value() == SweepFrom(old(Value()), 0, now)
    {
      ghost var start := Value();
      for k := 0 to |runs|
        invariant |runs| == |start.runs|
        invariant SweepFrom(Value(), k, now) == SweepFrom(start, 0, now)
        modifies this`runs, this`tasks
      {
        if Stale(runs[k], now) {
          Schedule(k);
          Store(k, WithAnswer(runs[k], Readable("timed out", true), now));
        }
      }
    }

    method ReapStalledRuns(now: int)
      modifies this`tasks
      ensures Value() == ReapFrom(old(Value()), 0, now)
    {
      ghost var start := Value();
      for k := 0 to |runs|
        invariant ReapFrom(Value(), k, now) == ReapFrom(start, 0, now)
        modifies this`tasks
      {
        if Stalled(runs[k], now) { Schedule(k); }
      }
    }

    // ---------------------------------------------------------------- tour telemetry

    method ResolveGuideWait(i: nat, tour: string, event: TourEvent, now: int)
      modifies this
      ensures Value() == SettleGuide(old(Value()), i, tour, event, now)
    {
      hide OldestQueued;
      hide TourOf;
      if i >= |runs| || !AwaitsGuide(runs[i], tour) || event.StepEvent? { return; }
      var r := runs[i];
      settled := settled + [r.pending.value.opId];
      if event.TourStarted? {
        Schedule(i);
        Store(i, WithAnswer(r, Readable("playing", false), now));
      } else {
        Store(i, SilentlyClosed(r, now));
        hushed := hushed + {i};
        ChainNextQueued(i);
      }
    }

    method ProcessEvent(tour: string, event: TourEvent, now: int)
      modifies this
      ensures Value() == Track(old(Value()), tour, event, now)
    {
      hide SettleGuide;
      if event.StepEvent? || link.None? || link.value.tour != tour { return; }
      var linked := link.value;
      ResolveGuideWait(linked.run, tour, event, now);
      if event in linked.mirrored { return; }
      link := Some(linked.(mirrored := linked.mirrored + {event}));
      if !(event.TourStarted? && linked.announced) { lines := lines + [TourLine(linked.opId, event)]; }
    }

    // ---------------------------------------------------------------- histories

    /** Any event of a history is one of the entry points above. */
    method Take(e: Event)
      requires Enabled(Value(), e)
      modifies this
      ensures Value() == Next(cfg, old(Value()), e)
    {
      hide Receive;
      hide Threads.Deliver;
      hide SubmitResult;
      hide DecideApproval;
      hide ExpireFrom;
      hide SweepFrom;
      hide ReapFrom;
      hide Track;
      Tick(e.now);
      match e
      case Inbound(now, rid, live) => OnMessageCreated(now, rid, live);
      case Execute(now, i, askFirst, delivery) => ExecuteRun(now, i, askFirst, delivery);
      case Submit(now, i, opId, result) => var _ := SubmitClientResult(i, opId, result, now);
      case Decide(now, approval, approved) => var _ := Decides(approval, approved, now);
      case ExpireOverdue(now) => ExpireAllOverdue(now);
      case Sweep(now) => SweepStaleClientWaits(now);
      case Reap(now) => ReapStalledRuns(now);
      case Telemetry(now, tour, event) => ProcessEvent(tour, event, now);
      case SetDesk(_, to) => UpdateStatus(to);
      case Redeliver(_, i) => Schedule(i);
      case Drop(_, i) => Consume(i);
    }

    /** From a fresh thread, the entry points reach exactly the states the theorems speak of. */
    method Replay(history: seq<Event>)
      requires Value() == Empty
      requires forall k :: 0 <= k < |history| ==> Enabled(Threads.After(cfg, history[..k]), history[k])
      modifies this
      ensures Value() == Threads.After(cfg, history)
    {
      hide Next;
      hide Enabled;
      for k := 0 to |history|
        invariant Value() == Threads.After(cfg, history[..k])
      {
        assert history[..k + 1][..k] == history[..k];
        Take(history[k]);
      }
      assert history[..|history|] == history;
    }
  }

  lemma RuleKeepsCount(s: State, a: nat, v: Verdict, now: int)
    requires a < |s.approvals|
    ensures |Rule(s, a, v, now).approvals| == |s.approvals|
  {
  }
}
