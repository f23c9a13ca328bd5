/** One conversation's durable state and every atomic step that can change it: each function is one
    committed transaction of the engine. The clock only moves forward. */
module Threads {
  import opened Wrappers
  import opened Transcript
  import opened AgentRuns

  const LEASE_REAP_GRACE_SECONDS := 30
  const QUEUED_STALL_SECONDS := 120
  const CLIENT_OP_TIMEOUT_SECONDS := 90
  const ACTION_CONFIRM_TIMEOUT_SECONDS := 600

  /** An agent reply, stamped with the inbound message it answers. */
  datatype Post = Post(run: nat, trigger: nat)

  /** A transcript line about one playback of a linked tour. */
  datatype TourLine = TourLine(opId: nat, event: TourEvent)

  /** Rows first, then history: `stayed` says the thread has been in the AI queue ever since its newest
      run was created, `effects` is what the outside world saw, `lost` lists the approvals whose
      execution was rolled back, `settled` the guide waits telemetry settled, `hushed` the runs it closed. */
  datatype State = State(
    desk: Desk,
    runs: seq<Run>,
    approvals: seq<Approval>,
    tasks: multiset<nat>,
    posts: seq<Post>,
    link: Option<Link>,
    inbound: nat,
    nextOp: nat,
    clock: int,
    stayed: bool,
    effects: seq<Effect>,
    lost: seq<nat>,
    lines: seq<TourLine>,
    settled: seq<nat>,
    hushed: set<nat>)

  const Empty := State(Open, [], [], multiset{}, [], None, 0, 0, 0, false, [], [], [], [], {})

  datatype Event =
    | Inbound(now: int, rid: int, live: bool)
    | Execute(now: int, i: nat, askFirst: bool, delivery: Delivery)
    | Submit(now: int, i: nat, opId: nat, result: PageResult)
    | Decide(now: int, approval: nat, approved: bool)
    | ExpireOverdue(now: int)
    | Sweep(now: int)
    | Reap(now: int)
    | Telemetry(now: int, tour: string, event: TourEvent)
    | SetDesk(now: int, desk: Desk)
    | Redeliver(now: int, i: nat)
    | Drop(now: int, i: nat)

  // ------------------------------------------------------------------ order of runs

  /** `(created_at, id)` compared lexicographically. */
  predicate KeyLess(r: Run, q: Run) {
    r.createdAt < q.createdAt || (r.createdAt == q.createdAt && r.rid < q.rid)
  }

  predicate Active(r: Run) { r.status.Queued? || InFlight(r.status) }

  predicate EarlierActive(runs: seq<Run>, i: nat)
    requires i < |runs|
  {
    exists j :: 0 <= j < |runs| && j != i && Active(runs[j]) && KeyLess(runs[j], runs[i])
  }

  predicate AnyInFlight(runs: seq<Run>) { exists j :: 0 <= j < |runs| && InFlight(runs[j].status) }

  /** The queued run other than `done` with the least key among the first k. */
  function OldestQueued(runs: seq<Run>, done: nat, k: nat): (o: Option<nat>)
    requires k <= |runs|
    ensures o.Some? ==> o.value < k && o.value != done && runs[o.value].status.Queued?
    ensures o.None? ==> forall j :: 0 <= j < k && j != done ==> !runs[j].status.Queued?
    ensures o.Some? ==> forall j :: 0 <= j < k && j != done && runs[j].status.Queued? ==> !KeyLess(runs[j], runs[o.value])
  {
    if k == 0 then None
    else
      var best := OldestQueued(runs, done, k - 1);
      if runs[k - 1].status.Queued? && k - 1 != done && (best.None? || KeyLess(runs[k - 1], runs[best.value]))
      then Some(k - 1) else best
  }

  // ------------------------------------------------------------------ primitive updates

  function Enqueue(s: State, i: nat): State { s.(tasks := s.tasks + multiset{i}) }

  function Put(s: State, i: nat, r: Run): State
    requires i < |s.runs|
  {
    s.(runs := s.runs[i := r])
  }

  function MoveDesk(s: State, d: Desk): State { s.(desk := d, stayed := s.stayed && d.AiQueue?) }

  /** `_chain_next_queued`. */
  function Chain(s: State, done: nat): State {
    match OldestQueued(s.runs, done, |s.runs|)
    case None => s
    case Some(j) => Enqueue(s, j)
  }

  // ------------------------------------------------------------------ inbound message

  function Supersede(r: Run, now: int): Run {
    if r.status.Queued? then r.(status := Canceled, updatedAt := now) else r
  }

  function SupersedeFrom(s: State, k: nat, now: int): State
    requires k <= |s.runs|
    ensures |SupersedeFrom(s, k, now).runs| == |s.runs|
    decreases |s.runs| - k
  {
    if k == |s.runs| then s else SupersedeFrom(Put(s, k, Supersede(s.runs[k], now)), k + 1, now)
  }

  function NewRun(now: int, rid: int, trigger: nat): Run {
    Run(now, rid, trigger, Queued, None, None, now, None, None, [])
  }

  /** A fresh question reopens a resolved thread into the AI queue when its agent is live. */
  function Reopen(d: Desk, live: bool): Desk {
    match d
    case Resolved => if live then AiQueue else Open
    case Snoozed => Open
    case _ => d
  }

  /** `add_message` on an inbound message: the thread may reopen. */
  function Hear(s: State, live: bool): State {
    MoveDesk(s, Reopen(s.desk, live)).(inbound := s.inbound + 1)
  }

  /** Cancel-and-merge: queued runs give way to one new run, executed now or chained later. */
  function Merge(s: State, now: int, rid: int, trigger: nat): State {
    var u := SupersedeFrom(s, 0, now);
    var v := u.(runs := u.runs + [NewRun(now, rid, trigger)], stayed := true);
    if AnyInFlight(s.runs) then v else Enqueue(v, |s.runs|)
  }

  function Receive(s: State, now: int, rid: int, live: bool): State {
    var t := Hear(s, live);
    if t.desk.AiQueue? && live then Merge(t, now, rid, s.inbound) else t
  }

  // ------------------------------------------------------------------ executing a run

  function EnvOf(cfg: Config, s: State, i: nat, now: int, askFirst: bool): Env {
    Env(cfg, now, askFirst, i, |s.approvals|, s.nextOp)
  }

  function VerdictFor(s: State, r: Run): Verdict {
    if r.pending.Some? && r.pending.value.ForHuman? && r.pending.value.approval < |s.approvals|
    then s.approvals[r.pending.value.approval].verdict else Rejected
  }

  /** Commit an activation that stopped: the row, what it raised and what it posted. */
  function Commit(s: State, i: nat, a: Act): State
    requires i < |s.runs|
  {
    if a.fate.Finished? then Chain(Record(s, i, a), i) else Record(s, i, a)
  }

  function Record(s: State, i: nat, a: Act): State
    requires i < |s.runs|
  {
    Annex(MoveDesk(Put(s, i, a.run), a.desk), i, a)
  }

  /** The request, link, effects and reply an activation brings with its row. */
  function Annex(s: State, i: nat, a: Act): State {
    s.(approvals := s.approvals + (if a.raised.Some? then [a.raised.value] else []),
       link := a.link,
       nextOp := s.nextOp + 1,
       effects := s.effects + a.effects,
       posts := s.posts + (if a.fate.Finished? && a.fate.posted then [Post(i, a.run.trigger)] else []))
  }

  /** Roll an activation back: no row changes and the task stays, but the world has seen its effects. */
  function RollBack(s: State, r: Run, verdict: Verdict, a: Act): State {
    s.(effects := s.effects + a.effects,
       lost := s.lost + (if Approves(r, verdict) then [r.pending.value.approval] else []))
  }

  /** `_fail` on a run whose worker died: no provider call, straight to a human. */
  function CrashedAct(env: Env, r: Run, desk: Desk, link: Option<Link>): Act {
    Fail(env, Act(r, [], desk, 0, 0, [], [], None, link, Working))
  }

  /** Deliver one `execute_agent_run` task. */
  function Deliver(cfg: Config, s: State, now: int, i: nat, askFirst: bool, d: Delivery): State
    requires i < |s.runs|
  {
    var r := s.runs[i];
    var t := s.(tasks := s.tasks - multiset{i});
    var env := EnvOf(cfg, s, i, now, askFirst);
    if r.status.Queued? && EarlierActive(s.runs, i) then t
    else if r.status.Queued? && !s.desk.AiQueue? then Put(t, i, r.(status := Canceled, updatedAt := now))
    else
      match ClaimRun(r, now)
      case Skip => t
      case Crashed => Commit(t, i, CrashedAct(env, r, s.desk, s.link))
      case Claimed(c) =>
        var verdict := VerdictFor(s, r);
        match Activate(env, c, verdict, s.desk, s.link, d)
        case NotReady => s
        case Began(a) => if a.fate.Aborted? then RollBack(s, c, verdict, a) else Commit(t, i, a)
  }

  // ------------------------------------------------------------------ answers from outside

  function WithAnswer(r: Run, result: PageResult, now: int): Run
    requires r.pending.Some? && r.pending.value.ForPage?
  {
    r.(pending := Some(r.pending.value.(result := Some(result))), updatedAt := now)
  }

  predicate AwaitsOp(r: Run, opId: nat) {
    r.status.AwaitingClient? && r.pending.Some? && r.pending.value.ForPage? && r.pending.value.opId == opId
  }

  /** `submit_client_result`; a run that is not waiting for this op is a conflict and nothing changes. */
  function SubmitResult(s: State, i: nat, opId: nat, result: PageResult, now: int): State {
    if i < |s.runs| && AwaitsOp(s.runs[i], opId)
    then Put(Enqueue(s, i), i, WithAnswer(s.runs[i], result, now)) else s
  }

  function WithRuling(r: Run, approval: nat): Run { r.(trace := r.trace + [Ruled(approval)]) }

  /** Record a verdict, note it in the run's trace and wake the run. */
  function Rule(s: State, a: nat, v: Verdict, now: int): State
    requires a < |s.approvals|
  {
    var row := s.approvals[a];
    var t := Enqueue(s.(approvals := s.approvals[a := row.(verdict := v, decidedAt := Some(now))]), row.run);
    if row.run < |s.runs| then Put(t, row.run, WithRuling(s.runs[row.run], a)) else t
  }

  predicate Overdue(row: Approval, now: int) { row.verdict.Undecided? && row.expiresAt <= now }

  function DecideApproval(s: State, a: nat, approved: bool, now: int): State {
    if a < |s.approvals| && s.approvals[a].verdict.Undecided? then
      Rule(s, a, if s.approvals[a].expiresAt <= now then Expired else if approved then Approved else Rejected, now)
    else s
  }

  function ExpireFrom(s: State, a: nat, now: int): State
    requires a <= |s.approvals|
    decreases |s.approvals| - a
  {
    if a == |s.approvals| then s
    else ExpireFrom(if Overdue(s.approvals[a], now) then Rule(s, a, Expired, now) else s, a + 1, now)
  }

  /** Has the page kept this run waiting too long? A confirm card gets minutes, not seconds. */
  predicate Stale(r: Run, now: int) {
    r.status.AwaitingClient? && r.updatedAt <= now - CLIENT_OP_TIMEOUT_SECONDS
    && r.pending.Some? && r.pending.value.ForPage? && r.pending.value.result.None?
    && (r.pending.value.op.Action? ==> r.updatedAt <= now - ACTION_CONFIRM_TIMEOUT_SECONDS)
  }

  function SweepFrom(s: State, k: nat, now: int): State
    requires k <= |s.runs|
    decreases |s.runs| - k
  {
    if k == |s.runs| then s
    else SweepFrom(if Stale(s.runs[k], now)
                   then Put(Enqueue(s, k), k, WithAnswer(s.runs[k], Readable("timed out", true), now)) else s,
                   k + 1, now)
  }

  predicate Stalled(r: Run, now: int) {
    (r.status.Running? && r.lease.Some? && r.lease.value <= now - LEASE_REAP_GRACE_SECONDS)
    || (r.status.Queued? && r.updatedAt <= now - QUEUED_STALL_SECONDS)
  }

  function ReapFrom(s: State, k: nat, now: int): State
    requires k <= |s.runs|
    decreases |s.runs| - k
  {
    if k == |s.runs| then s
    else ReapFrom(if Stalled(s.runs[k], now) then Enqueue(s, k) else s, k + 1, now)
  }

  // ------------------------------------------------------------------ tour telemetry

  predicate AwaitsGuide(r: Run, tour: string) {
    r.status.AwaitingClient? && r.pending.Some? && r.pending.value.ForPage? && r.pending.value.op.Guide?
    && r.pending.value.result.None? && TourOf(r.pending.value.input) == tour
  }

  function SilentlyClosed(r: Run, now: int): Run
    requires r.pending.Some?
  {
    r.(trace := r.trace + [Got(r.pending.value.name)], pending := None, snapshot := None,
       status := Completed, lease := None, updatedAt := now)
  }

  /** `resolve_guide_wait`. */
  function SettleGuide(s: State, i: nat, tour: string, event: TourEvent, now: int): State {
    if i < |s.runs| && AwaitsGuide(s.runs[i], tour) then
      var r := s.runs[i];
      var t := s.(settled := s.settled + [r.pending.value.opId]);
      match event
      case TourStarted => Put(Enqueue(t, i), i, WithAnswer(r, Readable("playing", false), now))
      case StepEvent => s
      case _ => Chain(Put(t, i, SilentlyClosed(r, now)).(hushed := s.hushed + {i}), i)
    else s
  }

  /** `process_event` on the conversation its link points at. */
  function Track(s: State, tour: string, event: TourEvent, now: int): State {
    if event.StepEvent? || s.link.None? || s.link.value.tour != tour then s
    else
      var link := s.link.value;
      var t := SettleGuide(s, link.run, tour, event, now);
      if event in link.mirrored then t
      else
        t.(link := Some(link.(mirrored := link.mirrored + {event})),
           lines := t.lines + (if event.TourStarted? && link.announced then [] else [TourLine(link.opId, event)]))
  }

  // ------------------------------------------------------------------ the machine

  /** What an event needs to be a legal step: time moves forward, new runs have the greatest key,
      and only tasks that are outstanding can be delivered or lost. */
  predicate Enabled(s: State, e: Event) {
    s.clock <= e.now
    && match e
       case Inbound(now, rid, _) => forall j :: 0 <= j < |s.runs| ==> KeyLess(s.runs[j], NewRun(now, rid, s.inbound))
       case Execute(_, i, _, _) => i < |s.runs| && i in s.tasks
       case Redeliver(_, i) => i < |s.runs|
       case Drop(_, i) => i in s.tasks
       case _ => true
  }

  function Apply(cfg: Config, s: State, e: Event): State
    requires Enabled(s, e)
  {
    match e
    case Inbound(now, rid, live) => Receive(s, now, rid, live)
    case Execute(now, i, askFirst, d) => Deliver(cfg, s, now, i, askFirst, d)
    case Submit(now, i, opId, result) => SubmitResult(s, i, opId, result, now)
    case Decide(now, a, approved) => DecideApproval(s, a, approved, now)
    case ExpireOverdue(now) => ExpireFrom(s, 0, now)
    case Sweep(now) => SweepFrom(s, 0, now)
    case Reap(now) => ReapFrom(s, 0, now)
    case Telemetry(now, tour, event) => Track(s, tour, event, now)
    case SetDesk(_, d) => MoveDesk(s, d)
    case Redeliver(_, i) => Enqueue(s, i)
    case Drop(_, i) => s.(tasks := s.tasks - multiset{i})
  }

  /** An event that is not enabled leaves the thread alone. */
  function Next(cfg: Config, s: State, e: Event): State {
    if Enabled(s, e) then Apply(cfg, s.(clock := e.now), e) else s
  }

  /** Every reachable state is the result of some history. */
  function After(cfg: Config, history: seq<Event>): State {
    if history == [] then Empty else Next(cfg, After(cfg, history[..|history| - 1]), history[|history| - 1])
  }
}
