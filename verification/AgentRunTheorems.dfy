/** What every activation keeps: settled transcripts, budgets, legal rows, and the end of the loop. */
module AgentRunTheorems {
  import opened Wrappers
  import opened Transcript
  import opened AgentRuns

  // ------------------------------------------------------------------ what an activation keeps

  predicate AllSettled(sent: seq<seq<Msg>>) { forall k :: 0 <= k < |sent| ==> Settled(sent[k]) }

  /** Same row: identity, trigger and creation key never change. */
  predicate SameRow(r: Run, q: Run) { r.createdAt == q.createdAt && r.rid == q.rid && r.trigger == q.trigger }

  /** The loop invariant: nothing pending, nothing owed, `used` covers the trace and the trips made. */
  predicate Looping(env: Env, a: Act) { Busy(env, a) && a.safety <= a.used }

  /** The same inside an iteration, whose trip is already counted. */
  predicate Busy(env: Env, a: Act) {
    a.fate.Working? && a.run.status.Running? && a.run.pending.None? && a.run.snapshot.None?
    && Settled(a.msgs) && AllSettled(a.sent)
    && WithinBudget(env.cfg, a.run.trace) && ToolCallsIn(a.run.trace) <= a.used <= MaxToolCalls(env.cfg)
    && a.safety <= a.used + 1
  }

  predicate SnapshotOwes(snapshot: Option<seq<Json>>, id: string) {
    snapshot.Some? && DeserializeMessages(snapshot).Some?
    && Owes(DeserializeMessages(snapshot).value, id)
  }

  /** A run parked on a human: one open call, room for the tool call it will make on approval. */
  predicate ParkedForHuman(cfg: Config, r: Run) {
    r.status.AwaitingApproval? && r.pending.Some? && r.pending.value.ForHuman? && r.lease.None?
    && SnapshotOwes(r.snapshot, r.pending.value.id) && ToolCallsIn(r.trace) < MaxToolCalls(cfg)
  }

  predicate ParkedForPage(r: Run) {
    r.status.AwaitingClient? && r.pending.Some? && r.pending.value.ForPage? && r.lease.None?
    && SnapshotOwes(r.snapshot, r.pending.value.id)
  }

  predicate Closed(r: Run) { Terminal(r.status) && r.pending.None? && r.snapshot.None? && r.lease.None? }

  /** What the engine may commit for one run, whatever has happened to it. */
  predicate RunOk(cfg: Config, r: Run) {
    WithinBudget(cfg, r.trace)
    && match r.status
       case Queued => r.pending.None? && r.snapshot.None? && r.lease.None?
       case Running => r.pending.None? && r.snapshot.None?
       case AwaitingApproval => ParkedForHuman(cfg, r)
       case AwaitingClient => ParkedForPage(r)
       case _ => Closed(r)
  }

  /** An activation that stops has committed a legal row, and told the provider only settled transcripts. */
  predicate Stopped(env: Env, a: Act) {
    AllSettled(a.sent)
    && match a.fate
       case Working => false
       case Aborted => true
       case Parked => RunOk(env.cfg, a.run) && InFlight(a.run.status) && !a.run.status.Running?
       case Finished(posted) =>
         RunOk(env.cfg, a.run) && Terminal(a.run.status) && !a.run.status.Canceled?
         && (posted || !a.desk.AiQueue?)
  }

  predicate Sound(env: Env, a: Act) { Looping(env, a) || Stopped(env, a) }

  lemma LogKeepsBudget(cfg: Config, trace: seq<Step>, s: Step)
    requires WithinBudget(cfg, trace) && !s.Called? && !s.AskedPage?
    ensures WithinBudget(cfg, trace + [s]) && ToolCallsIn(trace + [s]) == ToolCallsIn(trace)
  {
    TraceSnoc(cfg, trace, s);
  }

  lemma CallSpendsBudget(cfg: Config, trace: seq<Step>, tool: string)
    requires WithinBudget(cfg, trace) && ToolCallsIn(trace) < MaxToolCalls(cfg)
    ensures WithinBudget(cfg, trace + [Called(tool)] + [Got(tool)])
    ensures ToolCallsIn(trace + [Called(tool)] + [Got(tool)]) == ToolCallsIn(trace) + 1
  {
    TraceSnoc(cfg, trace, Called(tool));
    TraceSnoc(cfg, trace + [Called(tool)], Got(tool));
  }

  lemma FallbackStops(env: Env, a: Act, guardrail: bool)
    requires Busy(env, a)
    ensures Stopped(env, Fallback(env, a, guardrail))
  {
    hide ToolCallsIn;
    hide RequestsIn;
    hide Settled;
    LogKeepsBudget(env.cfg, a.run.trace, Tripped);
    LogKeepsBudget(env.cfg, a.run.trace + [Tripped], PassedOn);
    LogKeepsBudget(env.cfg, a.run.trace, PassedOn);
  }

  lemma FailStops(env: Env, a: Act)
    requires a.run.pending.None? && a.run.snapshot.None? && AllSettled(a.sent) && WithinBudget(env.cfg, a.run.trace)
    ensures Stopped(env, Fail(env, a))
  {
    hide ToolCallsIn;
    hide RequestsIn;
    hide Settled;
    LogKeepsBudget(env.cfg, a.run.trace, Erred);
    LogKeepsBudget(env.cfg, a.run.trace + [Erred], PassedOn);
  }

  lemma ReplyStops(env: Env, a: Act)
    requires Busy(env, a)
    ensures Stopped(env, FinalReply(env, a))
  {
    hide ToolCallsIn;
    hide RequestsIn;
    hide Settled;
    LogKeepsBudget(env.cfg, a.run.trace, Answered);
  }

  /** Between recording a call and answering it. */
  predicate Asking(env: Env, a: Act, id: string) {
    a.fate.Working? && a.run.status.Running? && a.run.pending.None? && a.run.snapshot.None?
    && Owes(a.msgs, id) && AllSettled(a.sent)
    && WithinBudget(env.cfg, a.run.trace) && ToolCallsIn(a.run.trace) < a.used <= MaxToolCalls(env.cfg)
    && a.safety <= a.used
  }

  lemma NoteAsks(env: Env, a: Act, text: Option<string>, first: ToolCall, rest: seq<ToolCall>)
    requires Busy(env, a) && a.used < MaxToolCalls(env.cfg)
    ensures Asking(env, Note(a, text, first, rest), first.id)
  {
    hide ToolCallsIn;
    hide RequestsIn;
    AskedOwesFirst(a.msgs, text, first, rest);
  }

  lemma AnswerHereLoops(env: Env, a: Act, call: ToolCall, text: string, isError: bool)
    requires Asking(env, a, call.id)
    ensures Looping(env, AnswerHere(a, call, text, isError))
  {
    hide ToolCallsIn;
    hide RequestsIn;
    hide Owed;
    CallSpendsBudget(env.cfg, a.run.trace, call.name);
    AnswerSettles(a.msgs, call.id, text, isError);
  }

  lemma PerformSound(env: Env, a: Act, call: ToolCall, approval: Option<nat>, o: Outcome)
    requires Asking(env, a, call.id)
    ensures Sound(env, Perform(env, a, call, approval, o))
  {
    hide ToolCallsIn;
    hide RequestsIn;
    hide Owed;
    CallSpendsBudget(env.cfg, a.run.trace, call.name);
    AnswerSettles(a.msgs, call.id, o.text, o.Plain? && o.isError);
    var trace := a.run.trace + [Called(call.name)] + [Got(call.name)];
    LogKeepsBudget(env.cfg, trace, PassedOn);
    LogKeepsBudget(env.cfg, trace, Answered);
  }

  lemma SnapshotKeeps(ms: seq<Msg>, id: string)
    requires Owes(ms, id)
    ensures SnapshotOwes(Some(SerializeMessages(ms)), id)
  {
    MessagesRoundTrip(ms);
  }

  lemma ApprovalPauseStops(env: Env, a: Act, call: ToolCall)
    requires Asking(env, a, call.id)
    ensures Stopped(env, PauseForApproval(env, a, call))
  {
    hide ToolCallsIn;
    hide RequestsIn;
    hide Owes;
    hide SnapshotOwes;
    hide Settled;
    SnapshotKeeps(a.msgs, call.id);
    LogKeepsBudget(env.cfg, a.run.trace, AskedHuman(call.name, env.nextApproval));
  }

  lemma RequestSpendsBudget(cfg: Config, trace: seq<Step>, tool: string, opId: nat, kind: ClientTool)
    requires WithinBudget(cfg, trace) && IsKind(cfg, tool, kind) && !OverBudget(cfg, trace, kind)
    ensures WithinBudget(cfg, trace + [AskedPage(tool, opId)])
  {
    TraceSnoc(cfg, trace, AskedPage(tool, opId));
  }

  lemma ClientPauseStops(env: Env, a: Act, asked: Asked, kind: ClientTool)
    requires Asking(env, a, asked.call.id)
    requires IsKind(env.cfg, asked.call.name, kind) && !OverBudget(env.cfg, a.run.trace, kind)
    ensures Stopped(env, PauseForClient(env, a, asked, kind))
  {
    hide ToolCallsIn;
    hide RequestsIn;
    hide Owes;
    hide SnapshotOwes;
    hide Settled;
    SnapshotKeeps(a.msgs, asked.call.id);
    RequestSpendsBudget(env.cfg, a.run.trace, asked.call.name, env.nextOp, kind);
  }

  lemma DisabledLoops(env: Env, a: Act, call: ToolCall)
    requires Asking(env, a, call.id)
    ensures Looping(env, Hear(Log(a, Got(call.name)), ResultMsg(call.id, "tool disabled", true)))
  {
    hide ToolCallsIn;
    hide RequestsIn;
    hide Owed;
    LogKeepsBudget(env.cfg, a.run.trace, Got(call.name));
    AnswerSettles(a.msgs, call.id, "tool disabled", true);
  }

  lemma UseToolSound(env: Env, a: Act, asked: Asked)
    requires Asking(env, a, asked.call.id)
    ensures Sound(env, UseTool(env, a, asked))
  {
    hide Asking;
    hide Looping;
    hide Stopped;
    hide Perform;
    hide PauseForApproval;
    hide PauseForClient;
    hide AnswerHere;
    hide OverBudget;
    var call := asked.call;
    match PolicyOf(env.cfg, call.name) {
      case Disabled => DisabledLoops(env, a, call);
      case RequireApproval => ApprovalPauseStops(env, a, call);
      case Auto =>
        if call.name in env.cfg.clients {
          var kind := env.cfg.clients[call.name];
          AnswerHereLoops(env, a, call, "offer", !asked.tourLive || TourOf(call.input) == "");
          AnswerHereLoops(env, a, call, "refused", true);
          if !OverBudget(env.cfg, a.run.trace, kind) {
            ClientPauseStops(env, a, asked, kind);
          }
        } else {
          PerformSound(env, a, call, None, asked.outcome);
        }
    }
  }

  lemma ThoughtLoops(env: Env, a: Act)
    requires Busy(env, a)
    ensures Busy(env, Log(a, Thought))
  {
    hide ToolCallsIn;
    hide RequestsIn;
    hide Settled;
    LogKeepsBudget(env.cfg, a.run.trace, Thought);
  }

  lemma EnterLoops(env: Env, a: Act)
    requires Looping(env, a)
    ensures Busy(env, Enter(a)) && Busy(env, Send(Enter(a)))
  {
  }

  lemma ReactSound(env: Env, a: Act, t: Turn)
    requires Busy(env, a)
    ensures Sound(env, React(env, a, t))
  {
    ThoughtLoops(env, a);
    hide Busy;
    hide Looping;
    hide Stopped;
    hide Log;
    hide Fallback;
    hide Fail;
    hide FinalReply;
    hide Obey;
    match t
    case Down => AbortStops(env, a);
    case Breaks => BreakStops(env, a);
    case Says(text) =>
      FallbackStops(env, Log(a, Thought), false);
      ReplyStops(env, Log(a, Thought));
    case Calls(aside, first, rest) => ObeySound(env, Log(a, Thought), aside, first, rest);
  }

  lemma TakeTurnSound(env: Env, a: Act, t: Turn)
    requires Looping(env, a)
    ensures Sound(env, TakeTurn(env, a, t))
  {
    EnterLoops(env, a);
    hide Busy;
    hide Looping;
    hide Stopped;
    hide Fallback;
    hide React;
    FallbackStops(env, Enter(a), true);
    ReactSound(env, Send(Enter(a)), t);
  }

  lemma AbortStops(env: Env, a: Act)
    requires Busy(env, a)
    ensures Stopped(env, a.(fate := Aborted))
  {
  }

  lemma BreakStops(env: Env, a: Act)
    requires Busy(env, a)
    ensures Stopped(env, Fail(env, a))
  {
    FailStops(env, a);
  }

  lemma ObeySound(env: Env, a: Act, aside: Option<string>, first: Asked, rest: seq<ToolCall>)
    requires Busy(env, a)
    ensures Sound(env, Obey(env, a, aside, first, rest))
  {
    FallbackStops(env, a, true);
    if a.used < MaxToolCalls(env.cfg) {
      NoteAsks(env, a, aside, first.call, rest);
      UseToolSound(env, Note(a, aside, first.call, rest), first);
    }
  }

  /** Whatever the provider and the tools do, an activation only ever sends settled transcripts,
      stays within every budget, and commits a legal row. */
  lemma {:induction false} DriveStops(env: Env, a: Act, script: seq<Turn>)
    requires Sound(env, a)
    ensures Stopped(env, Drive(env, a, script))
    decreases |script|
  {
    hide TakeTurn;
    hide Settled;
    hide WithinBudget;
    if a.fate.Working? && script != [] {
      TakeTurnSound(env, a, script[0]);
      DriveStops(env, TakeTurn(env, a, script[0]), script[1..]);
    }
  }

  // ------------------------------------------------------------------ the backstop and termination

  /** The loop without its absolute backstop. */
  function Unbounded(env: Env, a: Act, script: seq<Turn>): Act
    decreases |script|
  {
    if !a.fate.Working? then a
    else if script == [] then a.(fate := Aborted)
    else Unbounded(env, React(env, Send(Enter(a)), script[0]), script[1..])
  }

  /** The guardrail on tool calls always ends the loop first: the backstop changes nothing. */
  lemma {:induction false} BackstopNeverFires(env: Env, a: Act, script: seq<Turn>)
    requires Sound(env, a)
    ensures Drive(env, a, script) == Unbounded(env, a, script)
    decreases |script|
  {
    hide React;
    hide Fallback;
    hide WithinBudget;
    hide Settled;
    hide RunOk;
    if a.fate.Working? && script != [] {
      TakeTurnSound(env, a, script[0]);
      assert TakeTurn(env, a, script[0]) == React(env, Send(Enter(a)), script[0]);
      BackstopNeverFires(env, TakeTurn(env, a, script[0]), script[1..]);
    }
  }

  lemma UseToolCounts(env: Env, a: Act, asked: Asked)
    requires a.fate.Working?
    ensures var b := UseTool(env, a, asked); b.used == a.used && b.sent == a.sent && !b.fate.Aborted?
  {
    hide OverBudget;
    hide SerializeMessages;
    hide PolicyOf;
    hide DeskAfter;
  }

  /** A turn either stops the loop or spends one of the remaining tool calls. */
  lemma TurnSpends(env: Env, a: Act, t: Turn)
    requires a.fate.Working?
    ensures var b := TakeTurn(env, a, t); b.fate.Working? ==> b.used == a.used + 1 && a.used < MaxToolCalls(env.cfg)
    ensures TakeTurn(env, a, t).fate.Aborted? ==> t.Down?
    ensures |TakeTurn(env, a, t).sent| <= |a.sent| + 1
  {
    hide UseTool;
    hide MaxToolCalls;
    hide Refusals;
    if t.Calls? { UseToolCounts(env, Note(Log(Send(Enter(a)), Thought), t.aside, t.first.call, t.rest), t.first); }
  }

  predicate Reachable(script: seq<Turn>) { forall k :: 0 <= k < |script| ==> !script[k].Down? }

  /** Termination: the provider is called at most once per remaining tool call and once more, so a
      script of that many non-retryable answers always reaches a park or a terminal status. */
  lemma {:induction false} DriveEnds(env: Env, a: Act, script: seq<Turn>)
    requires Sound(env, a) && a.used <= MaxToolCalls(env.cfg)
    ensures |Drive(env, a, script).sent| <= |a.sent| + MaxToolCalls(env.cfg) + 1 - a.used
    ensures !a.fate.Aborted? && Reachable(script) && |script| > MaxToolCalls(env.cfg) - a.used
            ==> !Drive(env, a, script).fate.Aborted?
    decreases |script|
  {
    hide TakeTurn;
    hide WithinBudget;
    hide Settled;
    hide RunOk;
    hide AllSettled;
    if a.fate.Working? && script != [] {
      var b := TakeTurn(env, a, script[0]);
      TakeTurnSound(env, a, script[0]);
      TurnSpends(env, a, script[0]);
      if b.fate.Working? {
        DriveEnds(env, b, script[1..]);
      }
    }
  }

  // ------------------------------------------------------------------ when an activation is rolled back

  /** The provider fails retryably, or stops answering, while the loop still has something to ask it. */
  predicate GoesDown(env: Env, a: Act, script: seq<Turn>)
    decreases |script|
  {
    a.fate.Working? && (script == [] || script[0].Down? || GoesDown(env, TakeTurn(env, a, script[0]), script[1..]))
  }

  lemma DownAborts(env: Env, a: Act)
    requires Looping(env, a)
    ensures TakeTurn(env, a, Down).fate.Aborted?
  {
    hide WithinBudget;
    hide Settled;
    hide MaxToolCalls;
    hide ToolCallsIn;
  }

  lemma AbortedStays(env: Env, a: Act, script: seq<Turn>)
    requires a.fate.Aborted?
    ensures Drive(env, a, script).fate.Aborted?
  {
  }

  /** A loop is rolled back exactly when the provider goes down on it. */
  lemma {:induction false} DriveAbortsExactly(env: Env, a: Act, script: seq<Turn>)
    requires Sound(env, a) && !a.fate.Aborted?
    ensures Drive(env, a, script).fate.Aborted? <==> GoesDown(env, a, script)
    decreases |script|
  {
    hide TakeTurn;
    hide WithinBudget;
    hide Settled;
    hide RunOk;
    hide AllSettled;
    if a.fate.Working? && script != [] {
      var b := TakeTurn(env, a, script[0]);
      if script[0].Down? {
        DownAborts(env, a);
        AbortedStays(env, b, script[1..]);
      } else {
        TakeTurnSound(env, a, script[0]);
        TurnSpends(env, a, script[0]);
        DriveAbortsExactly(env, b, script[1..]);
      }
    }
  }

  // ------------------------------------------------------------------ what an activation may touch

  /** A tool the loop runs on its own: no approval, policy auto, executed on the server. */
  predicate Unattended(env: Env, e: Effect) {
    e.approval.None? && PolicyOf(env.cfg, e.name).Auto? && e.name !in env.cfg.clients
    && e.run == env.self && e.at == env.now
  }

  /** Everything executed is unattended, bar the one approved call a resume opens with. */
  predicate EffectsOk(env: Env, gate: Option<Effect>, effects: seq<Effect>) {
    match gate
    case None => forall k :: 0 <= k < |effects| ==> Unattended(env, effects[k])
    case Some(e) => effects != [] && effects[0] == e && forall k :: 1 <= k < |effects| ==> Unattended(env, effects[k])
  }

  /** The request row a park on a human commits is the one its pending call names. */
  predicate RaisedOk(env: Env, a: Act) {
    if a.fate.Parked? && a.run.status.AwaitingApproval? then
      a.run.pending.Some? && a.run.pending.value.ForHuman?
      && a.run.pending.value.approval == env.nextApproval
      && a.raised == Some(Approval(env.self, a.run.pending.value.name, a.run.pending.value.input,
                                   a.run.pending.value.id, Undecided, env.now + APPROVAL_TTL_SECONDS, None))
    else a.raised.None?
  }

  /** A park on the page uses the fresh op id and has no answer yet. */
  predicate ParkOk(env: Env, a: Act) {
    a.fate.Parked? && a.run.status.AwaitingClient? ==>
      a.run.pending.Some? && a.run.pending.value.ForPage? && a.run.pending.value.opId == env.nextOp
      && a.run.pending.value.result.None?
  }

  predicate LinkOk(env: Env, was: Option<Link>, a: Act) {
    a.link == was
    || (a.fate.Parked? && a.link.Some? && a.link.value.opId == env.nextOp && a.link.value.mirrored == {}
        && a.link.value.run == env.self)
  }

  predicate Footprint(env: Env, was: Run, gate: Option<Effect>, link: Option<Link>, a: Act) {
    SameRow(was, a.run) && EffectsOk(env, gate, a.effects) && RaisedOk(env, a) && ParkOk(env, a)
    && LinkOk(env, link, a)
  }

  lemma UseToolEffects(env: Env, gate: Option<Effect>, a: Act, asked: Asked)
    requires a.fate.Working? && EffectsOk(env, gate, a.effects)
    ensures EffectsOk(env, gate, UseTool(env, a, asked).effects)
  {
    hide OverBudget;
    hide SerializeMessages;
    hide DeskAfter;
  }

  lemma UseToolParks(env: Env, was: Run, link: Option<Link>, a: Act, asked: Asked)
    requires a.fate.Working? && SameRow(was, a.run) && RaisedOk(env, a) && ParkOk(env, a) && LinkOk(env, link, a)
    ensures var b := UseTool(env, a, asked); SameRow(was, b.run) && RaisedOk(env, b) && ParkOk(env, b) && LinkOk(env, link, b)
  {
    hide OverBudget;
    hide SerializeMessages;
    hide DeskAfter;
    hide PolicyOf;
  }

  lemma UseToolFootprint(env: Env, was: Run, gate: Option<Effect>, link: Option<Link>, a: Act, asked: Asked)
    requires a.fate.Working? && Footprint(env, was, gate, link, a)
    ensures Footprint(env, was, gate, link, UseTool(env, a, asked))
  {
    hide UseTool;
    hide EffectsOk;
    hide RaisedOk;
    hide ParkOk;
    hide LinkOk;
    UseToolEffects(env, gate, a, asked);
    UseToolParks(env, was, link, a, asked);
  }

  lemma TurnFootprint(env: Env, was: Run, gate: Option<Effect>, link: Option<Link>, a: Act, t: Turn)
    requires a.fate.Working? && Footprint(env, was, gate, link, a)
    ensures Footprint(env, was, gate, link, TakeTurn(env, a, t))
  {
    hide UseTool;
    hide Refusals;
    hide MaxToolCalls;
    if t.Calls? && a.used < MaxToolCalls(env.cfg) {
      var c := Note(Log(Send(Enter(a)), Thought), t.aside, t.first.call, t.rest);
      UseToolFootprint(env, was, gate, link, c, t.first);
    }
  }

  lemma {:induction false} DriveFootprint(env: Env, was: Run, gate: Option<Effect>, link: Option<Link>, a: Act, script: seq<Turn>)
    requires Footprint(env, was, gate, link, a)
    ensures Footprint(env, was, gate, link, Drive(env, a, script))
    decreases |script|
  {
    hide TakeTurn;
    if a.fate.Working? && script != [] {
      TurnFootprint(env, was, gate, link, a, script[0]);
      DriveFootprint(env, was, gate, link, TakeTurn(env, a, script[0]), script[1..]);
    }
  }

  // ------------------------------------------------------------------ what a resume restores

  /** The one gated effect a resume opens with. */
  function GateOf(env: Env, r: Run, verdict: Verdict): Option<Effect> {
    if Approves(r, verdict) then
      var p := r.pending.value;
      Some(Effect(env.self, p.id, p.name, p.input, Some(p.approval), env.now))
    else None
  }

  /** Legal rows as they look just after the claim. */
  predicate Claimable(cfg: Config, r: Run) {
    r.status.Running? && WithinBudget(cfg, r.trace)
    && match r.pending
       case None => r.snapshot.None?
       case Some(p) => SnapshotOwes(r.snapshot, p.id) && (p.ForHuman? ==> ToolCallsIn(r.trace) < MaxToolCalls(cfg))
  }

  lemma ClaimLegal(cfg: Config, r: Run, now: int)
    requires RunOk(cfg, r) && ClaimRun(r, now).Claimed?
    ensures Claimable(cfg, ClaimRun(r, now).run) && SameRow(r, ClaimRun(r, now).run)
  {
    hide SnapshotOwes;
    hide WithinBudget;
  }

  lemma FreshSound(env: Env, r: Run, desk: Desk, link: Option<Link>, d: Delivery)
    requires Claimable(env.cfg, r) && r.pending.None?
    ensures Looping(env, Fresh(env, r, Opening(d.prompt, d.lines), ToolCallsIn(r.trace), desk, link))
  {
    hide ToolCallsIn;
    hide RequestsIn;
    hide Settled;
    hide Opening;
    OpeningSettled(d.prompt, d.lines);
  }

  lemma AnsweredSound(env: Env, a: Act, id: string, name: string, text: string, isError: bool)
    requires a.fate.Working? && a.run.status.Running? && a.run.pending.None? && a.run.snapshot.None?
    requires Owes(a.msgs, id) && a.sent == [] && a.safety == 0
    requires WithinBudget(env.cfg, a.run.trace) && a.used == ToolCallsIn(a.run.trace)
    ensures Looping(env, Hear(Log(a, Got(name)), ResultMsg(id, text, isError)))
  {
    hide ToolCallsIn;
    hide RequestsIn;
    hide Owed;
    LogKeepsBudget(env.cfg, a.run.trace, Got(name));
    AnswerSettles(a.msgs, id, text, isError);
  }

  /** Resuming restores the loop invariant, whatever was parked. */
  lemma BeginSound(env: Env, r: Run, verdict: Verdict, desk: Desk, link: Option<Link>, d: Delivery)
    requires Claimable(env.cfg, r)
    ensures var b := Begin(env, r, verdict, desk, link, d); b.Began? ==> Sound(env, b.act)
  {
    hide Looping;
    hide Stopped;
    hide Owes;
    hide WithinBudget;
    hide ToolCallsIn;
    hide Opening;
    hide Perform;
    if r.pending.None? {
      FreshSound(env, r, desk, link, d);
    } else {
      var p := r.pending.value;
      var a := Resumed(env, r, DeserializeMessages(r.snapshot).value, ToolCallsIn(r.trace), desk, link);
      if p.ForPage? {
        if p.result.Some? {
          var answer := p.result.value;
          AnsweredSound(env, a, p.id, p.name, if answer.Readable? then answer.text else "unreadable",
                        answer.Unreadable? || answer.failed);
        }
      } else if verdict.Approved? {
        var call := ToolCall(p.id, p.name, p.input, None);
        ResumedAsks(env, a, p.id);
        PerformSound(env, a.(used := a.used + 1), call, Some(p.approval), d.outcome);
      } else if !verdict.Undecided? {
        AnsweredSound(env, a, p.id, p.name, if verdict.Expired? then "expired" else "rejected", true);
      }
    }
  }

  lemma ResumedAsks(env: Env, a: Act, id: string)
    requires a.fate.Working? && a.run.status.Running? && a.run.pending.None? && a.run.snapshot.None?
    requires Owes(a.msgs, id) && a.sent == [] && a.safety == 0
    requires WithinBudget(env.cfg, a.run.trace) && a.used == ToolCallsIn(a.run.trace) < MaxToolCalls(env.cfg)
    ensures Asking(env, a.(used := a.used + 1), id)
  {
  }

  lemma BeginFootprint(env: Env, r: Run, verdict: Verdict, desk: Desk, link: Option<Link>, d: Delivery)
    ensures var b := Begin(env, r, verdict, desk, link, d);
            b.Began? ==> Footprint(env, r, GateOf(env, r, verdict), link, b.act)
  {
    BeginEffects(env, r, verdict, desk, link, d);
    BeginParks(env, r, verdict, desk, link, d);
    hide Begin;
    hide EffectsOk;
    hide RaisedOk;
    hide ParkOk;
    hide LinkOk;
    hide GateOf;
  }

  lemma BeginEffects(env: Env, r: Run, verdict: Verdict, desk: Desk, link: Option<Link>, d: Delivery)
    ensures var b := Begin(env, r, verdict, desk, link, d);
            b.Began? ==> EffectsOk(env, GateOf(env, r, verdict), b.act.effects)
  {
    hide ToolCallsIn;
    hide DeserializeMessages;
    hide Opening;
    hide Unattended;
    hide DeskAfter;
  }

  /** Nothing parked, raised or linked yet. */
  predicate Calm(was: Run, link: Option<Link>, a: Act) {
    SameRow(was, a.run) && a.raised.None? && a.link == link && !a.fate.Parked?
  }

  lemma PerformCalm(env: Env, was: Run, link: Option<Link>, a: Act, call: ToolCall, approval: Option<nat>, o: Outcome)
    requires Calm(was, link, a)
    ensures Calm(was, link, Perform(env, a, call, approval, o))
  {
    hide DeskAfter;
  }

  lemma BeginCalm(env: Env, r: Run, verdict: Verdict, desk: Desk, link: Option<Link>, d: Delivery)
    ensures var b := Begin(env, r, verdict, desk, link, d); b.Began? ==> Calm(r, link, b.act)
  {
    hide ToolCallsIn;
    hide DeserializeMessages;
    hide Opening;
    hide Perform;
    if r.pending.Some? && r.pending.value.ForHuman? && DeserializeMessages(r.snapshot).Some? {
      var a := Resumed(env, r, DeserializeMessages(r.snapshot).value, ToolCallsIn(r.trace), desk, link);
      var p := r.pending.value;
      PerformCalm(env, r, link, a.(used := a.used + 1), ToolCall(p.id, p.name, p.input, None), Some(p.approval), d.outcome);
    }
  }

  lemma BeginParks(env: Env, r: Run, verdict: Verdict, desk: Desk, link: Option<Link>, d: Delivery)
    ensures var b := Begin(env, r, verdict, desk, link, d);
            b.Began? ==> SameRow(r, b.act.run) && RaisedOk(env, b.act) && ParkOk(env, b.act) && LinkOk(env, link, b.act)
  {
    BeginCalm(env, r, verdict, desk, link, d);
    hide Begin;
  }

  /** The activation theorem: whatever was parked and whatever the provider, the tools and the
      verdict turn out to be, the row committed is legal and only the declared things change. */
  lemma ActivationLegal(env: Env, r: Run, verdict: Verdict, desk: Desk, link: Option<Link>, d: Delivery)
    requires Claimable(env.cfg, r) && Activate(env, r, verdict, desk, link, d).Began?
    ensures Stopped(env, Activate(env, r, verdict, desk, link, d).act)
    ensures Footprint(env, r, GateOf(env, r, verdict), link, Activate(env, r, verdict, desk, link, d).act)
  {
    BeginSound(env, r, verdict, desk, link, d);
    BeginFootprint(env, r, verdict, desk, link, d);
    hide Begin;
    hide Sound;
    hide Stopped;
    hide Footprint;
    hide Drive;
    var a := Begin(env, r, verdict, desk, link, d).act;
    DriveStops(env, a, d.script);
    DriveFootprint(env, r, GateOf(env, r, verdict), link, a, d.script);
  }

  /** An activation is rolled back exactly when the provider fails it retryably: given enough
      non-retryable answers it always commits. */
  lemma ActivationCommits(env: Env, r: Run, verdict: Verdict, desk: Desk, link: Option<Link>, d: Delivery)
    requires Claimable(env.cfg, r) && Activate(env, r, verdict, desk, link, d).Began?
    requires Reachable(d.script) && |d.script| > MaxToolCalls(env.cfg)
    ensures !Activate(env, r, verdict, desk, link, d).act.fate.Aborted?
  {
    BeginSound(env, r, verdict, desk, link, d);
    BeginWithinCalls(env, r, verdict, desk, link, d);
    hide Begin;
    hide Drive;
    DriveEnds(env, Begin(env, r, verdict, desk, link, d).act, d.script);
  }

  lemma BeginWithinCalls(env: Env, r: Run, verdict: Verdict, desk: Desk, link: Option<Link>, d: Delivery)
    requires Claimable(env.cfg, r)
    ensures var b := Begin(env, r, verdict, desk, link, d);
            b.Began? ==> b.act.used <= MaxToolCalls(env.cfg) && !b.act.fate.Aborted?
  {
    hide DeserializeMessages;
    hide Opening;
    hide RequestsIn;
    hide SnapshotOwes;
  }
}
