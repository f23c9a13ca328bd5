/** One activation of an agent run: everything `execute_run` does between claiming the row and
    the park or terminal status it commits. The model's provider and the tools it calls are
    adversaries that only choose answers (`Turn`, `Outcome`). */
module AgentRuns {
  import opened Wrappers
  import opened Transcript

  type Input = map<string, Json>

  // ------------------------------------------------------------------ configuration

  datatype Policy = Auto | RequireApproval | Disabled

  /** What a deferred browser tool does to the page; the first two page kinds are `op` names too. */
  datatype ClientTool = Looks | Changes | Guide | Steps | Action

  datatype Setting = Unset | Whole(n: int) | Junk

  datatype Config = Config(
    policies: map<string, Policy>,
    otherwise: Policy,
    clients: map<string, ClientTool>,
    maxToolCalls: Setting)

  const LEASE_SECONDS := 120
  const APPROVAL_TTL_SECONDS := 24 * 3600
  const MAX_MUTATING_OPS := 12
  const MAX_ACTION_CALLS := 10

  /** `max(1, int(setting or 8))`, and 8 for anything that does not parse. */
  function MaxToolCalls(cfg: Config): (n: nat)
    ensures n >= 1
    ensures cfg.maxToolCalls.Whole? && cfg.maxToolCalls.n >= 1 ==> n == cfg.maxToolCalls.n
    ensures cfg.maxToolCalls in {Unset, Whole(0), Junk} ==> n == 8
  {
    match cfg.maxToolCalls
    case Whole(n) => if n == 0 then 8 else if n < 1 then 1 else n
    case _ => 8
  }

  function PolicyOf(cfg: Config, tool: string): Policy {
    if tool in cfg.policies then cfg.policies[tool] else cfg.otherwise
  }

  predicate IsKind(cfg: Config, tool: string, kind: ClientTool) {
    tool in cfg.clients && cfg.clients[tool] == kind
  }

  // ------------------------------------------------------------------ rows

  datatype Desk = AiQueue | Open | Snoozed | Resolved

  datatype Status =
    | Queued | Running | AwaitingApproval | AwaitingClient
    | Completed | Failed | HandedOff | Canceled

  predicate Terminal(s: Status) { s.Completed? || s.Failed? || s.HandedOff? || s.Canceled? }

  predicate InFlight(s: Status) { s.Running? || s.AwaitingApproval? || s.AwaitingClient? }

  datatype PageResult = Readable(text: string, failed: bool) | Unreadable

  datatype Pending =
    | ForHuman(id: string, name: string, input: Input, approval: nat)
    | ForPage(id: string, name: string, input: Input, opId: nat, op: ClientTool, result: Option<PageResult>)

  datatype Step =
    | Thought
    | Called(tool: string)
    | Got(tool: string)
    | AskedPage(tool: string, opId: nat)
    | AskedHuman(tool: string, approval: nat)
    | Ruled(approval: nat)
    | Answered
    | Tripped
    | Erred
    | PassedOn

  datatype Run = Run(
    createdAt: int,
    rid: int,
    trigger: nat,
    status: Status,
    startedAt: Option<int>,
    lease: Option<int>,
    updatedAt: int,
    pending: Option<Pending>,
    snapshot: Option<seq<Json>>,
    trace: seq<Step>)

  datatype Verdict = Undecided | Approved | Rejected | Expired

  /** `call` is history: the id of the tool call the request was raised for. */
  datatype Approval = Approval(
    run: nat,
    name: string,
    input: Input,
    call: string,
    verdict: Verdict,
    expiresAt: int,
    decidedAt: Option<int>)

  /** A tool the outside world has seen executed. Unlike rows, effects survive a rollback. */
  datatype Effect = Effect(run: nat, call: string, name: string, input: Input, approval: Option<nat>, at: int)

  datatype Link = Link(tour: string, run: nat, opId: nat, announced: bool, mirrored: set<TourEvent>)

  datatype TourEvent = TourStarted | TourCompleted | TourDismissed | StepEvent

  // ------------------------------------------------------------------ budgets, read off the trace

  function ToolCallsIn(trace: seq<Step>): nat {
    if trace == [] then 0 else
      ToolCallsIn(trace[..|trace| - 1]) + (if trace[|trace| - 1].Called? then 1 else 0)
  }

  function RequestsIn(cfg: Config, trace: seq<Step>, kind: ClientTool): nat {
    if trace == [] then 0 else
      RequestsIn(cfg, trace[..|trace| - 1], kind)
      + (if trace[|trace| - 1].AskedPage? && IsKind(cfg, trace[|trace| - 1].tool, kind) then 1 else 0)
  }

  predicate WithinBudget(cfg: Config, trace: seq<Step>) {
    ToolCallsIn(trace) <= MaxToolCalls(cfg)
    && RequestsIn(cfg, trace, Changes) <= MAX_MUTATING_OPS
    && RequestsIn(cfg, trace, Action) <= MAX_ACTION_CALLS
  }

  lemma ToolCallsSnoc(trace: seq<Step>, s: Step)
    ensures ToolCallsIn(trace + [s]) == ToolCallsIn(trace) + (if s.Called? then 1 else 0)
  {
    assert (trace + [s])[..|trace|] == trace;
  }

  lemma RequestsSnoc(cfg: Config, trace: seq<Step>, s: Step, kind: ClientTool)
    ensures RequestsIn(cfg, trace + [s], kind)
         == RequestsIn(cfg, trace, kind) + (if s.AskedPage? && IsKind(cfg, s.tool, kind) then 1 else 0)
  {
    assert (trace + [s])[..|trace|] == trace;
  }

  /** Counting steps of every kind at once. */
  lemma TraceSnoc(cfg: Config, trace: seq<Step>, s: Step)
    ensures ToolCallsIn(trace + [s]) == ToolCallsIn(trace) + (if s.Called? then 1 else 0)
    ensures RequestsIn(cfg, trace + [s], Changes)
         == RequestsIn(cfg, trace, Changes) + (if s.AskedPage? && IsKind(cfg, s.tool, Changes) then 1 else 0)
    ensures RequestsIn(cfg, trace + [s], Action)
         == RequestsIn(cfg, trace, Action) + (if s.AskedPage? && IsKind(cfg, s.tool, Action) then 1 else 0)
  {
    ToolCallsSnoc(trace, s);
    RequestsSnoc(cfg, trace, s, Changes);
    RequestsSnoc(cfg, trace, s, Action);
  }

  // ------------------------------------------------------------------ the outside world's choices

  /** What executing a server-side tool did. A handoff always posts its note to the visitor,
      a close posts only when it carries a closing message. */
  datatype Outcome =
    | Plain(text: string, isError: bool)
    | HandsOff(text: string)
    | Closes(text: string, says: bool)

  /** The first tool call of a provider reply with the environment's part in it: whether the page
      schema accepts it, whether the tour it names is live, and what executing it would do. */
  datatype Asked = Asked(call: ToolCall, valid: bool, tourLive: bool, outcome: Outcome)

  /** One provider call: a (stripped) text, tool calls, a fatal error or a retryable one. */
  datatype Turn =
    | Says(text: string)
    | Calls(aside: Option<string>, first: Asked, rest: seq<ToolCall>)
    | Breaks
    | Down

  /** What an activation reads but never changes. */
  datatype Env = Env(cfg: Config, now: int, askFirst: bool, self: nat, nextApproval: nat, nextOp: nat)

  datatype Fate = Working | Aborted | Parked | Finished(posted: bool)

  /** The activation's working set; `sent` is history: each transcript handed to the provider. */
  datatype Act = Act(
    run: Run,
    msgs: seq<Msg>,
    desk: Desk,
    used: nat,
    safety: nat,
    sent: seq<seq<Msg>>,
    effects: seq<Effect>,
    raised: Option<Approval>,
    link: Option<Link>,
    fate: Fate)

  // ------------------------------------------------------------------ building blocks

  function Log(a: Act, s: Step): Act { a.(run := a.run.(trace := a.run.trace + [s])) }

  function Hear(a: Act, m: Msg): Act { a.(msgs := a.msgs + [m]) }

  function Complete(env: Env, a: Act, status: Status, posted: bool): Act {
    a.(run := a.run.(status := status, lease := None, updatedAt := env.now), fate := Finished(posted))
  }

  /** Give the thread to a human if the agent still holds it. */
  function Surrender(d: Desk): Desk { if d.AiQueue? then Open else d }

  function Fallback(env: Env, a: Act, guardrail: bool): Act {
    var b := if guardrail then Log(a, Tripped) else a;
    Complete(env, Log(b.(desk := Surrender(b.desk)), PassedOn), HandedOff, false)
  }

  function Fail(env: Env, a: Act): Act {
    Complete(env, Log(Log(a, Erred).(desk := Surrender(a.desk)), PassedOn), Failed, false)
  }

  function FinalReply(env: Env, a: Act): Act { Complete(env, Log(a, Answered), Completed, true) }

  /** The text a control outcome leaves in the transcript and the status it gives the thread. */
  function DeskAfter(d: Desk, o: Outcome): Desk {
    match o case Plain(_, _) => d case HandsOff(_) => Open case Closes(_, _) => Resolved
  }

  /** Run a server-side tool and finalize if it handed off or closed the thread. */
  function Perform(env: Env, a: Act, call: ToolCall, approval: Option<nat>, o: Outcome): Act {
    var b := Log(Log(a, Called(call.name)), Got(call.name));
    var c := b.(effects := b.effects + [Effect(env.self, call.id, call.name, call.input, approval, env.now)],
                desk := DeskAfter(b.desk, o));
    var d := Hear(c, ResultMsg(call.id, o.text, o.Plain? && o.isError));
    match o
    case Plain(_, _) => d
    case HandsOff(_) => Complete(env, Log(d, PassedOn), HandedOff, true)
    case Closes(_, says) => Complete(env, Log(d, Answered), Completed, says)
  }

  function PauseForApproval(env: Env, a: Act, call: ToolCall): Act {
    var row := Approval(env.self, call.name, call.input, call.id, Undecided,
                        env.now + APPROVAL_TTL_SECONDS, None);
    var run := a.run.(
      pending := Some(ForHuman(call.id, call.name, call.input, env.nextApproval)),
      snapshot := Some(SerializeMessages(a.msgs)),
      status := AwaitingApproval, lease := None, updatedAt := env.now);
    Log(a.(run := run, raised := Some(row), fate := Parked), AskedHuman(call.name, env.nextApproval))
  }

  function TourOf(input: Input): string {
    if "tour_id" in input && input["tour_id"].Str? then input["tour_id"].s else ""
  }

  function PauseForClient(env: Env, a: Act, asked: Asked, kind: ClientTool): Act {
    var call := asked.call;
    var run := a.run.(
      pending := Some(ForPage(call.id, call.name, call.input, env.nextOp, kind, None)),
      snapshot := Some(SerializeMessages(a.msgs)),
      status := AwaitingClient, lease := None, updatedAt := env.now);
    var link := if kind.Guide? && asked.tourLive && TourOf(call.input) != ""
                then Some(Link(TourOf(call.input), env.self, env.nextOp, true, {})) else a.link;
    Log(a.(run := run, link := link, fate := Parked), AskedPage(call.name, env.nextOp))
  }

  /** Would one more request of this kind break its cap? */
  predicate OverBudget(cfg: Config, trace: seq<Step>, kind: ClientTool) {
    (kind.Changes? && RequestsIn(cfg, trace, Changes) >= MAX_MUTATING_OPS)
    || (kind.Action? && RequestsIn(cfg, trace, Action) >= MAX_ACTION_CALLS)
  }

  /** Answer a call locally: an offer card instead of a tour, or a rejected page op. */
  function AnswerHere(a: Act, call: ToolCall, text: string, isError: bool): Act {
    Hear(Log(Log(a, Called(call.name)), Got(call.name)), ResultMsg(call.id, text, isError))
  }

  function UseTool(env: Env, a: Act, asked: Asked): Act {
    var call := asked.call;
    match PolicyOf(env.cfg, call.name)
    case Disabled =>
      Hear(Log(a, Got(call.name)), ResultMsg(call.id, "tool disabled", true))
    case RequireApproval => PauseForApproval(env, a, call)
    case Auto =>
      if call.name in env.cfg.clients then
        var kind := env.cfg.clients[call.name];
        if kind.Guide? && env.askFirst then
          AnswerHere(a, call, "offer", !asked.tourLive || TourOf(call.input) == "")
        else if !asked.valid || OverBudget(env.cfg, a.run.trace, kind) then
          AnswerHere(a, call, "refused", true)
        else PauseForClient(env, a, asked, kind)
      else Perform(env, a, call, None, asked.outcome)
  }

  /** Entering an iteration; past the backstop nothing is sent any more. */
  function Enter(a: Act): Act { a.(safety := a.safety + 1) }

  function Send(a: Act): Act { a.(sent := a.sent + [a.msgs]) }

  /** One trip around the loop. */
  function TakeTurn(env: Env, a: Act, t: Turn): Act {
    if a.safety + 1 > MaxToolCalls(env.cfg) + 5 then Fallback(env, Enter(a), true)
    else React(env, Send(Enter(a)), t)
  }

  /** What the loop makes of the provider's answer. */
  function React(env: Env, a: Act, t: Turn): Act {
    match t
    case Down => a.(fate := Aborted)
    case Breaks => Fail(env, a)
    case Says(text) =>
      if text == "" then Fallback(env, Log(a, Thought), false) else FinalReply(env, Log(a, Thought))
    case Calls(aside, first, rest) => Obey(env, Log(a, Thought), aside, first, rest)
  }

  function Obey(env: Env, a: Act, aside: Option<string>, first: Asked, rest: seq<ToolCall>): Act {
    if a.used >= MaxToolCalls(env.cfg) then Fallback(env, a, true)
    else UseTool(env, Note(a, aside, first.call, rest), first)
  }

  /** Record the assistant's calls and refuse all but the first. */
  function Note(a: Act, text: Option<string>, first: ToolCall, rest: seq<ToolCall>): Act {
    a.(msgs := a.msgs + [AssistantMsg(text, [first] + rest)] + Refusals(rest), used := a.used + 1)
  }

  /** The whole loop against a script of provider replies. A script that runs out is a provider
      that never answered, so the activation raises and is rolled back. */
  function Drive(env: Env, a: Act, script: seq<Turn>): Act
    decreases |script|
  {
    if !a.fate.Working? then a
    else if script == [] then a.(fate := Aborted)
    else Drive(env, TakeTurn(env, a, script[0]), script[1..])
  }

  // ------------------------------------------------------------------ claiming and resuming

  datatype Claim = Skip | Crashed | Claimed(run: Run)

  /** The status-and-lease guard. */
  function ClaimRun(r: Run, now: int): Claim {
    if Terminal(r.status) then Skip
    else if r.status.Running? && r.lease.Some? && r.lease.value > now then Skip
    else if r.status.Running? && r.pending.None? then Crashed
    else Claimed(r.(startedAt := if r.startedAt.None? then Some(now) else r.startedAt,
                    status := Running, lease := Some(now + LEASE_SECONDS), updatedAt := now))
  }

  /** What one delivery brings along: the prompt and history of a fresh start, the approved tool's
      outcome on a resume, and the provider's answers. */
  datatype Delivery = Delivery(prompt: string, lines: seq<Line>, outcome: Outcome, script: seq<Turn>)

  /** NotReady is the exception that rolls the activation back and leaves the task to be retried. */
  datatype Begun = NotReady | Began(act: Act)

  function Fresh(env: Env, r: Run, msgs: seq<Msg>, used: nat, desk: Desk, link: Option<Link>): Act {
    Act(r, msgs, desk, used, 0, [], [], None, link, Working)
  }

  function Resumed(env: Env, r: Run, msgs: seq<Msg>, used: nat, desk: Desk, link: Option<Link>): Act {
    Act(r.(pending := None, snapshot := None), msgs, desk, used, 0, [], [], None, link, Working)
  }

  /** The resume preamble on a claimed row, up to the first trip around the loop. */
  function Begin(env: Env, r: Run, verdict: Verdict, desk: Desk, link: Option<Link>, d: Delivery): Begun {
    var used := ToolCallsIn(r.trace);
    if r.pending.None? then Began(Fresh(env, r, Opening(d.prompt, d.lines), used, desk, link))
    else
      match DeserializeMessages(r.snapshot)
      case None => NotReady
      case Some(msgs) =>
        var a := Resumed(env, r, msgs, used, desk, link);
        match r.pending.value
        case ForPage(id, name, _, _, _, result) =>
          (match result
           case None => NotReady
           case Some(answer) => Began(Deliver(a, id, name, answer)))
        case ForHuman(id, name, input, approval) =>
          if verdict.Undecided? then NotReady
          else Began(Decide(env, a, verdict, id, name, input, approval, d.outcome))
  }

  /** A verdict on the parked call: execute it on approval, else tell the model it was denied. */
  function Decide(env: Env, a: Act, verdict: Verdict, id: string, name: string, input: Input, approval: nat, o: Outcome): Act {
    if verdict.Approved? then Perform(env, a.(used := a.used + 1), ToolCall(id, name, input, None), Some(approval), o)
    else Hear(Log(a, Got(name)), ResultMsg(id, if verdict.Expired? then "expired" else "rejected", true))
  }

  function Deliver(a: Act, id: string, name: string, answer: PageResult): Act {
    Hear(Log(a, Got(name)),
         ResultMsg(id, if answer.Readable? then answer.text else "unreadable", answer.Unreadable? || answer.failed))
  }

  predicate Approves(r: Run, verdict: Verdict) { r.pending.Some? && r.pending.value.ForHuman? && verdict.Approved? }

  /** One activation of a legal row, start to finish. */
  function Activate(env: Env, r: Run, verdict: Verdict, desk: Desk, link: Option<Link>, d: Delivery): Begun {
    match Begin(env, r, verdict, desk, link, d)
    case NotReady => NotReady
    case Began(a) => Began(Drive(env, a, d.script))
  }
}
