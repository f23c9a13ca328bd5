/** The activation as the engine writes it: a row, a transcript and counters updated in place by the
    tool loop. Each method is proved against the function of `AgentRuns` that specifies it. */
module Activations {
  import opened Wrappers
  import opened Transcript
  import opened AgentRuns

  class Activation {
    const env: Env
    const createdAt: int
    const rid: int
    const trigger: nat
    const startedAt: Option<int>

    // the row
    var status: Status
    var lease: Option<int>
    var updatedAt: int
    var pending: Option<Pending>
    var snapshot: Option<seq<Json>>
    var trace: seq<Step>

    // the working set of the loop
    var msgs: seq<Msg>
    var desk: Desk
    var toolCallsUsed: nat
    var safety: nat
    var raised: Option<Approval>
    var link: Option<Link>
    var fate: Fate

    // history
    var sent: seq<seq<Msg>>
    var effects: seq<Effect>

    function Row(): Run reads this {
      Run(createdAt, rid, trigger, status, startedAt, lease, updatedAt, pending, snapshot, trace)
    }

    function Value(): Act reads this {
      Act(Row(), msgs, desk, toolCallsUsed, safety, sent, effects, raised, link, fate)
    }

    /** Start from a claimed row with an empty transcript. */
    constructor (env: Env, r: Run, desk: Desk, link: Option<Link>)
      ensures this.env == env
      ensures Value() == Act(r, [], desk, 0, 0, [], [], None, link, Working)
    {
      this.env := env;
      createdAt, rid, trigger, startedAt := r.createdAt, r.rid, r.trigger, r.startedAt;
      status, lease, updatedAt, pending, snapshot, trace := r.status, r.lease, r.updatedAt, r.pending, r.snapshot, r.trace;
      msgs, this.desk, toolCallsUsed, safety, raised, this.link, fate := [], desk, 0, 0, None, link, Working;
      sent, effects := [], [];
    }

    method AddStep(s: Step)
      modifies this`trace
      ensures Value() == Log(old(Value()), s)
    {
      trace := trace + [s];
    }

    method Append(m: Msg)
      modifies this`msgs
      ensures Value() == Hear(old(Value()), m)
    {
      msgs := msgs + [m];
    }

    method Finish(to: Status, posted: bool)
      modifies this`status, this`lease, this`updatedAt, this`fate
      ensures Value() == Complete(env, old(Value()), to, posted)
    {
      status, lease, updatedAt := to, None, env.now;
      fate := Finished(posted);
    }

    method HandToHuman(guardrail: bool)
      modifies this
      ensures Value() == Fallback(env, old(Value()), guardrail)
    {
      if guardrail { AddStep(Tripped); }
      if desk.AiQueue? { desk := Open; }
      AddStep(PassedOn);
      Finish(HandedOff, false);
    }

    method Break()
      modifies this
      ensures Value() == Fail(env, old(Value()))
    {
      AddStep(Erred);
      if desk.AiQueue? { desk := Open; }
      AddStep(PassedOn);
      Finish(Failed, false);
    }

    method Reply()
      modifies this
      ensures Value() == FinalReply(env, old(Value()))
    {
      AddStep(Answered);
      Finish(Completed, true);
    }

    method ExecuteTool(call: ToolCall, approval: Option<nat>, o: Outcome)
      modifies this
      ensures Value() == Perform(env, old(Value()), call, approval, o)
    {
      AddStep(Called(call.name));
      effects := effects + [Effect(env.self, call.id, call.name, call.input, approval, env.now)];
      match o {
        case HandsOff(_) => desk := Open;
        case Closes(_, _) => desk := Resolved;
        case Plain(_, _) =>
      }
      AddStep(Got(call.name));
      Append(ResultMsg(call.id, o.text, o.Plain? && o.isError));
      match o {
        case Plain(_, _) =>
        case HandsOff(_) =>
          AddStep(PassedOn);
          Finish(HandedOff, true);
        case Closes(_, says) =>
          AddStep(Answered);
          Finish(Completed, says);
      }
    }

    method Park(p: Pending, to: Status)
      modifies this`pending, this`snapshot, this`status, this`lease, this`updatedAt, this`fate
      ensures Value() == old(Value()).(
        run := old(Row()).(pending := Some(p), snapshot := Some(SerializeMessages(old(msgs))),
                           status := to, lease := None, updatedAt := env.now), fate := Parked)
    {
      hide SerializeMessages;
      pending, snapshot := Some(p), Some(SerializeMessages(msgs));
      status, lease, updatedAt := to, None, env.now;
      fate := Parked;
    }

    method ParkForApproval(call: ToolCall)
      modifies this
      ensures Value() == PauseForApproval(env, old(Value()), call)
    {
      raised := Some(Approval(env.self, call.name, call.input, call.id, Undecided, env.now + APPROVAL_TTL_SECONDS, None));
      Park(ForHuman(call.id, call.name, call.input, env.nextApproval), AwaitingApproval);
      AddStep(AskedHuman(call.name, env.nextApproval));
    }

    method ParkForClient(asked: Asked, kind: ClientTool)
      modifies this
      ensures Value() == PauseForClient(env, old(Value()), asked, kind)
    {
      var call := asked.call;
      Park(ForPage(call.id, call.name, call.input, env.nextOp, kind, None), AwaitingClient);
      AddStep(AskedPage(call.name, env.nextOp));
      if kind.Guide? && asked.tourLive && TourOf(call.input) != "" {
        link := Some(Link(TourOf(call.input), env.self, env.nextOp, true, {}));
      }
    }

    method AnswerLocally(call: ToolCall, text: string, isError: bool)
      modifies this
      ensures Value() == AnswerHere(old(Value()), call, text, isError)
    {
      AddStep(Called(call.name));
      AddStep(Got(call.name));
      Append(ResultMsg(call.id, text, isError));
    }

    /** Requests of one kind already in this run's trace, counted row by row. */
    method CountRequests(kind: ClientTool) returns (used: nat)
      ensures used == RequestsIn(env.cfg, trace, kind)
    {
      used := 0;
      for k := 0 to |trace|
        invariant used == RequestsIn(env.cfg, trace[..k], kind)
      {
        assert trace[..k + 1] == trace[..k] + [trace[k]];
        RequestsSnoc(env.cfg, trace[..k], trace[k], kind);
        if trace[k].AskedPage? && IsKind(env.cfg, trace[k].tool, kind) { used := used + 1; }
      }
      assert trace[..|trace|] == trace;
    }

    method ExceedsCap(kind: ClientTool) returns (over: bool)
      ensures over == OverBudget(env.cfg, trace, kind)
    {
      over := false;
      if kind.Changes? {
        var used := CountRequests(Changes);
        over := used >= MAX_MUTATING_OPS;
      } else if kind.Action? {
        var used := CountRequests(Action);
        over := used >= MAX_ACTION_CALLS;
      }
    }

    method Dispatch(asked: Asked)
      modifies this
      ensures Value() == UseTool(env, old(Value()), asked)
    {
      var call := asked.call;
      match PolicyOf(env.cfg, call.name) {
        case Disabled =>
          AddStep(Got(call.name));
          Append(ResultMsg(call.id, "tool disabled", true));
        case RequireApproval =>
          ParkForApproval(call);
        case Auto =>
          if call.name in env.cfg.clients {
            DispatchClient(asked, env.cfg.clients[call.name]);
          } else {
            ExecuteTool(call, None, asked.outcome);
          }
      }
    }

    method DispatchClient(asked: Asked, kind: ClientTool)
      requires PolicyOf(env.cfg, asked.call.name).Auto? && IsKind(env.cfg, asked.call.name, kind)
      modifies this
      ensures Value() == UseTool(env, old(Value()), asked)
    {
      hide AnswerHere;
      hide PauseForClient;
      hide PolicyOf;
      hide OverBudget;
      var call := asked.call;
      if kind.Guide? && env.askFirst {
        AnswerLocally(call, "offer", !asked.tourLive || TourOf(call.input) == "");
      } else {
        var over := ExceedsCap(kind);
        if !asked.valid || over {
          AnswerLocally(call, "refused", true);
        } else {
          ParkForClient(asked, kind);
        }
      }
    }

    /** Record the assistant message and refuse every call after the first, one message each. */
    method Record(aside: Option<string>, first: ToolCall, rest: seq<ToolCall>)
      modifies this`msgs, this`toolCallsUsed
      ensures Value() == Note(old(Value()), aside, first, rest)
    {
      msgs := msgs + [AssistantMsg(aside, [first] + rest)];
      ghost var asked := msgs;
      for k := 0 to |rest|
        invariant msgs == asked + Refusals(rest[..k])
        modifies this`msgs
      {
        assert rest[..k + 1][..k] == rest[..k];
        msgs := msgs + [Refusal(rest[k])];
        assert msgs == asked + Refusals(rest[..k + 1]);
      }
      assert rest[..|rest|] == rest;
      toolCallsUsed := toolCallsUsed + 1;
    }

    method Obeys(aside: Option<string>, first: Asked, rest: seq<ToolCall>)
      modifies this
      ensures Value() == Obey(env, old(Value()), aside, first, rest)
    {
      if toolCallsUsed >= MaxToolCalls(env.cfg) {
        HandToHuman(true);
      } else {
        Record(aside, first.call, rest);
        Dispatch(first);
      }
    }

    method HandleTurn(t: Turn)
      modifies this
      ensures Value() == React(env, old(Value()), t)
    {
      match t {
        case Down => fate := Aborted;
        case Breaks => Break();
        case Says(text) =>
          AddStep(Thought);
          if text == "" { HandToHuman(false); } else { Reply(); }
        case Calls(aside, first, rest) =>
          AddStep(Thought);
          Obeys(aside, first, rest);
      }
    }

    /** The `while True` loop, asking the provider once a trip until something ends the activation. */
    method Loop(script: seq<Turn>)
      modifies this
      ensures Value() == Drive(env, old(Value()), script)
    {
      hide React;
      hide Fallback;
      ghost var start := Value();
      var k := 0;
      while fate.Working?
        invariant k <= |script|
        invariant Drive(env, Value(), script[k..]) == Drive(env, start, script)
        modifies this
        decreases |script| - k + (if fate.Working? then 1 else 0)
      {
        if k == |script| {
          fate := Aborted;
        } else {
          ghost var before := Value();
          var t := script[k];
          safety := safety + 1;
          if safety > MaxToolCalls(env.cfg) + 5 {
            HandToHuman(true);
          } else {
            sent := sent + [msgs];
            HandleTurn(t);
          }
          assert Value() == TakeTurn(env, before, t);
          assert script[k..][1..] == script[k + 1..];
          k := k + 1;
        }
      }
    }

    method TakePageResult(id: string, name: string, answer: PageResult)
      modifies this
      ensures Value() == Deliver(old(Value()), id, name, answer)
    {
      AddStep(Got(name));
      Append(ResultMsg(id, if answer.Readable? then answer.text else "unreadable", answer.Unreadable? || answer.failed));
    }

    /** `tool_call` steps already in the trace. */
    method CountToolCalls() returns (used: nat)
      ensures used == ToolCallsIn(trace)
    {
      used := 0;
      for k := 0 to |trace|
        invariant used == ToolCallsIn(trace[..k])
      {
        assert trace[..k + 1] == trace[..k] + [trace[k]];
        ToolCallsSnoc(trace[..k], trace[k]);
        if trace[k].Called? { used := used + 1; }
      }
      assert trace[..|trace|] == trace;
    }

    /** Restore the parked transcript and settle its open call, or open a fresh one. Not ready means the
        exception that rolls the whole activation back. */
    /** Hand a human's verdict on the parked call to the restored transcript. */
    method ApplyDecision(verdict: Verdict, id: string, name: string, input: Input, approval: nat, o: Outcome)
      requires !verdict.Undecided?
      modifies this
      ensures Value() == Decide(env, old(Value()), verdict, id, name, input, approval, o)
    {
      hide Perform;
      if verdict.Approved? {
        toolCallsUsed := toolCallsUsed + 1;
        ExecuteTool(ToolCall(id, name, input, None), Some(approval), o);
      } else {
        AddStep(Got(name));
        Append(ResultMsg(id, if verdict.Expired? then "expired" else "rejected", true));
      }
    }

    method Resume(verdict: Verdict, d: Delivery) returns (ready: bool)
      requires msgs == [] && toolCallsUsed == 0 && safety == 0 && sent == [] && effects == [] && raised.None? && fate.Working?
      modifies this
      ensures ready <==> Begin(env, old(Row()), verdict, old(desk), old(link), d).Began?
      ensures ready ==> Value() == Begin(env, old(Row()), verdict, old(desk), old(link), d).act
    {
      hide Opening;
      hide DeserializeMessages;
      hide ToolCallsIn;
      hide Decide;
      hide AgentRuns.Deliver;
      var used := CountToolCalls();
      toolCallsUsed := used;
      if pending.None? {
        msgs := Opening(d.prompt, d.lines);
        return true;
      }
      var restored := DeserializeMessages(snapshot);
      if restored.None? { return false; }
      msgs := restored.value;
      var parked := pending.value;
      if parked.ForPage? && parked.result.None? { return false; }
      if parked.ForHuman? && verdict.Undecided? { return false; }
      pending, snapshot := None, None;
      match parked {
        case ForPage(id, name, _, _, _, result) =>
          TakePageResult(id, name, result.value);
        case ForHuman(id, name, input, approval) =>
          ApplyDecision(verdict, id, name, input, approval, d.outcome);
      }
      return true;
    }
  }
}
