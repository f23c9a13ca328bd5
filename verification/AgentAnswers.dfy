/** What the provider's answers come to, read off the row, the desk and the transcripts: which answer ends a run and how,
    which tools it runs, and what the provider hears next. Nothing here refers to how the loop handles an answer. */
module AgentAnswers {
  import opened Wrappers
  import opened Transcript
  import opened AgentRuns
  import opened AgentRunTheorems

  // ------------------------------------------------------------------ the vocabulary

  /** A tool the server runs at once. */
  predicate Serves(env: Env, name: string) { PolicyOf(env.cfg, name).Auto? && name !in env.cfg.clients }

  predicate NamesTour(input: Input) { "tour_id" in input && input["tour_id"].Str? && input["tour_id"].s != "" }

  /** The page has been changed twelve times, or ten of the application's actions have been asked for. */
  predicate Exhausted(cfg: Config, trace: seq<Step>, kind: ClientTool) {
    (kind.Changes? && RequestsIn(cfg, trace, Changes) >= 12) || (kind.Action? && RequestsIn(cfg, trace, Action) >= 10)
  }

  /** This call is put to the visitor's page. */
  predicate AsksPage(env: Env, trace: seq<Step>, asked: Asked) {
    var name := asked.call.name;
    PolicyOf(env.cfg, name).Auto? && name in env.cfg.clients && asked.valid
    && !(env.cfg.clients[name].Guide? && env.askFirst) && !Exhausted(env.cfg, trace, env.cfg.clients[name])
  }

  /** The first call of this answer is put to a human or to the page. */
  predicate AsksOutside(env: Env, trace: seq<Step>, t: Turn) {
    t.Calls? && (PolicyOf(env.cfg, t.first.call.name).RequireApproval? || AsksPage(env, trace, t.first))
  }

  /** After this answer the loop asks the provider again. */
  predicate GoesOn(env: Env, trace: seq<Step>, used: nat, t: Turn) {
    t.Calls? && used < MaxToolCalls(env.cfg) && !PolicyOf(env.cfg, t.first.call.name).RequireApproval?
    && !AsksPage(env, trace, t.first) && (Serves(env, t.first.call.name) ==> t.first.outcome.Plain?)
  }

  /** What the provider is told about a call the loop has answered: the outcome of a tool that ran, and an error for a
      disabled tool, a refused page call or an offer of a tour that is not there. */
  predicate Tells(env: Env, asked: Asked, m: Msg) {
    var name := asked.call.name;
    && m.role.Tool? && m.toolCallId == Some(asked.call.id) && m.toolCalls == [] && m.content.Some?
    && if Serves(env, name)
       then m.content == Some(asked.outcome.text) && (m.isError <==> asked.outcome.Plain? && asked.outcome.isError)
       else if PolicyOf(env.cfg, name).Auto? && env.cfg.clients[name].Guide? && env.askFirst
       then m.isError <==> !asked.tourLive || !NamesTour(asked.call.input)
       else m.isError
  }

  /** The transcript `after` is `before`, the assistant's calls, and an error for every call but the first. */
  predicate Recorded(t: Turn, before: seq<Msg>, after: seq<Msg>)
    requires t.Calls?
  {
    var n := |before|;
    && |after| == n + 1 + |t.rest| && before <= after
    && after[n] == Msg(Assistant, t.aside, [t.first.call] + t.rest, None, false)
    && forall k :: 0 <= k < |t.rest| ==> RefusesAt(after, n + 1 + k, t.rest[k].id)
  }

  predicate RefusesAt(ms: seq<Msg>, k: nat, id: string)
    requires k < |ms|
  {
    ms[k].role.Tool? && ms[k].toolCallId == Some(id) && ms[k].toolCalls == [] && ms[k].isError
  }

  /** The same, and the first call is answered. */
  predicate Grows(env: Env, t: Turn, before: seq<Msg>, after: seq<Msg>)
    requires t.Calls?
  {
    after != [] && Recorded(t, before, after[..|after| - 1]) && Tells(env, t.first, after[|after| - 1])
  }

  predicate OutOfQueue(was: Desk, now: Desk) { now == if was.AiQueue? then Open else was }

  /** How a run ends on the answer t, `used` calls into its budget. */
  predicate Ends(env: Env, t: Turn, used: nat, was: Desk, b: Act) {
    b.fate.Finished?
    && match t
       case Says(text) =>
         if text != "" then b.run.status.Completed? && b.fate.posted && b.desk == was
         else b.run.status.HandedOff? && !b.fate.posted && OutOfQueue(was, b.desk)
       case Breaks => b.run.status.Failed? && !b.fate.posted && OutOfQueue(was, b.desk)
       case Down => false
       case Calls(_, first, _) =>
         if used >= MaxToolCalls(env.cfg) then b.run.status.HandedOff? && !b.fate.posted && OutOfQueue(was, b.desk)
         else Serves(env, first.call.name) && Controls(first.outcome, b)
  }

  /** A tool that hands off always posts its note; one that closes posts only when it says something. */
  predicate Controls(o: Outcome, b: Act) {
    b.fate.Finished?
    && match o
       case Plain(_, _) => false
       case HandsOff(_) => b.run.status.HandedOff? && b.fate.posted && b.desk.Open?
       case Closes(_, says) => b.run.status.Completed? && b.fate.posted == says && b.desk.Resolved?
  }

  /** How a run parks on the answer t: on a fresh request, open for one day, when the tool is under approval, else on a fresh
      page operation; with the transcript up to the open call saved. */
  predicate Parks(env: Env, t: Turn, link: Option<Link>, last: seq<Msg>, b: Act) {
    b.fate.Parked? && t.Calls? && b.run.lease.None?
    && DeserializeMessages(b.run.snapshot).Some? && Recorded(t, last, DeserializeMessages(b.run.snapshot).value)
    && var call := t.first.call;
       if PolicyOf(env.cfg, call.name).RequireApproval? then
         && b.run.status.AwaitingApproval? && b.link == link
         && b.run.pending == Some(ForHuman(call.id, call.name, call.input, env.nextApproval))
         && b.raised == Some(Approval(env.self, call.name, call.input, call.id, Undecided, env.now + 86400, None))
       else
         && b.run.status.AwaitingClient? && call.name in env.cfg.clients && b.raised.None?
         && b.run.pending
            == Some(ForPage(call.id, call.name, call.input, env.nextOp, env.cfg.clients[call.name], None))
         && b.link == if env.cfg.clients[call.name].Guide? && t.first.tourLive && NamesTour(call.input)
                      then Some(Link(call.input["tour_id"].s, env.self, env.nextOp, true, {})) else link
  }

  /** A page call that was sent is counted in the trace, under its kind, and nothing else is. */
  predicate Counted(env: Env, trace: seq<Step>, t: Turn, b: Act) {
    var sent := if b.fate.Parked? && b.run.status.AwaitingClient? && t.Calls? && t.first.call.name in env.cfg.clients
                then Some(env.cfg.clients[t.first.call.name]) else None;
    && RequestsIn(env.cfg, b.run.trace, Changes) == RequestsIn(env.cfg, trace, Changes) + (if sent == Some(Changes) then 1 else 0)
    && RequestsIn(env.cfg, b.run.trace, Action) == RequestsIn(env.cfg, trace, Action) + (if sent == Some(Action) then 1 else 0)
  }

  /** The tools a run of answers executes, `used` calls into the budget. */
  function ToolRuns(env: Env, answers: seq<Turn>, used: nat): seq<Effect> {
    if answers == [] then []
    else
      (if answers[0].Calls? && used < MaxToolCalls(env.cfg) && Serves(env, answers[0].first.call.name)
       then var call := answers[0].first.call; [Effect(env.self, call.id, call.name, call.input, None, env.now)]
       else [])
      + ToolRuns(env, answers[1..], used + 1)
  }

  /** How many of these answers the budget of tool calls is charged for in the trace: calls executed or answered here. */
  function Charged(env: Env, trace: seq<Step>, answers: seq<Turn>, used: nat): nat {
    if answers == [] then 0
    else
      (if answers[0].Calls? && used < MaxToolCalls(env.cfg) && PolicyOf(env.cfg, answers[0].first.call.name).Auto?
          && !AsksPage(env, trace, answers[0].first) then 1 else 0)
      + Charged(env, trace, answers[1..], used + 1)
  }

  // ------------------------------------------------------------------ one answer

  lemma {:induction false} RefusalsRefuse(rest: seq<ToolCall>)
    ensures |Refusals(rest)| == |rest|
    ensures forall k :: 0 <= k < |rest| ==> RefusesAt(Refusals(rest), k, rest[k].id)
    decreases |rest|
  {
    if rest != [] { RefusalsRefuse(rest[..|rest| - 1]); }
  }

  lemma NoteRecords(a: Act, t: Turn)
    requires t.Calls?
    ensures Recorded(t, a.msgs, Note(a, t.aside, t.first.call, t.rest).msgs)
  {
    RefusalsRefuse(t.rest);
    hide Refusals;
    var after := Note(a, t.aside, t.first.call, t.rest).msgs;
    var n := |a.msgs|;
    forall k | 0 <= k < |t.rest| ensures RefusesAt(after, n + 1 + k, t.rest[k].id) {
      assert RefusesAt(Refusals(t.rest), k, t.rest[k].id);
      assert after[n + 1 + k] == Refusals(t.rest)[k];
    }
  }

  /** The working set right after the calls were recorded. */
  function Noted(a: Act, t: Turn): Act
    requires t.Calls?
  {
    Note(Log(Send(Enter(a)), Thought), t.aside, t.first.call, t.rest)
  }

  lemma NotedIs(a: Act, t: Turn)
    requires t.Calls?
    ensures var c := Noted(a, t);
            Recorded(t, a.msgs, c.msgs) && c.run == a.run.(trace := a.run.trace + [Thought]) && c.sent == a.sent + [a.msgs]
            && c.used == a.used + 1 && c.fate == a.fate && c.desk == a.desk && c.link == a.link && c.raised == a.raised
            && c.effects == a.effects
  {
    NoteRecords(Log(Send(Enter(a)), Thought), t);
    hide Recorded;
    hide Refusals;
  }

  /** Nothing is put to the page while the loop goes on. */
  predicate SameRequests(cfg: Config, trace: seq<Step>, later: seq<Step>) {
    RequestsIn(cfg, later, Changes) == RequestsIn(cfg, trace, Changes) && RequestsIn(cfg, later, Action) == RequestsIn(cfg, trace, Action)
  }

  lemma OtherStep(cfg: Config, trace: seq<Step>, later: seq<Step>, s: Step)
    requires !s.AskedPage? && SameRequests(cfg, trace, later)
    ensures SameRequests(cfg, trace, later + [s])
    ensures ToolCallsIn(later + [s]) == ToolCallsIn(later) + (if s.Called? then 1 else 0)
  {
    TraceSnoc(cfg, later, s);
    hide RequestsIn;
    hide ToolCallsIn;
  }

  lemma SameExhausted(cfg: Config, trace: seq<Step>, later: seq<Step>, kind: ClientTool)
    requires SameRequests(cfg, trace, later)
    ensures Exhausted(cfg, later, kind) == Exhausted(cfg, trace, kind) && OverBudget(cfg, later, kind) == Exhausted(cfg, trace, kind)
  {
    hide RequestsIn;
  }

  /** What is left of a turn once its calls are recorded: `b` has dealt with the first of them. */
  predicate Dealt(env: Env, t: Turn, trace: seq<Step>, c: Act, b: Act)
    requires t.Calls? && c.sent != []
  {
    var name := t.first.call.name;
    && b.sent == c.sent && b.used == c.used && !b.fate.Aborted?
    && b.effects == c.effects + (if Serves(env, name)
         then [Effect(env.self, t.first.call.id, name, t.first.call.input, None, env.now)] else [])
    && (b.fate.Working? ==>
          && |b.msgs| == |c.msgs| + 1 && c.msgs <= b.msgs && Tells(env, t.first, b.msgs[|c.msgs|])
          && !PolicyOf(env.cfg, name).RequireApproval? && !AsksPage(env, trace, t.first)
          && (Serves(env, name) ==> t.first.outcome.Plain?)
          && b.desk == c.desk && b.link == c.link && b.raised == c.raised && SameRequests(env.cfg, trace, b.run.trace))
    && (b.fate.Finished? ==> Serves(env, name) && Controls(t.first.outcome, b))
    && (b.fate.Parked? ==>
          && (PolicyOf(env.cfg, name).RequireApproval? || AsksPage(env, trace, t.first)) && b.desk == c.desk
          && (Recorded(t, c.sent[|c.sent| - 1], c.msgs) ==> Parks(env, t, c.link, c.sent[|c.sent| - 1], b)))
    && (!b.fate.Working? ==> Counted(env, trace, t, b))
    && ToolCallsIn(b.run.trace) == ToolCallsIn(c.run.trace)
         + (if PolicyOf(env.cfg, name).Auto? && !AsksPage(env, trace, t.first) then 1 else 0)
  }

  /** Calls recorded, the tool not yet looked at. */
  predicate Posed(env: Env, t: Turn, trace: seq<Step>, c: Act) {
    t.Calls? && c.fate.Working? && c.sent != [] && c.raised.None? && SameRequests(env.cfg, trace, c.run.trace)
  }

  lemma DisabledAnswers(env: Env, t: Turn, trace: seq<Step>, c: Act)
    requires Posed(env, t, trace, c) && PolicyOf(env.cfg, t.first.call.name).Disabled?
    ensures Dealt(env, t, trace, c, UseTool(env, c, t.first))
  {
    OtherStep(env.cfg, trace, c.run.trace, Got(t.first.call.name));
    hide ToolCallsIn;
    hide SameRequests;
    hide PolicyOf;
    assert c.effects + [] == c.effects;
  }

  lemma NothingSent(env: Env, trace: seq<Step>, t: Turn, b: Act)
    requires SameRequests(env.cfg, trace, b.run.trace) && !(b.fate.Parked? && b.run.status.AwaitingClient?)
    ensures Counted(env, trace, t, b)
  {
    hide RequestsIn;
  }

  lemma ApprovalParks(env: Env, t: Turn, trace: seq<Step>, c: Act)
    requires Posed(env, t, trace, c) && PolicyOf(env.cfg, t.first.call.name).RequireApproval?
    ensures Dealt(env, t, trace, c, UseTool(env, c, t.first))
  {
    OtherStep(env.cfg, trace, c.run.trace, AskedHuman(t.first.call.name, env.nextApproval));
    NothingSent(env, trace, t, UseTool(env, c, t.first));
    hide Counted;
    MessagesRoundTrip(c.msgs);
    hide ToolCallsIn;
    hide SameRequests;
    hide PolicyOf;
    hide SerializeMessages;
    hide DeserializeMessages;
    hide Recorded;
    assert c.effects + [] == c.effects;
  }

  lemma OneSent(env: Env, trace: seq<Step>, t: Turn, c: Act, b: Act)
    requires t.Calls? && t.first.call.name in env.cfg.clients && SameRequests(env.cfg, trace, c.run.trace)
    requires b.fate.Parked? && b.run.status.AwaitingClient?
    requires b.run.trace == c.run.trace + [AskedPage(t.first.call.name, env.nextOp)]
    ensures Counted(env, trace, t, b)
  {
    RequestsSnoc(env.cfg, c.run.trace, AskedPage(t.first.call.name, env.nextOp), Changes);
    RequestsSnoc(env.cfg, c.run.trace, AskedPage(t.first.call.name, env.nextOp), Action);
    hide RequestsIn;
  }

  lemma PageCounted(env: Env, t: Turn, trace: seq<Step>, c: Act)
    requires Posed(env, t, trace, c) && AsksPage(env, trace, t.first)
    ensures Counted(env, trace, t, UseTool(env, c, t.first))
  {
    SameExhausted(env.cfg, trace, c.run.trace, env.cfg.clients[t.first.call.name]);
    hide ToolCallsIn;
    hide SameRequests;
    hide PolicyOf;
    hide SerializeMessages;
    hide Exhausted;
    hide OverBudget;
    hide Counted;
    OneSent(env, trace, t, c, UseTool(env, c, t.first));
  }

  lemma PageIsAsked(env: Env, trace: seq<Step>, c: Act, asked: Asked)
    requires SameRequests(env.cfg, trace, c.run.trace) && AsksPage(env, trace, asked)
    ensures UseTool(env, c, asked) == PauseForClient(env, c, asked, env.cfg.clients[asked.call.name])
  {
    SameExhausted(env.cfg, trace, c.run.trace, env.cfg.clients[asked.call.name]);
    hide SameRequests;
    hide PolicyOf;
    hide Exhausted;
    hide OverBudget;
    hide PauseForClient;
  }

  lemma PageParks(env: Env, t: Turn, trace: seq<Step>, c: Act)
    requires Posed(env, t, trace, c) && AsksPage(env, trace, t.first)
    ensures Dealt(env, t, trace, c, UseTool(env, c, t.first))
  {
    var name := t.first.call.name;
    ToolCallsSnoc(c.run.trace, AskedPage(name, env.nextOp));
    PageCounted(env, t, trace, c);
    PageIsAsked(env, trace, c, t.first);
    MessagesRoundTrip(c.msgs);
    hide UseTool;
    hide Counted;
    hide ToolCallsIn;
    hide SameRequests;
    hide PolicyOf;
    hide SerializeMessages;
    hide DeserializeMessages;
    hide Recorded;
    hide Exhausted;
    assert c.effects + [] == c.effects;
  }

  lemma LocalAnswer(env: Env, trace: seq<Step>, c: Act, name: string)
    requires SameRequests(env.cfg, trace, c.run.trace)
    ensures var later := c.run.trace + [Called(name)] + [Got(name)];
            SameRequests(env.cfg, trace, later) && ToolCallsIn(later) == ToolCallsIn(c.run.trace) + 1
  {
    OtherStep(env.cfg, trace, c.run.trace, Called(name));
    OtherStep(env.cfg, trace, c.run.trace + [Called(name)], Got(name));
    hide ToolCallsIn;
    hide SameRequests;
  }

  lemma HereIsAnswered(env: Env, trace: seq<Step>, c: Act, asked: Asked) returns (text: string, isError: bool)
    requires SameRequests(env.cfg, trace, c.run.trace)
    requires PolicyOf(env.cfg, asked.call.name).Auto? && asked.call.name in env.cfg.clients && !AsksPage(env, trace, asked)
    ensures UseTool(env, c, asked) == AnswerHere(c, asked.call, text, isError)
    ensures isError == if env.cfg.clients[asked.call.name].Guide? && env.askFirst
                       then !asked.tourLive || !NamesTour(asked.call.input) else true
  {
    SameExhausted(env.cfg, trace, c.run.trace, env.cfg.clients[asked.call.name]);
    hide SameRequests;
    hide PolicyOf;
    hide Exhausted;
    hide OverBudget;
    hide AnswerHere;
    if env.cfg.clients[asked.call.name].Guide? && env.askFirst {
      text, isError := "offer", !asked.tourLive || TourOf(asked.call.input) == "";
    } else {
      text, isError := "refused", true;
    }
  }

  lemma PageAnswersHere(env: Env, t: Turn, trace: seq<Step>, c: Act)
    requires Posed(env, t, trace, c) && PolicyOf(env.cfg, t.first.call.name).Auto? && t.first.call.name in env.cfg.clients
    requires !AsksPage(env, trace, t.first)
    ensures Dealt(env, t, trace, c, UseTool(env, c, t.first))
  {
    var text, isError := HereIsAnswered(env, trace, c, t.first);
    LocalAnswer(env, trace, c, t.first.call.name);
    hide UseTool;
    hide NamesTour;
    hide AsksPage;
    hide ToolCallsIn;
    hide SameRequests;
    hide PolicyOf;
    assert c.effects + [] == c.effects;
  }

  lemma ServerAnswers(env: Env, t: Turn, trace: seq<Step>, c: Act)
    requires Posed(env, t, trace, c) && Serves(env, t.first.call.name)
    ensures Dealt(env, t, trace, c, UseTool(env, c, t.first))
  {
    var name := t.first.call.name;
    LocalAnswer(env, trace, c, name);
    var later := c.run.trace + [Called(name)] + [Got(name)];
    OtherStep(env.cfg, trace, later, PassedOn);
    OtherStep(env.cfg, trace, later, Answered);
    hide ToolCallsIn;
    NothingSent(env, trace, t, UseTool(env, c, t.first));
    hide Counted;
    hide SameRequests;
    hide PolicyOf;
  }

  lemma CallIsDealtWith(env: Env, t: Turn, trace: seq<Step>, c: Act)
    requires Posed(env, t, trace, c)
    ensures Dealt(env, t, trace, c, UseTool(env, c, t.first))
  {
    assert t.Calls? && c.sent != [];
    hide UseTool;
    hide Dealt;
    hide Posed;
    hide Exhausted;
    match PolicyOf(env.cfg, t.first.call.name)
    case Disabled => DisabledAnswers(env, t, trace, c);
    case RequireApproval => ApprovalParks(env, t, trace, c);
    case Auto =>
      if t.first.call.name !in env.cfg.clients {
        ServerAnswers(env, t, trace, c);
      } else if AsksPage(env, trace, t.first) {
        PageParks(env, t, trace, c);
      } else {
        PageAnswersHere(env, t, trace, c);
      }
  }

  /** What one answer does to a run that asks. */
  predicate Taken(env: Env, a: Act, t: Turn, b: Act) {
    && b.sent == a.sent + [a.msgs] && b.effects == a.effects + ToolRuns(env, [t], a.used)
    && (b.fate.Working? <==> GoesOn(env, a.run.trace, a.used, t)) && (b.fate.Aborted? <==> t.Down?)
    && (b.fate.Working? ==>
          && b.used == a.used + 1 && Grows(env, t, a.msgs, b.msgs)
          && b.desk == a.desk && b.link == a.link && b.raised == a.raised && SameRequests(env.cfg, a.run.trace, b.run.trace))
    && (b.fate.Finished? ==> Ends(env, t, a.used, a.desk, b))
    && (b.fate.Parked? ==> a.used < MaxToolCalls(env.cfg) && Parks(env, t, a.link, a.msgs, b) && b.desk == a.desk
                           && AsksOutside(env, a.run.trace, t))
    && (b.fate.Parked? || b.fate.Finished? ==> Counted(env, a.run.trace, t, b))
    && ToolCallsIn(b.run.trace) == ToolCallsIn(a.run.trace) + Charged(env, a.run.trace, [t], a.used)
  }

  lemma OneRun(env: Env, t: Turn, used: nat)
    ensures ToolRuns(env, [t], used) ==
            if t.Calls? && used < MaxToolCalls(env.cfg) && Serves(env, t.first.call.name)
            then [Effect(env.self, t.first.call.id, t.first.call.name, t.first.call.input, None, env.now)] else []
  {
    assert [t][1..] == [];
    assert ToolRuns(env, [], used + 1) == [];
  }

  lemma OneCharge(env: Env, trace: seq<Step>, t: Turn, used: nat)
    ensures Charged(env, trace, [t], used) ==
            if t.Calls? && used < MaxToolCalls(env.cfg) && PolicyOf(env.cfg, t.first.call.name).Auto?
               && !AsksPage(env, trace, t.first) then 1 else 0
  {
    assert [t][1..] == [];
    assert Charged(env, trace, [], used + 1) == 0;
    hide AsksPage;
  }

  /** The backstop is out of the way. */
  lemma TurnAsks(env: Env, a: Act, t: Turn)
    requires Looping(env, a)
    ensures TakeTurn(env, a, t) == React(env, Send(Enter(a)), t) && a.fate.Working?
  {
    hide WithinBudget;
    hide Settled;
    hide AllSettled;
    hide ToolCallsIn;
    hide MaxToolCalls;
    hide React;
  }

  /** A turn without a tool: nothing runs, nothing is charged. */
  lemma NothingRuns(env: Env, a: Act, t: Turn)
    requires !t.Calls? || a.used >= MaxToolCalls(env.cfg)
    ensures a.effects == a.effects + ToolRuns(env, [t], a.used) && Charged(env, a.run.trace, [t], a.used) == 0
  {
    OneRun(env, t, a.used);
    OneCharge(env, a.run.trace, t, a.used);
    hide MaxToolCalls;
    hide AsksPage;
    hide PolicyOf;
    hide ToolRuns;
    hide Charged;
  }

  lemma Uncharged(cfg: Config, trace: seq<Step>, s1: Step, s2: Step, s3: Step)
    requires !s1.Called? && !s2.Called? && !s3.Called? && !s1.AskedPage? && !s2.AskedPage? && !s3.AskedPage?
    ensures SameRequests(cfg, trace, trace + [s1] + [s2]) && SameRequests(cfg, trace, trace + [s1] + [s2] + [s3])
    ensures ToolCallsIn(trace + [s1]) == ToolCallsIn(trace) && ToolCallsIn(trace + [s1] + [s2]) == ToolCallsIn(trace)
    ensures ToolCallsIn(trace + [s1] + [s2] + [s3]) == ToolCallsIn(trace)
  {
    SameAsItself(cfg, trace);
    OtherStep(cfg, trace, trace, s1);
    OtherStep(cfg, trace, trace + [s1], s2);
    OtherStep(cfg, trace, trace + [s1] + [s2], s3);
    hide ToolCallsIn;
    hide SameRequests;
  }

  lemma FailureCounted(env: Env, a: Act, t: Turn)
    requires Looping(env, a) && (t.Down? || t.Breaks?)
    ensures var b := TakeTurn(env, a, t); b.fate.Finished? ==> Counted(env, a.run.trace, t, b)
    ensures !TakeTurn(env, a, t).fate.Parked?
  {
    TurnAsks(env, a, t);
    Uncharged(env.cfg, a.run.trace, Erred, PassedOn, PassedOn);
    var b := TakeTurn(env, a, t);
    hide Looping;
    hide TakeTurn;
    hide ToolCallsIn;
    hide SameRequests;
    hide MaxToolCalls;
    hide Counted;
    hide UseTool;
    if b.fate.Finished? { NothingSent(env, a.run.trace, t, b); }
  }

  lemma DownTaken(env: Env, a: Act, t: Turn)
    requires Looping(env, a) && t.Down?
    ensures Taken(env, a, t, TakeTurn(env, a, t))
  {
    TurnAsks(env, a, t);
    NothingRuns(env, a, t);
    hide Counted;
    hide Looping;
    hide TakeTurn;
    hide ToolCallsIn;
    hide MaxToolCalls;
    hide ToolRuns;
    hide Charged;
    hide AsksPage;
    hide PolicyOf;
    hide SameRequests;
    hide Parks;
    hide Grows;
  }

  lemma TextCounted(env: Env, a: Act, t: Turn)
    requires Looping(env, a) && t.Says?
    ensures var b := TakeTurn(env, a, t); b.fate.Finished? ==> Counted(env, a.run.trace, t, b)
    ensures !TakeTurn(env, a, t).fate.Parked?
  {
    TurnAsks(env, a, t);
    Uncharged(env.cfg, a.run.trace, Thought, Answered, Answered);
    Uncharged(env.cfg, a.run.trace, Thought, PassedOn, PassedOn);
    var b := TakeTurn(env, a, t);
    hide Looping;
    hide TakeTurn;
    hide ToolCallsIn;
    hide SameRequests;
    hide MaxToolCalls;
    hide Counted;
    hide UseTool;
    if b.fate.Finished? { NothingSent(env, a.run.trace, t, b); }
  }

  lemma SpentCounted(env: Env, a: Act, t: Turn)
    requires Looping(env, a) && t.Calls? && a.used >= MaxToolCalls(env.cfg)
    ensures var b := TakeTurn(env, a, t); b.fate.Finished? ==> Counted(env, a.run.trace, t, b)
    ensures !TakeTurn(env, a, t).fate.Parked?
  {
    TurnAsks(env, a, t);
    Uncharged(env.cfg, a.run.trace, Thought, Tripped, PassedOn);
    var b := TakeTurn(env, a, t);
    hide Looping;
    hide TakeTurn;
    hide ToolCallsIn;
    hide SameRequests;
    hide MaxToolCalls;
    hide Counted;
    hide UseTool;
    if b.fate.Finished? { NothingSent(env, a.run.trace, t, b); }
  }

  /** An answer on which the run ends, whatever is left of its budget. */
  predicate Final(env: Env, a: Act, t: Turn) { t.Breaks? || t.Says? || (t.Calls? && a.used >= MaxToolCalls(env.cfg)) }

  lemma FinalEnds(env: Env, a: Act, t: Turn)
    requires Looping(env, a) && Final(env, a, t)
    ensures var b := TakeTurn(env, a, t);
            b.sent == a.sent + [a.msgs] && b.effects == a.effects && Ends(env, t, a.used, a.desk, b)
  {
    TurnAsks(env, a, t);
    hide Looping;
    hide TakeTurn;
    hide MaxToolCalls;
    hide UseTool;
    hide PolicyOf;
  }

  lemma FinalCounts(env: Env, a: Act, t: Turn)
    requires Looping(env, a) && Final(env, a, t)
    ensures var b := TakeTurn(env, a, t); ToolCallsIn(b.run.trace) == ToolCallsIn(a.run.trace)
  {
    TurnAsks(env, a, t);
    Uncharged(env.cfg, a.run.trace, Erred, PassedOn, PassedOn);
    Uncharged(env.cfg, a.run.trace, Thought, Answered, Answered);
    Uncharged(env.cfg, a.run.trace, Thought, PassedOn, PassedOn);
    Uncharged(env.cfg, a.run.trace, Thought, Tripped, PassedOn);
    hide Looping;
    hide TakeTurn;
    hide ToolCallsIn;
    hide SameRequests;
    hide MaxToolCalls;
    hide UseTool;
  }

  lemma EndsIsFinished(env: Env, t: Turn, used: nat, was: Desk, b: Act)
    requires Ends(env, t, used, was, b)
    ensures b.fate.Finished? && !t.Down?
  {
    hide MaxToolCalls;
    hide Controls;
  }

  lemma FinalIsLast(env: Env, trace: seq<Step>, a: Act, t: Turn)
    requires Final(env, a, t)
    ensures !GoesOn(env, trace, a.used, t)
  {
    hide MaxToolCalls;
    hide AsksPage;
  }

  lemma FinalTaken(env: Env, a: Act, t: Turn)
    requires Looping(env, a) && Final(env, a, t)
    ensures Taken(env, a, t, TakeTurn(env, a, t))
  {
    FinalEnds(env, a, t);
    EndsIsFinished(env, t, a.used, a.desk, TakeTurn(env, a, t));
    FinalIsLast(env, a.run.trace, a, t);
    FinalCounts(env, a, t);
    NothingRuns(env, a, t);
    hide Ends;
    hide GoesOn;
    if t.Breaks? { FailureCounted(env, a, t); } else if t.Says? { TextCounted(env, a, t); } else { SpentCounted(env, a, t); }
    hide Looping;
    hide TakeTurn;
    hide Counted;
    hide ToolCallsIn;
    hide MaxToolCalls;
    hide ToolRuns;
    hide Charged;
    hide AsksPage;
    hide PolicyOf;
    hide SameRequests;
    hide Parks;
    hide Grows;
    hide OutOfQueue;
    hide Controls;
  }

  lemma TurnUsesTool(env: Env, a: Act, t: Turn)
    requires Looping(env, a) && t.Calls? && a.used < MaxToolCalls(env.cfg)
    ensures TakeTurn(env, a, t) == UseTool(env, Noted(a, t), t.first)
  {
    TurnAsks(env, a, t);
    hide Looping;
    hide TakeTurn;
    hide UseTool;
    hide MaxToolCalls;
    hide Refusals;
  }

  lemma CallTaken(env: Env, a: Act, t: Turn)
    requires Looping(env, a) && a.raised.None? && t.Calls? && a.used < MaxToolCalls(env.cfg)
    ensures Taken(env, a, t, TakeTurn(env, a, t))
  {
    var c := Noted(a, t);
    NotedIs(a, t);
    TurnAsks(env, a, t);
    TurnUsesTool(env, a, t);
    SameAsItself(env.cfg, a.run.trace);
    OtherStep(env.cfg, a.run.trace, a.run.trace, Thought);
    hide Looping;
    hide TakeTurn;
    hide React;
    hide Noted;
    hide UseTool;
    hide SameRequests;
    CallIsDealtWith(env, t, a.run.trace, c);
    hide ToolCallsIn;
    DealtIsTaken(env, a, t, c, UseTool(env, c, t.first));
  }

  lemma DealtIsTaken(env: Env, a: Act, t: Turn, c: Act, b: Act)
    requires t.Calls? && a.used < MaxToolCalls(env.cfg) && c.sent == a.sent + [a.msgs] && c.used == a.used + 1
    requires c.desk == a.desk && c.link == a.link && c.raised == a.raised && c.effects == a.effects
    requires Recorded(t, a.msgs, c.msgs) && ToolCallsIn(c.run.trace) == ToolCallsIn(a.run.trace)
    requires Dealt(env, t, a.run.trace, c, b)
    ensures Taken(env, a, t, b)
  {
    OneRun(env, t, a.used);
    OneCharge(env, a.run.trace, t, a.used);
    if b.fate.Working? { assert b.msgs[..|b.msgs| - 1] == c.msgs; }
    hide ToolCallsIn;
    hide MaxToolCalls;
    hide ToolRuns;
    hide Charged;
    hide Tells;
    hide Recorded;
    hide Parks;
    hide Controls;
    hide SameRequests;
    hide AsksPage;
    hide PolicyOf;
  }

  lemma SameAsItself(cfg: Config, trace: seq<Step>)
    ensures SameRequests(cfg, trace, trace)
  {
  }

  lemma AnswerTaken(env: Env, a: Act, t: Turn)
    requires Looping(env, a) && a.raised.None?
    ensures Taken(env, a, t, TakeTurn(env, a, t))
  {
    hide Looping;
    hide Taken;
    hide TakeTurn;
    if t.Down? {
      DownTaken(env, a, t);
    } else if t.Calls? && a.used < MaxToolCalls(env.cfg) {
      CallTaken(env, a, t);
    } else {
      FinalTaken(env, a, t);
    }
  }

  // ------------------------------------------------------------------ a whole activation

  /** After the last answer the loop asked for. */
  predicate Stops(env: Env, trace: seq<Step>, used: nat, was: Desk, link: Option<Link>, t: Turn, last: seq<Msg>, b: Act) {
    match b.fate
    case Working => false
    case Aborted => t.Down? || GoesOn(env, trace, used, t)
    case Parked => used < MaxToolCalls(env.cfg) && Parks(env, t, link, last, b) && b.desk == was && AsksOutside(env, trace, t)
                   && Counted(env, trace, t, b)
    case Finished(_) => Ends(env, t, used, was, b) && Counted(env, trace, t, b)
  }

  /** The transcripts the provider was handed: the first is the run's own, each later one is the one before with the answer
      recorded and dealt with. */
  predicate Conversed(env: Env, a: Act, answers: seq<Turn>, sent: seq<seq<Msg>>) {
    && |sent| == |a.sent| + |answers| && a.sent <= sent && (answers != [] ==> sent[|a.sent|] == a.msgs)
    && forall k :: 0 <= k < |answers| - 1 ==>
         GoesOn(env, a.run.trace, a.used + k, answers[k]) && Grows(env, answers[k], sent[|a.sent| + k], sent[|a.sent| + k + 1])
  }

  /** A run against a script: it asks at least once, goes on while the answers do, and stops as the last one says, or because
      the script ran out while it still asked. */
  predicate Told(env: Env, a: Act, script: seq<Turn>, b: Act) {
    var n := |b.sent| - |a.sent|;
    && 0 <= n <= |script| && (script == [] <==> n == 0)
    && Conversed(env, a, script[..n], b.sent)
    && b.effects == a.effects + ToolRuns(env, script[..n], a.used)
    && ToolCallsIn(b.run.trace) == ToolCallsIn(a.run.trace) + Charged(env, a.run.trace, script[..n], a.used)
    && (n == 0 ==> b.fate.Aborted?)
    && (n > 0 ==> Stops(env, a.run.trace, a.used + n - 1, a.desk, a.link, script[n - 1], b.sent[|b.sent| - 1], b))
    && (n > 0 && b.fate.Aborted? && !script[n - 1].Down? ==> n == |script|)
  }

  lemma SameAsks(env: Env, trace: seq<Step>, later: seq<Step>, asked: Asked)
    requires SameRequests(env.cfg, trace, later)
    ensures AsksPage(env, later, asked) == AsksPage(env, trace, asked)
  {
    hide RequestsIn;
    hide PolicyOf;
  }

  lemma SameGoesOn(env: Env, trace: seq<Step>, later: seq<Step>, used: nat, t: Turn)
    requires SameRequests(env.cfg, trace, later)
    ensures GoesOn(env, later, used, t) == GoesOn(env, trace, used, t)
  {
    if t.Calls? { SameAsks(env, trace, later, t.first); }
    hide SameRequests;
    hide AsksPage;
    hide PolicyOf;
    hide MaxToolCalls;
  }

  lemma {:induction false} SameCharged(env: Env, trace: seq<Step>, later: seq<Step>, answers: seq<Turn>, used: nat)
    requires SameRequests(env.cfg, trace, later)
    ensures Charged(env, later, answers, used) == Charged(env, trace, answers, used)
  {
    hide SameRequests;
    hide AsksPage;
    hide PolicyOf;
    hide MaxToolCalls;
    if answers != [] {
      SameCharged(env, trace, later, answers[1..], used + 1);
      if answers[0].Calls? { SameAsks(env, trace, later, answers[0].first); }
    }
  }

  lemma FirstOfMany(env: Env, trace: seq<Step>, t: Turn, more: seq<Turn>, used: nat)
    ensures ToolRuns(env, [t] + more, used) == ToolRuns(env, [t], used) + ToolRuns(env, more, used + 1)
    ensures Charged(env, trace, [t] + more, used) == Charged(env, trace, [t], used) + Charged(env, trace, more, used + 1)
  {
    OneRun(env, t, used);
    OneCharge(env, trace, t, used);
    assert ([t] + more)[1..] == more;
    hide MaxToolCalls;
    hide AsksPage;
    hide PolicyOf;
  }

  lemma ConversedMore(env: Env, a: Act, t: Turn, b: Act, more: seq<Turn>, sent: seq<seq<Msg>>)
    requires b.sent == a.sent + [a.msgs] && GoesOn(env, a.run.trace, a.used, t) && Grows(env, t, a.msgs, b.msgs)
    requires b.used == a.used + 1 && SameRequests(env.cfg, a.run.trace, b.run.trace) && Conversed(env, b, more, sent)
    ensures Conversed(env, a, [t] + more, sent)
  {
    var all := [t] + more;
    hide Grows;
    hide SameRequests;
    assert sent[|a.sent|] == a.msgs by { assert b.sent[|a.sent|] == a.msgs; }
    forall k | 0 <= k < |all| - 1
      ensures GoesOn(env, a.run.trace, a.used + k, all[k]) && Grows(env, all[k], sent[|a.sent| + k], sent[|a.sent| + k + 1])
    {
      if k > 0 {
        assert all[k] == more[k - 1];
        SameGoesOn(env, a.run.trace, b.run.trace, a.used + k, all[k]);
        assert GoesOn(env, b.run.trace, b.used + (k - 1), more[k - 1]);
      }
    }
    hide GoesOn;
  }

  lemma StopsFrom(env: Env, trace: seq<Step>, later: seq<Step>, used: nat, was: Desk, link: Option<Link>, t: Turn, last: seq<Msg>, b: Act)
    requires SameRequests(env.cfg, trace, later) && Stops(env, later, used, was, link, t, last, b)
    ensures Stops(env, trace, used, was, link, t, last, b)
  {
    SameGoesOn(env, trace, later, used, t);
    if t.Calls? { SameAsks(env, trace, later, t.first); }
    hide AsksPage;
    hide GoesOn;
    hide Parks;
    hide Ends;
    hide SameRequests;
    hide MaxToolCalls;
  }

  /** How the later answers stop the run, seen from one answer earlier. */
  lemma StopsMore(env: Env, a: Act, t: Turn, b: Act, script: seq<Turn>, c: Act)
    requires Taken(env, a, t, b) && b.fate.Working? && Told(env, b, script, c)
    ensures var m := |c.sent| - |b.sent|;
            Stops(env, a.run.trace, a.used + m, a.desk, a.link, ([t] + script)[m], c.sent[|c.sent| - 1], c)
  {
    var m := |c.sent| - |b.sent|;
    hide ToolRuns;
    hide Charged;
    hide ToolCallsIn;
    hide Grows;
    hide GoesOn;
    hide Ends;
    hide SameRequests;
    hide AsksOutside;
    hide Parks;
    hide Conversed;
    hide Stops;
    if m > 0 {
      StopsFrom(env, a.run.trace, b.run.trace, b.used + m - 1, a.desk, a.link, script[m - 1], c.sent[|c.sent| - 1], c);
    } else {
      assert c.sent[|a.sent|] == a.msgs by { assert b.sent <= c.sent by { assert Conversed(env, b, script[..m], c.sent); SentGrows(env, b, script[..m], c.sent); } }
      LastGoesOn(env, a, t, b, c);
    }
  }

  lemma SentGrows(env: Env, b: Act, answers: seq<Turn>, sent: seq<seq<Msg>>)
    requires Conversed(env, b, answers, sent)
    ensures b.sent <= sent
  {
  }

  /** What a turn after which the loop goes on leaves to the later ones. */
  lemma TakenOn(env: Env, a: Act, t: Turn, b: Act)
    requires Taken(env, a, t, b) && b.fate.Working?
    ensures b.sent == a.sent + [a.msgs] && b.effects == a.effects + ToolRuns(env, [t], a.used) && b.used == a.used + 1
    ensures GoesOn(env, a.run.trace, a.used, t) && Grows(env, t, a.msgs, b.msgs) && SameRequests(env.cfg, a.run.trace, b.run.trace)
    ensures ToolCallsIn(b.run.trace) == ToolCallsIn(a.run.trace) + Charged(env, a.run.trace, [t], a.used)
  {
    hide ToolRuns;
    hide Charged;
    hide ToolCallsIn;
    hide Grows;
    hide GoesOn;
    hide SameRequests;
  }

  /** The transcripts, tools and charges of the later answers, seen from one answer earlier. */
  lemma SumsTold(x: seq<Effect>, y: seq<Effect>, z: seq<Effect>)
    ensures (x + y) + z == x + (y + z)
  {
  }

  lemma RestTold(env: Env, a: Act, t: Turn, b: Act, script: seq<Turn>, c: Act)
    requires Taken(env, a, t, b) && b.fate.Working? && Told(env, b, script, c)
    ensures var m := |c.sent| - |b.sent|;
            var more := [t] + script[..m];
            && 0 <= m <= |script| && |b.sent| == |a.sent| + 1 && Conversed(env, a, more, c.sent)
            && c.effects == a.effects + ToolRuns(env, more, a.used)
            && ToolCallsIn(c.run.trace) == ToolCallsIn(a.run.trace) + Charged(env, a.run.trace, more, a.used)
  {
    var m := |c.sent| - |b.sent|;
    var more := script[..m];
    FirstOfMany(env, a.run.trace, t, more, a.used);
    TakenOn(env, a, t, b);
    hide Taken;
    hide ToolRuns;
    hide Charged;
    hide ToolCallsIn;
    hide Grows;
    hide GoesOn;
    hide SameRequests;
    hide Conversed;
    hide Stops;
    SameCharged(env, a.run.trace, b.run.trace, more, b.used);
    ConversedMore(env, a, t, b, more, c.sent);
    SumsTold(a.effects, ToolRuns(env, [t], a.used), ToolRuns(env, more, b.used));
  }

  lemma ToldMore(env: Env, a: Act, t: Turn, b: Act, script: seq<Turn>, c: Act)
    requires Taken(env, a, t, b) && b.fate.Working? && Told(env, b, script, c)
    ensures Told(env, a, [t] + script, c)
  {
    var m := |c.sent| - |b.sent|;
    assert ([t] + script)[..m + 1] == [t] + script[..m];
    RestTold(env, a, t, b, script, c);
    StopsMore(env, a, t, b, script, c);
    hide Taken;
    hide ToolRuns;
    hide Charged;
    hide ToolCallsIn;
    hide Conversed;
    hide Stops;
  }

  /** The script ran out right after an answer that went on. */
  lemma LastGoesOn(env: Env, a: Act, t: Turn, b: Act, c: Act)
    requires b.sent == a.sent + [a.msgs] && GoesOn(env, a.run.trace, a.used, t) && c.fate.Aborted?
    ensures Stops(env, a.run.trace, a.used, a.desk, a.link, t, a.msgs, c)
  {
  }

  lemma ToldOnce(env: Env, a: Act, t: Turn, rest: seq<Turn>, b: Act)
    requires Taken(env, a, t, b) && !b.fate.Working?
    ensures Told(env, a, [t] + rest, b)
  {
    assert ([t] + rest)[..1] == [t];
    hide ToolRuns;
    hide Charged;
    hide ToolCallsIn;
    hide Grows;
    hide GoesOn;
    hide Parks;
    hide Ends;
    hide SameRequests;
  }

  lemma ToldNothing(env: Env, a: Act)
    requires a.fate.Working?
    ensures Told(env, a, [], a.(fate := Aborted))
  {
    assert a.effects + [] == a.effects;
    assert ToolRuns(env, [], a.used) == [] && Charged(env, a.run.trace, [], a.used) == 0;
  }

  lemma DriveStep(env: Env, a: Act, script: seq<Turn>)
    requires a.fate.Working?
    ensures Drive(env, a, script) ==
            if script == [] then a.(fate := Aborted) else Drive(env, TakeTurn(env, a, script[0]), script[1..])
    ensures script != [] && !TakeTurn(env, a, script[0]).fate.Working? ==> Drive(env, a, script) == TakeTurn(env, a, script[0])
  {
    hide TakeTurn;
  }

  /** The loop theorem: whatever the provider answers, the activation asks with the transcripts, runs the tools and stops in the
      way the answers themselves say. */
  lemma {:induction false} AnswersDecide(env: Env, a: Act, script: seq<Turn>)
    requires Looping(env, a) && a.raised.None?
    ensures Told(env, a, script, Drive(env, a, script))
    decreases |script|
  {
    assert a.fate.Working?;
    DriveStep(env, a, script);
    hide TakeTurn;
    hide Drive;
    hide Looping;
    hide Stopped;
    hide Told;
    if script == [] {
      ToldNothing(env, a);
    } else {
      var t, rest := script[0], script[1..];
      var b := TakeTurn(env, a, t);
      assert script == [t] + rest;
      AnswerTaken(env, a, t);
      TakeTurnSound(env, a, t);
      if b.fate.Working? {
        StillWorking(env, b);
        WorkingRaisesNothing(env, a, t, b);
        AnswersDecide(env, b, rest);
        ToldMore(env, a, t, b, rest, Drive(env, b, rest));
      } else {
        ToldOnce(env, a, t, rest, b);
      }
    }
  }

  lemma StillWorking(env: Env, b: Act)
    requires Sound(env, b) && b.fate.Working?
    ensures Looping(env, b)
  {
    hide Looping;
  }

  lemma WorkingRaisesNothing(env: Env, a: Act, t: Turn, b: Act)
    requires Taken(env, a, t, b) && b.fate.Working?
    ensures b.raised == a.raised
  {
    hide GoesOn;
    hide Grows;
  }

  // ------------------------------------------------------------------ how many answers are heard

  /** The answers a run hears of a script: up to and including the first that does not make it ask again. */
  function Heard(env: Env, trace: seq<Step>, used: nat, script: seq<Turn>): (n: nat)
    ensures n <= |script| && (n == 0 <==> script == [])
    decreases |script|
  {
    if script == [] then 0
    else if GoesOn(env, trace, used, script[0]) then 1 + Heard(env, trace, used + 1, script[1..])
    else 1
  }

  lemma {:induction false} HeardIs(env: Env, trace: seq<Step>, used: nat, script: seq<Turn>, n: nat)
    requires 0 < n <= |script| && forall k :: 0 <= k < n - 1 ==> GoesOn(env, trace, used + k, script[k])
    requires !GoesOn(env, trace, used + n - 1, script[n - 1]) || n == |script|
    ensures Heard(env, trace, used, script) == n
    decreases n
  {
    hide GoesOn;
    if n > 1 {
      assert GoesOn(env, trace, used + 0, script[0]);
      forall k | 0 <= k < n - 2 ensures GoesOn(env, trace, used + 1 + k, script[1..][k]) {
        assert GoesOn(env, trace, used + (k + 1), script[k + 1]);
      }
      HeardIs(env, trace, used + 1, script[1..], n - 1);
    } else if GoesOn(env, trace, used, script[0]) {
      assert script[1..] == [];
    }
  }

  lemma StopsFor(env: Env, trace: seq<Step>, used: nat, was: Desk, link: Option<Link>, t: Turn, last: seq<Msg>, b: Act)
    requires Stops(env, trace, used, was, link, t, last, b) && (b.fate.Aborted? ==> t.Down?)
    ensures !GoesOn(env, trace, used, t)
  {
    hide Parks;
    hide AsksPage;
    hide PolicyOf;
    hide MaxToolCalls;
  }

  lemma ToldHeard(env: Env, a: Act, script: seq<Turn>, b: Act)
    requires Told(env, a, script, b)
    ensures |b.sent| == |a.sent| + Heard(env, a.run.trace, a.used, script)
  {
    var n := |b.sent| - |a.sent|;
    hide GoesOn;
    hide Grows;
    hide Stops;
    hide ToolRuns;
    hide Charged;
    hide ToolCallsIn;
    if n > 0 {
      if n < |script| || !b.fate.Aborted? || script[n - 1].Down? {
        StopsFor(env, a.run.trace, a.used + n - 1, a.desk, a.link, script[n - 1], b.sent[|b.sent| - 1], b);
      }
      forall k | 0 <= k < n - 1 ensures GoesOn(env, a.run.trace, a.used + k, script[k]) { assert script[..n][k] == script[k]; }
      HeardIs(env, a.run.trace, a.used, script, n);
    }
  }

  // ------------------------------------------------------------------ how an activation starts

  /** What a fresh run is told first: the prompt, then the last thirty lines, in order, as who said them. */
  predicate Opens(ms: seq<Msg>, prompt: string, lines: seq<Line>) {
    var n := if |lines| < 30 then |lines| else 30;
    && |ms| == n + 1 && ms[0] == Msg(System, Some(prompt), [], None, false)
    && forall k :: 1 <= k <= n ==> SaidBy(ms[k], lines[|lines| - n - 1 + k])
  }

  predicate SaidBy(m: Msg, l: Line) { m == Msg(if l.fromContact then User else Assistant, Some(l.text), [], None, false) }

  lemma {:induction false} HistoryTells(lines: seq<Line>)
    ensures |History(lines)| == |lines| && forall k :: 0 <= k < |lines| ==> SaidBy(History(lines)[k], lines[k])
    decreases |lines|
  {
    if lines != [] { HistoryTells(lines[..|lines| - 1]); }
  }

  lemma FreshRunOpens(prompt: string, lines: seq<Line>)
    ensures Opens(Opening(prompt, lines), prompt, lines)
  {
    HistoryTells(if |lines| > HISTORY_CAP then lines[|lines| - HISTORY_CAP..] else lines);
    hide History;
    hide SaidBy;
  }

  /** The tool message a resumed run hears about its parked call. */
  predicate Answers(ms: seq<Msg>, snapshot: Option<seq<Json>>, id: string, text: string, isError: bool) {
    DeserializeMessages(snapshot).Some?
    && ms == DeserializeMessages(snapshot).value + [Msg(Tool, Some(text), [], Some(id), isError)]
  }

  /** What was parked is settled: the page's own answer, the approved tool's outcome, or the human's refusal. */
  predicate Resumes(env: Env, r: Run, verdict: Verdict, desk: Desk, d: Delivery, b: Act)
    requires r.pending.Some?
  {
    var p := r.pending.value;
    && b.sent == [] && b.run.pending.None? && b.run.snapshot.None?
    && match p
       case ForPage(id, _, _, _, _, result) =>
         && result.Some? && b.fate.Working? && b.effects == [] && b.desk == desk
         && (if result.value.Readable? then Answers(b.msgs, r.snapshot, id, result.value.text, result.value.failed)
             else Answers(b.msgs, r.snapshot, id, "unreadable", true))
       case ForHuman(id, name, input, approval) =>
         if verdict.Approved? then
           && Answers(b.msgs, r.snapshot, id, d.outcome.text, d.outcome.Plain? && d.outcome.isError)
           && b.effects == [Effect(env.self, id, name, input, Some(approval), env.now)]
           && (if d.outcome.Plain? then b.fate.Working? && b.desk == desk else Controls(d.outcome, b))
         else
           && !verdict.Undecided? && b.fate.Working? && b.effects == [] && b.desk == desk
           && Answers(b.msgs, r.snapshot, id, if verdict.Expired? then "expired" else "rejected", true)
  }

  lemma ResumeTells(env: Env, r: Run, verdict: Verdict, desk: Desk, link: Option<Link>, d: Delivery)
    requires r.pending.Some? && Begin(env, r, verdict, desk, link, d).Began?
    ensures Resumes(env, r, verdict, desk, d, Begin(env, r, verdict, desk, link, d).act)
  {
    hide ToolCallsIn;
    hide DeserializeMessages;
    hide Opening;
  }

  /** What both kinds of start have in common, `spent` calls into the trace. */
  predicate StartsAs(cfg: Config, r: Run, link: Option<Link>, spent: nat, b: Act) {
    && b.used == spent && SameRequests(cfg, r.trace, b.run.trace) && ToolCallsIn(b.run.trace) == spent
    && b.link == link && b.raised.None? && b.run.trigger == r.trigger
  }

  lemma PerformStarts(env: Env, r: Run, link: Option<Link>, a: Act, call: ToolCall, approval: Option<nat>, o: AgentRuns.Outcome)
    requires a.run.trace == r.trace && a.used == ToolCallsIn(r.trace) + 1 && a.link == link && a.raised.None? && a.run.trigger == r.trigger
    ensures StartsAs(env.cfg, r, link, ToolCallsIn(r.trace) + 1, Perform(env, a, call, approval, o))
  {
    var later := r.trace + [Called(call.name)] + [Got(call.name)];
    SameAsItself(env.cfg, r.trace);
    OtherStep(env.cfg, r.trace, r.trace, Called(call.name));
    OtherStep(env.cfg, r.trace, r.trace + [Called(call.name)], Got(call.name));
    OtherStep(env.cfg, r.trace, later, PassedOn);
    OtherStep(env.cfg, r.trace, later, Answered);
    hide ToolCallsIn;
    hide SameRequests;
    hide DeskAfter;
  }

  lemma HearStarts(env: Env, r: Run, link: Option<Link>, a: Act, name: string, m: Msg)
    requires a.run.trace == r.trace && a.used == ToolCallsIn(r.trace) && a.link == link && a.raised.None? && a.run.trigger == r.trigger
    ensures StartsAs(env.cfg, r, link, ToolCallsIn(r.trace), Hear(Log(a, Got(name)), m))
  {
    SameAsItself(env.cfg, r.trace);
    OtherStep(env.cfg, r.trace, r.trace, Got(name));
    hide ToolCallsIn;
    hide SameRequests;
  }

  lemma ParkedStarts(env: Env, r: Run, verdict: Verdict, desk: Desk, link: Option<Link>, d: Delivery)
    requires r.pending.Some? && Begin(env, r, verdict, desk, link, d).Began?
    ensures StartsAs(env.cfg, r, link, ToolCallsIn(r.trace) + (if Approves(r, verdict) then 1 else 0),
                     Begin(env, r, verdict, desk, link, d).act)
  {
    hide StartsAs;
    hide Perform;
    hide ToolCallsIn;
    hide DeserializeMessages;
    hide Opening;
    var p := r.pending.value;
    var a := Resumed(env, r, DeserializeMessages(r.snapshot).value, ToolCallsIn(r.trace), desk, link);
    if p.ForPage? {
      var answer := p.result.value;
      HearStarts(env, r, link, a, p.name,
                 ResultMsg(p.id, if answer.Readable? then answer.text else "unreadable", answer.Unreadable? || answer.failed));
    } else if verdict.Approved? {
      PerformStarts(env, r, link, a.(used := a.used + 1), ToolCall(p.id, p.name, p.input, None), Some(p.approval), d.outcome);
    } else {
      HearStarts(env, r, link, a, p.name, ResultMsg(p.id, if verdict.Expired? then "expired" else "rejected", true));
    }
  }

  /** The budget a resumed run starts from, and the page requests it has made. */
  lemma StartsFrom(env: Env, r: Run, verdict: Verdict, desk: Desk, link: Option<Link>, d: Delivery)
    requires Begin(env, r, verdict, desk, link, d).Began?
    ensures var b := Begin(env, r, verdict, desk, link, d).act;
            && b.used == ToolCallsIn(r.trace) + (if Approves(r, verdict) then 1 else 0)
            && SameRequests(env.cfg, r.trace, b.run.trace) && ToolCallsIn(b.run.trace) == b.used
            && b.link == link && b.raised.None? && b.run.trigger == r.trigger
            && (r.pending.None? ==> b.msgs == Opening(d.prompt, d.lines) && b.sent == [] && b.effects == [] && b.desk == desk
                                    && b.fate.Working?)
  {
    SameAsItself(env.cfg, r.trace);
    if r.pending.Some? {
      ParkedStarts(env, r, verdict, desk, link, d);
      hide Begin;
    }
    hide ToolCallsIn;
    hide SameRequests;
    hide Opening;
  }

  /** A legal claimed row begins exactly when what it waits for is there. */
  lemma BeginsWhenAnswered(env: Env, r: Run, verdict: Verdict, desk: Desk, link: Option<Link>, d: Delivery)
    requires Claimable(env.cfg, r)
    ensures Begin(env, r, verdict, desk, link, d).Began? <==>
            (r.pending.Some? ==> if r.pending.value.ForPage? then r.pending.value.result.Some? else !verdict.Undecided?)
  {
    hide ToolCallsIn;
    hide RequestsIn;
    hide DeserializeMessages;
    hide Opening;
    hide Owes;
    hide AgentRuns.Decide;
    hide AgentRuns.Deliver;
  }
}
