/** The provider transcript of an agent run, its JSON snapshot, and the rule every chat
    provider imposes on tool calls: each call an assistant message makes is answered by
    exactly one tool message before anything else may be said. */
module Transcript {
  import opened Wrappers

  datatype Json =
    | Null
    | Bool(b: bool)
    | Num(n: int)
    | Str(s: string)
    | Arr(items: seq<Json>)
    | Obj(fields: map<string, Json>)

  datatype Role = System | User | Assistant | Tool

  datatype ToolCall = ToolCall(id: string, name: string, input: map<string, Json>, rawInput: Option<string>)

  datatype Msg = Msg(
    role: Role,
    content: Option<string>,
    toolCalls: seq<ToolCall>,
    toolCallId: Option<string>,
    isError: bool)

  // ------------------------------------------------------------------ messages

  function SystemMsg(text: string): Msg { Msg(System, Some(text), [], None, false) }

  function UserMsg(text: string): Msg { Msg(User, Some(text), [], None, false) }

  function AssistantMsg(text: Option<string>, calls: seq<ToolCall>): Msg {
    Msg(Assistant, text, calls, None, false)
  }

  function ResultMsg(id: string, text: string, isError: bool): Msg {
    Msg(Tool, Some(text), [], Some(id), isError)
  }

  // ------------------------------------------------------------------ snapshot codec

  function RoleName(r: Role): string {
    match r
    case System => "system"
    case User => "user"
    case Assistant => "assistant"
    case Tool => "tool"
  }

  function RoleNamed(s: string): Option<Role> {
    if s == "system" then Some(System)
    else if s == "user" then Some(User)
    else if s == "assistant" then Some(Assistant)
    else if s == "tool" then Some(Tool)
    else None
  }

  function Nullable(s: Option<string>): Json {
    match s case None => Null case Some(v) => Str(v)
  }

  function SerializeCall(c: ToolCall): Json {
    Obj(map["id" := Str(c.id), "name" := Str(c.name), "input" := Obj(c.input), "raw_input" := Nullable(c.rawInput)])
  }

  function SerializeCalls(cs: seq<ToolCall>): seq<Json> {
    if cs == [] then [] else [SerializeCall(cs[0])] + SerializeCalls(cs[1..])
  }

  function SerializeMessage(m: Msg): Json {
    Obj(map[
          "role" := Str(RoleName(m.role)),
          "content" := Nullable(m.content),
          "tool_calls" := Arr(SerializeCalls(m.toolCalls)),
          "tool_call_id" := Nullable(m.toolCallId),
          "is_error" := Bool(m.isError)])
  }

  function SerializeMessages(ms: seq<Msg>): seq<Json> {
    if ms == [] then [] else [SerializeMessage(ms[0])] + SerializeMessages(ms[1..])
  }

  /** `item.get(key)` where an absent key and an explicit null both read as None. */
  function GetText(fields: map<string, Json>, key: string): Option<Option<string>> {
    if key !in fields || fields[key].Null? then Some(None)
    else if fields[key].Str? then Some(Some(fields[key].s))
    else None
  }

  /** `tc.get("input") or {}`: absent, null and every other falsy value read as the empty object. */
  function GetInput(fields: map<string, Json>): Option<map<string, Json>> {
    if "input" !in fields then Some(map[])
    else match fields["input"]
      case Obj(input) => Some(input)
      case Null => Some(map[])
      case Bool(b) => if b then None else Some(map[])
      case Num(n) => if n == 0 then Some(map[]) else None
      case Str(s) => if s == "" then Some(map[]) else None
      case Arr(items) => if items == [] then Some(map[]) else None
  }

  /** None stands for the KeyError (or the ill-typed row) that makes the original raise. */
  function DeserializeCall(j: Json): Option<ToolCall> {
    if !j.Obj? || "id" !in j.fields || "name" !in j.fields then None
    else
      match (j.fields["id"], j.fields["name"], GetInput(j.fields), GetText(j.fields, "raw_input"))
      case (Str(id), Str(name), Some(input), Some(raw)) => Some(ToolCall(id, name, input, raw))
      case _ => None
  }

  function DeserializeCalls(js: seq<Json>): Option<seq<ToolCall>> {
    if js == [] then Some([])
    else match (DeserializeCall(js[0]), DeserializeCalls(js[1..]))
      case (Some(c), Some(cs)) => Some([c] + cs)
      case _ => None
  }

  /** `item.get("tool_calls", [])`. */
  function GetCalls(fields: map<string, Json>): Option<seq<ToolCall>> {
    if "tool_calls" !in fields then Some([])
    else if fields["tool_calls"].Arr? then DeserializeCalls(fields["tool_calls"].items)
    else None
  }

  /** `item.get("is_error", False)`. */
  function GetFlag(fields: map<string, Json>): Option<bool> {
    if "is_error" !in fields then Some(false)
    else if fields["is_error"].Bool? then Some(fields["is_error"].b)
    else None
  }

  function GetRole(fields: map<string, Json>): Option<Role> {
    if "role" in fields && fields["role"].Str? then RoleNamed(fields["role"].s) else None
  }

  function DeserializeMessage(j: Json): Option<Msg> {
    if !j.Obj? then None
    else
      match (GetRole(j.fields), GetText(j.fields, "content"), GetCalls(j.fields),
             GetText(j.fields, "tool_call_id"), GetFlag(j.fields))
      case (Some(role), Some(content), Some(calls), Some(id), Some(err)) =>
        Some(Msg(role, content, calls, id, err))
      case _ => None
  }

  /** The stored list may be null: `data or []`. */
  function DeserializeMessages(data: Option<seq<Json>>): Option<seq<Msg>>
    decreases if data.Some? then |data.value| else 0
  {
    if data.None? || data.value == [] then Some([])
    else match (DeserializeMessage(data.value[0]), DeserializeMessages(Some(data.value[1..])))
      case (Some(m), Some(ms)) => Some([m] + ms)
      case _ => None
  }

  lemma CallRoundTrip(c: ToolCall)
    ensures DeserializeCall(SerializeCall(c)) == Some(c)
  {
    var fields := SerializeCall(c).fields;
    assert fields["id"] == Str(c.id) && fields["name"] == Str(c.name);
    assert GetInput(fields) == Some(c.input);
    assert GetText(fields, "raw_input") == Some(c.rawInput);
  }

  lemma {:induction false} CallsRoundTrip(cs: seq<ToolCall>)
    ensures DeserializeCalls(SerializeCalls(cs)) == Some(cs)
  {
    if cs != [] {
      assert SerializeCalls(cs)[1..] == SerializeCalls(cs[1..]);
      CallsRoundTrip(cs[1..]);
      CallRoundTrip(cs[0]);
      assert [cs[0]] + cs[1..] == cs;
    }
  }

  lemma MessageRoundTrip(m: Msg)
    ensures DeserializeMessage(SerializeMessage(m)) == Some(m)
  {
    var fields := SerializeMessage(m).fields;
    CallsRoundTrip(m.toolCalls);
    assert GetRole(fields) == Some(m.role);
    assert GetText(fields, "content") == Some(m.content);
    assert GetCalls(fields) == Some(m.toolCalls);
    assert GetText(fields, "tool_call_id") == Some(m.toolCallId);
    assert GetFlag(fields) == Some(m.isError);
  }

  lemma {:induction false} MessagesRoundTrip(ms: seq<Msg>)
    ensures DeserializeMessages(Some(SerializeMessages(ms))) == Some(ms)
  {
    if ms != [] {
      assert SerializeMessages(ms)[1..] == SerializeMessages(ms[1..]);
      MessagesRoundTrip(ms[1..]);
      MessageRoundTrip(ms[0]);
      assert [ms[0]] + ms[1..] == ms;
    }
  }

  // ------------------------------------------------------------------ the tool-call rule

  function Ids(cs: seq<ToolCall>): multiset<string> {
    if cs == [] then multiset{} else multiset{cs[0].id} + Ids(cs[1..])
  }

  /** The call ids a transcript still owes an answer to; None once it has broken the rule. */
  function Owed(ms: seq<Msg>): Option<multiset<string>> {
    if ms == [] then Some(multiset{}) else OwedAfter(Owed(ms[..|ms| - 1]), ms[|ms| - 1])
  }

  function OwedAfter(owed: Option<multiset<string>>, m: Msg): Option<multiset<string>> {
    match owed
    case None => None
    case Some(ids) =>
      if m.role.Tool? then
        if m.toolCalls == [] && m.toolCallId.Some? && m.toolCallId.value in ids
        then Some(ids - multiset{m.toolCallId.value})
        else None
      else if ids != multiset{} then None
      else if m.role.Assistant? then Some(Ids(m.toolCalls))
      else if m.toolCalls == [] then Some(multiset{})
      else None
  }

  predicate Settled(ms: seq<Msg>) { Owed(ms) == Some(multiset{}) }

  predicate Owes(ms: seq<Msg>, id: string) { Owed(ms) == Some(multiset{id}) }

  lemma OwedSnoc(ms: seq<Msg>, m: Msg)
    ensures Owed(ms + [m]) == OwedAfter(Owed(ms), m)
  {
    assert (ms + [m])[..|ms|] == ms;
  }

  /** Answers to every call but the first: one tool at a time. */
  function Refusals(rest: seq<ToolCall>): seq<Msg> {
    if rest == [] then []
    else Refusals(rest[..|rest| - 1]) + [Refusal(rest[|rest| - 1])]
  }

  function Refusal(c: ToolCall): Msg {
    ResultMsg(c.id, "{\"error\": \"one tool at a time - call again\"}", true)
  }

  lemma {:induction false} IdsSnoc(cs: seq<ToolCall>, c: ToolCall)
    ensures Ids(cs + [c]) == Ids(cs) + multiset{c.id}
  {
    if cs == [] {
      assert [c][1..] == [];
    } else {
      assert (cs + [c])[1..] == cs[1..] + [c];
      IdsSnoc(cs[1..], c);
    }
  }

  lemma AnswerOne(ms: seq<Msg>, owed: multiset<string>, c: ToolCall)
    requires Owed(ms) == Some(owed + multiset{c.id})
    ensures Owed(ms + [Refusal(c)]) == Some(owed)
  {
    OwedSnoc(ms, Refusal(c));
    assert c.id in owed + multiset{c.id};
    assert (owed + multiset{c.id}) - multiset{c.id} == owed;
  }

  lemma OwedRegroups(ms: seq<Msg>, keep: multiset<string>, front: seq<ToolCall>, c: ToolCall)
    requires Owed(ms) == Some(keep + Ids(front + [c]))
    ensures Owed(ms) == Some((keep + multiset{c.id}) + Ids(front))
  {
    IdsSnoc(front, c);
    assert keep + Ids(front + [c]) == (keep + multiset{c.id}) + Ids(front);
  }

  lemma NothingAsked(ms: seq<Msg>, keep: multiset<string>)
    ensures keep + Ids([]) == keep && ms + Refusals([]) == ms
  {
  }

  lemma {:induction false} RefusalsAnswer(ms: seq<Msg>, keep: multiset<string>, rest: seq<ToolCall>)
    requires Owed(ms) == Some(keep + Ids(rest))
    ensures Owed(ms + Refusals(rest)) == Some(keep)
    decreases |rest|
  {
    hide Owed;
    hide Ids;
    if rest == [] {
      NothingAsked(ms, keep);
    } else {
      var front, c := rest[..|rest| - 1], rest[|rest| - 1];
      assert rest == front + [c];
      OwedRegroups(ms, keep, front, c);
      RefusalsAnswer(ms, keep + multiset{c.id}, front);
      var answered := ms + Refusals(front);
      AnswerOne(answered, keep, c);
      assert ms + Refusals(rest) == answered + [Refusal(c)];
    }
  }

  /** After the assistant's calls and the refusals only the first call is left open. */
  lemma AskedOwesFirst(ms: seq<Msg>, text: Option<string>, first: ToolCall, rest: seq<ToolCall>)
    requires Settled(ms)
    ensures Owes(ms + [AssistantMsg(text, [first] + rest)] + Refusals(rest), first.id)
  {
    var asked := AssistantMsg(text, [first] + rest);
    OwedSnoc(ms, asked);
    assert ([first] + rest)[1..] == rest;
    assert Owed(ms + [asked]) == Some(multiset{first.id} + Ids(rest));
    RefusalsAnswer(ms + [asked], multiset{first.id}, rest);
  }

  /** Answering the one open call settles the transcript. */
  lemma AnswerSettles(ms: seq<Msg>, id: string, text: string, isError: bool)
    requires Owes(ms, id)
    ensures Settled(ms + [ResultMsg(id, text, isError)])
  {
    OwedSnoc(ms, ResultMsg(id, text, isError));
    assert multiset{id} - multiset{id} == multiset{};
  }

  function CallsOf(ms: seq<Msg>, id: string): nat {
    if ms == [] then 0 else
      var m := ms[|ms| - 1];
      CallsOf(ms[..|ms| - 1], id) + (if m.role.Assistant? then Ids(m.toolCalls)[id] else 0)
  }

  function ResultsOf(ms: seq<Msg>, id: string): nat {
    if ms == [] then 0 else
      var m := ms[|ms| - 1];
      ResultsOf(ms[..|ms| - 1], id) + (if m.role.Tool? && m.toolCallId == Some(id) then 1 else 0)
  }

  /** A transcript within the rule has answered every call id exactly as often as it was used,
      bar the ones it still owes; in particular a fresh id has exactly one result once settled. */
  lemma {:induction false} EveryCallAnswered(ms: seq<Msg>, id: string)
    requires Owed(ms).Some?
    ensures CallsOf(ms, id) == ResultsOf(ms, id) + Owed(ms).value[id]
  {
    if ms != [] {
      EveryCallAnswered(ms[..|ms| - 1], id);
    }
  }

  // ------------------------------------------------------------------ the opening of a fresh run

  const HISTORY_CAP := 30

  datatype Line = Line(fromContact: bool, text: string)

  function HistoryMsg(l: Line): Msg {
    if l.fromContact then UserMsg(l.text) else AssistantMsg(Some(l.text), [])
  }

  function History(lines: seq<Line>): seq<Msg> {
    if lines == [] then [] else History(lines[..|lines| - 1]) + [HistoryMsg(lines[|lines| - 1])]
  }

  /** The system prompt followed by at most the last thirty public messages. */
  function Opening(prompt: string, lines: seq<Line>): seq<Msg> {
    [SystemMsg(prompt)] + History(if |lines| > HISTORY_CAP then lines[|lines| - HISTORY_CAP..] else lines)
  }

  lemma {:induction false} HistorySettles(ms: seq<Msg>, lines: seq<Line>)
    requires Settled(ms)
    ensures Settled(ms + History(lines))
    decreases |lines|
  {
    hide Owed;
    if lines == [] {
      assert ms + History(lines) == ms;
    } else {
      var front := lines[..|lines| - 1];
      HistorySettles(ms, front);
      var m := HistoryMsg(lines[|lines| - 1]);
      assert ms + History(lines) == (ms + History(front)) + [m];
      OwedSnoc(ms + History(front), m);
    }
  }

  lemma OpeningSettled(prompt: string, lines: seq<Line>)
    ensures Settled(Opening(prompt, lines))
  {
    assert [] + [SystemMsg(prompt)] == [SystemMsg(prompt)];
    OwedSnoc([], SystemMsg(prompt));
    HistorySettles([SystemMsg(prompt)], if |lines| > HISTORY_CAP then lines[|lines| - HISTORY_CAP..] else lines);
  }
}
