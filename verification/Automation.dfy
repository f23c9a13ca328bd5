/** Automation rules: events run rules, rules run actions, actions emit events. The cascade is cut at a depth cap, and a
    message remembers which rules have completed on it. */
module Automation {
  import opened Wrappers

  const MAX_DEPTH := 8

  /** Of the five rule-triggering events only `message.created` is guarded. */
  datatype Event =
    | MessageCreated(bySystem: bool, message: Option<nat>)
    | RuleEvent(name: string)
    | Unsubscribed(name: string)

  /** The actions a rule may take, by the type that names them. */
  datatype Action =
    | NotifyMember | SendWebhook | AssignUser | AssignTeam | SetPriority | SetStatus | AddTag | SendReply | SendNote | Unknown

  datatype Rule = Rule(id: string, actions: seq<Action>)

  datatype Verdict = Matches | Differs | Raises

  /** What an action's service call does: nothing to change, all of it, or raise after emitting some of its events. */
  datatype Finding = Nothing | Changed | Broke(emitted: nat)

  /** Everything the engine cannot see. The last argument of each oracle is the moment (entries logged so far), so that
      asking again later may get another answer. `rules` is None when the lookup raises. */
  datatype World = World(
    rules: (Event, nat) -> Option<seq<Rule>>,
    verdict: (string, Event, nat) -> Verdict,
    find: (string, nat, nat) -> Finding,
    talks: Event -> bool,          // the event leads to a conversation
    visible: nat -> bool)          // the message exists and is not an activity entry

  datatype Entry =
    | Began(rule: string, message: Option<nat>)
    | Acted(rule: string, action: nat)
    | Completed(rule: string, message: Option<nat>)
    | Passed(rule: string, message: Option<nat>)
    | Failed(rule: string, message: Option<nat>)

  /** `next` is the id the next message gets. */
  datatype State = State(handled: map<nat, seq<string>>, log: seq<Entry>, next: nat)

  // ------------------------------------------------------------------ what an action emits

  predicate NeedsConversation(a: Action) { !a.NotifyMember? && !a.SendWebhook? }

  /** Messages of the engine, activity entries included, are new and authored by the system. */
  function Posted(id: nat): Event { MessageCreated(true, Some(id)) }

  function EventsOf(a: Action, next: nat): seq<Event> {
    match a
    case AssignUser => [Posted(next), Unsubscribed("conversation.assigned")]
    case AssignTeam => [Unsubscribed("conversation.assigned")]
    case SetPriority => [Unsubscribed("conversation.updated")]
    case AddTag => [Unsubscribed("conversation.updated")]
    case SetStatus => [Posted(next), RuleEvent("conversation.status_changed")]
    case SendReply => [Posted(next)]
    case SendNote => [Posted(next)]
    case _ => []
  }

  /** The events one action emits before it returns or raises. */
  function Emitted(a: Action, talks: bool, found: Finding, next: nat): seq<Event> {
    if NeedsConversation(a) && !talks then []
    else
      var all := EventsOf(a, next);
      match found
      case Nothing => []
      case Changed => all
      case Broke(n) => if n < |all| then all[..n] else all
  }

  predicate ActionRaises(a: Action, talks: bool, found: Finding) { found.Broke? && !(NeedsConversation(a) && !talks) }

  // ------------------------------------------------------------------ the message guard

  /** The message a rule run is about, None when the event must be skipped or is about no message. */
  function GuardedMessage(w: World, e: Event): Option<nat> {
    if e.MessageCreated? && !e.bySystem && e.message.Some? && w.visible(e.message.value) then e.message else None
  }

  predicate Skips(w: World, e: Event) {
    e.Unsubscribed? || (e.MessageCreated? && GuardedMessage(w, e).None?)
  }

  predicate AlreadyHandled(s: State, message: Option<nat>, rule: string) {
    message.Some? && message.value in s.handled && rule in s.handled[message.value]
  }

  function MarkHandled(s: State, message: Option<nat>, rule: string): State {
    if message.None? || AlreadyHandled(s, message, rule) then s
    else
      var before := if message.value in s.handled then s.handled[message.value] else [];
      s.(handled := s.handled[message.value := before + [rule]])
  }

  function Log(s: State, e: Entry): State { s.(log := s.log + [e]) }

  // ------------------------------------------------------------------ the cascade

  function Emit(w: World, s: State, e: Event, depth: nat): State
    requires depth <= MAX_DEPTH
    decreases MAX_DEPTH - depth, 3
  {
    if depth >= MAX_DEPTH || Skips(w, e) then s
    else match w.rules(e, |s.log|)
      case None => s
      case Some(rules) => Each(w, s, e, rules, depth)
  }

  function EmitAll(w: World, s: State, es: seq<Event>, depth: nat): State
    requires depth <= MAX_DEPTH
    decreases MAX_DEPTH - depth, 4, |es|
  {
    if es == [] then s else EmitAll(w, Emit(w, s, es[0], depth), es[1..], depth)
  }

  function Each(w: World, s: State, e: Event, rules: seq<Rule>, depth: nat): State
    requires depth < MAX_DEPTH
    decreases MAX_DEPTH - depth, 2, |rules|
  {
    if rules == [] then s else Each(w, RunRule(w, s, e, rules[0], depth), e, rules[1..], depth)
  }

  function RunRule(w: World, s: State, e: Event, rule: Rule, depth: nat): State
    requires depth < MAX_DEPTH
    decreases MAX_DEPTH - depth, 1
  {
    var message := GuardedMessage(w, e);
    if AlreadyHandled(s, message, rule.id) then s
    else
      var t := Log(s, Began(rule.id, message));
      match w.verdict(rule.id, e, |s.log|)
      case Raises => Log(t, Failed(rule.id, message))
      case Differs => Log(t, Passed(rule.id, message))
      case Matches =>
        var ran := Acts(w, t, rule, 0, w.talks(e), depth);
        if ran.ok then Log(MarkHandled(ran.state, message, rule.id), Completed(rule.id, message))
        else Log(ran.state, Failed(rule.id, message))
  }

  datatype Ran = Ran(state: State, ok: bool)

  function Acts(w: World, s: State, rule: Rule, k: nat, talks: bool, depth: nat): Ran
    requires depth < MAX_DEPTH && k <= |rule.actions|
    decreases MAX_DEPTH - depth, 0, |rule.actions| - k
  {
    if k == |rule.actions| then Ran(s, true)
    else
      var found := w.find(rule.id, k, |s.log|);
      var t := EmitAll(w, Acting(s, rule, k), Emitted(rule.actions[k], talks, found, s.next), depth + 1);
      if ActionRaises(rule.actions[k], talks, found) then Ran(t, false) else Acts(w, t, rule, k + 1, talks, depth)
  }

  /** The action is noted, and the id a message of its would get is taken. */
  function Acting(s: State, rule: Rule, k: nat): State { Log(s.(next := s.next + 1), Acted(rule.id, k)) }

  // ------------------------------------------------------------------ as written, with the depth counter in a field

  class Engine {
    const world: World
    var depth: nat
    var handled: map<nat, seq<string>>
    var log: seq<Entry>
    var next: nat

    function Value(): State reads this { State(handled, log, next) }

    constructor (world: World, next: nat)
      ensures this.world == world && depth == 0 && Value() == State(map[], [], next)
    {
      this.world, this.next := world, next;
      depth, handled, log := 0, map[], [];
    }

    /** A history of events from outside, each at depth zero. */
    method DeliverAll(history: seq<Event>)
      requires depth == 0
      modifies this
      ensures depth == 0 && Value() == EmitAll(world, old(Value()), history, 0)
      decreases MAX_DEPTH, 4
    {
      hide Emit;
      var i := 0;
      while i < |history|
        invariant 0 <= i <= |history| && depth == 0
        invariant EmitAll(world, Value(), history[i..], 0) == EmitAll(world, old(Value()), history, 0)
      {
        assert history[i..][1..] == history[i + 1..];
        Deliver(history[i]);
        i := i + 1;
      }
    }

    /** Deliver one event. Whatever raises on the way, the depth is what it was. */
    method Deliver(e: Event)
      requires depth <= MAX_DEPTH
      modifies this
      ensures depth == old(depth) && Value() == Emit(world, old(Value()), e, depth)
      decreases MAX_DEPTH - depth, 3
    {
      hide Each;
      if depth >= MAX_DEPTH || Skips(world, e) { return; }
      var rules := world.rules(e, |log|);
      if rules.Some? { RunRules(e, rules.value); }
    }

    method RunRules(e: Event, rules: seq<Rule>)
      requires depth < MAX_DEPTH
      modifies this
      ensures depth == old(depth) && Value() == Each(world, old(Value()), e, rules, depth)
      decreases MAX_DEPTH - depth, 2
    {
      hide RunRule;
      var token := depth;
      depth := depth + 1;
      var i := 0;
      while i < |rules|
        invariant 0 <= i <= |rules| && depth == token + 1 == old(depth) + 1
        invariant Each(world, Value(), e, rules[i..], token) == Each(world, old(Value()), e, rules, token)
      {
        assert rules[i..][1..] == rules[i + 1..] && rules[i..][0] == rules[i];
        ApplyRule(e, rules[i]);
        i := i + 1;
      }
      depth := token;
    }

    method ApplyRule(e: Event, rule: Rule)
      requires 0 < depth <= MAX_DEPTH
      modifies this
      ensures depth == old(depth) && Value() == RunRule(world, old(Value()), e, rule, depth - 1)
      decreases MAX_DEPTH - depth + 1, 1
    {
      hide Acts;
      var message := GuardedMessage(world, e);
      if AlreadyHandled(Value(), message, rule.id) { return; }
      var verdict := world.verdict(rule.id, e, |log|);
      log := log + [Began(rule.id, message)];
      match verdict
      case Raises => log := log + [Failed(rule.id, message)];
      case Differs => log := log + [Passed(rule.id, message)];
      case Matches =>
        var ok := RunActions(rule, world.talks(e));
        if ok {
          Mark(message, rule.id);
          log := log + [Completed(rule.id, message)];
        } else {
          log := log + [Failed(rule.id, message)];
        }
    }

    /** The actions in order; false when one raised, leaving what it did in place. */
    method RunActions(rule: Rule, talks: bool) returns (ok: bool)
      requires 0 < depth <= MAX_DEPTH
      modifies this
      ensures depth == old(depth) && Ran(Value(), ok) == Acts(world, old(Value()), rule, 0, talks, depth - 1)
      decreases MAX_DEPTH - depth + 1, 0
    {
      hide Emit;
      hide Emitted;
      hide ActionRaises;
      var k := 0;
      while k < |rule.actions|
        invariant 0 <= k <= |rule.actions| && depth == old(depth)
        invariant Acts(world, Value(), rule, k, talks, depth - 1) == Acts(world, old(Value()), rule, 0, talks, depth - 1)
      {
        var found := world.find(rule.id, k, |log|);
        var events := Emitted(rule.actions[k], talks, found, next);
        next := next + 1;
        log := log + [Acted(rule.id, k)];
        ghost var s := Value();
        var i := 0;
        while i < |events|
          invariant 0 <= i <= |events| && depth == old(depth)
          invariant EmitAll(world, Value(), events[i..], depth) == EmitAll(world, s, events, depth)
        {
          assert events[i..][1..] == events[i + 1..];
          Deliver(events[i]);
          i := i + 1;
        }
        if ActionRaises(rule.actions[k], talks, found) { return false; }
        k := k + 1;
      }
      return true;
    }

    method Mark(message: Option<nat>, rule: string)
      modifies this`handled
      ensures Value() == MarkHandled(old(Value()), message, rule)
    {
      if message.None? { return; }
      var before := if message.value in handled then handled[message.value] else [];
      if rule !in before { handled := handled[message.value := before + [rule]]; }
    }
  }
}
