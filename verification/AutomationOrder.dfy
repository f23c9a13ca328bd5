/** What an event makes its rules do, read off the log: which rules begin, in what order, which actions each takes at its own
    level, and how it ends. */
module AutomationOrder {
  import opened Wrappers
  import opened Automation
  import opened AutomationTheorems

  // ------------------------------------------------------------------ nested runs in the log

  predicate Ends(x: Entry) { x.Completed? || x.Passed? || x.Failed? }

  /** How many rule runs are open after these entries; None when they end or act in a run they did not begin. */
  function Depth(es: seq<Entry>): Option<nat>
    decreases |es|
  {
    if es == [] then Some(0) else Deeper(Depth(es[..|es| - 1]), es[|es| - 1])
  }

  function Deeper(depth: Option<nat>, x: Entry): Option<nat> {
    match depth
    case None => None
    case Some(d) => if x.Began? then Some(d + 1) else if d == 0 then None else if x.Acted? then Some(d) else Some(d - 1)
  }

  /** A stretch of log made of whole rule runs. */
  predicate Whole(es: seq<Entry>) { Depth(es) == Some(0) }

  lemma DepthSnoc(es: seq<Entry>, x: Entry)
    ensures Depth(es + [x]) == Deeper(Depth(es), x)
  {
    assert (es + [x])[..|es|] == es;
  }

  lemma {:induction false} DepthAdds(a: seq<Entry>, b: seq<Entry>)
    requires Depth(a).Some? && Depth(b).Some?
    ensures Depth(a + b) == Some(Depth(a).value + Depth(b).value)
    decreases |b|
  {
    if b == [] {
      assert a + b == a;
    } else {
      var n := |b| - 1;
      DepthAdds(a, b[..n]);
      assert a + b == (a + b[..n]) + [b[n]];
      DepthSnoc(a + b[..n], b[n]);
    }
  }

  /** State t only adds whole runs to s. */
  predicate AddsWhole(s: State, t: State) { s.log <= t.log && Whole(t.log[|s.log|..]) }

  /** Within a run: whatever d >= 1 runs are open before, they are after. */
  ghost predicate AddsWithin(s: State, t: State) {
    s.log <= t.log && forall p: seq<Entry> :: Depth(p).Some? && Depth(p).value > 0 ==> Depth(p + t.log[|s.log|..]) == Depth(p)
  }

  lemma NothingAdded(s: State, t: State)
    requires t.log == s.log
    ensures AddsWhole(s, t) && AddsWithin(s, t)
  {
    assert t.log[|s.log|..] == [];
    forall p: seq<Entry> ensures p + t.log[|s.log|..] == p {}
    hide Depth;
    assert Depth([]) == Some(0) by { NoDepth(); }
  }

  lemma NoDepth()
    ensures Depth([]) == Some(0)
  {
  }

  lemma WholeChains(s: State, t: State, u: State)
    requires AddsWhole(s, t) && AddsWhole(t, u)
    ensures AddsWhole(s, u)
  {
    DepthAdds(t.log[|s.log|..], u.log[|t.log|..]);
    assert u.log[|s.log|..] == t.log[|s.log|..] + u.log[|t.log|..];
    hide Depth;
  }

  lemma WithinChains(s: State, t: State, u: State)
    requires AddsWithin(s, t) && AddsWithin(t, u)
    ensures AddsWithin(s, u)
  {
    LogsGrow(s, t);
    LogsGrow(t, u);
    forall p: seq<Entry> | Depth(p).Some? && Depth(p).value > 0 ensures Depth(p + u.log[|s.log|..]) == Depth(p) {
      WithinBoth(s, t, u, p);
    }
    hide Depth;
  }

  lemma LogsGrow(s: State, t: State)
    requires AddsWithin(s, t)
    ensures s.log <= t.log
  {
  }

  lemma WithinBoth(s: State, t: State, u: State, p: seq<Entry>)
    requires AddsWithin(s, t) && AddsWithin(t, u) && Depth(p).Some? && Depth(p).value > 0
    ensures s.log <= u.log && Depth(p + u.log[|s.log|..]) == Depth(p)
  {
    hide Depth;
    var q := p + t.log[|s.log|..];
    assert Depth(q) == Depth(p);
    assert Depth(q + u.log[|t.log|..]) == Depth(q);
    assert p + u.log[|s.log|..] == q + u.log[|t.log|..];
  }

  lemma WholeIsWithin(s: State, t: State)
    requires AddsWhole(s, t)
    ensures AddsWithin(s, t)
  {
    forall p: seq<Entry> | Depth(p).Some? && Depth(p).value > 0 ensures Depth(p + t.log[|s.log|..]) == Depth(p) {
      DepthAdds(p, t.log[|s.log|..]);
    }
    hide Depth;
  }

  lemma ActedWithin(s: State, t: State, x: Entry)
    requires x.Acted? && t.log == s.log + [x]
    ensures AddsWithin(s, t)
  {
    assert t.log[|s.log|..] == [x];
    forall p: seq<Entry> | Depth(p).Some? && Depth(p).value > 0 ensures Depth(p + [x]) == Depth(p) { DepthSnoc(p, x); }
    hide Depth;
  }

  lemma WithinAt(s: State, t: State, p: seq<Entry>)
    requires AddsWithin(s, t) && Depth(p).Some? && Depth(p).value > 0
    ensures s.log <= t.log && Depth(p + t.log[|s.log|..]) == Depth(p)
  {
    hide Depth;
  }

  lemma RunDepth(first: Entry, inner: seq<Entry>, last: Entry)
    requires first.Began? && Ends(last) && Depth([first] + inner) == Depth([first])
    ensures Depth([first] + inner + [last]) == Some(0)
  {
    NoDepth();
    DepthSnoc([], first);
    assert [] + [first] == [first];
    DepthSnoc([first] + inner, last);
    hide Depth;
  }

  lemma OneOpen(first: Entry)
    requires first.Began?
    ensures Depth([first]) == Some(1)
  {
    NoDepth();
    DepthSnoc([], first);
    assert [] + [first] == [first];
    hide Depth;
  }

  lemma RunShape(before: seq<Entry>, first: Entry, inner: seq<Entry>, last: Entry)
    ensures (before + [first] + inner + [last])[|before|..] == [first] + inner + [last]
    ensures before <= before + [first] + inner + [last]
  {
  }

  /** A run: it begins, acts within, and ends. */
  lemma RunIsWhole(s: State, t: State, u: State, v: State, first: Entry, last: Entry)
    requires first.Began? && Ends(last) && t.log == s.log + [first] && AddsWithin(t, u) && v.log == u.log + [last]
    ensures AddsWhole(s, v)
  {
    LogsGrow(t, u);
    OneOpen(first);
    WithinAt(t, u, [first]);
    hide AddsWithin;
    hide Depth;
    var inner := u.log[|t.log|..];
    RunDepth(first, inner, last);
    RunShape(s.log, first, inner, last);
    assert v.log == s.log + [first] + inner + [last];
  }

  // ------------------------------------------------------------------ every cascade is made of whole runs

  lemma EmitWhole(w: World, s: State, e: Event, depth: nat)
    requires depth <= MAX_DEPTH
    ensures AddsWhole(s, Emit(w, s, e, depth))
    decreases MAX_DEPTH - depth, 3
  {
    hide AddsWhole;
    hide Each;
    NothingAdded(s, s);
    if depth < MAX_DEPTH && !Skips(w, e) && w.rules(e, |s.log|).Some? {
      EachWhole(w, s, e, w.rules(e, |s.log|).value, depth);
    }
  }

  lemma EmitAllWhole(w: World, s: State, es: seq<Event>, depth: nat)
    requires depth <= MAX_DEPTH
    ensures AddsWhole(s, EmitAll(w, s, es, depth))
    decreases MAX_DEPTH - depth, 4, |es|
  {
    hide AddsWhole;
    hide Emit;
    NothingAdded(s, s);
    if es != [] {
      EmitWhole(w, s, es[0], depth);
      EmitAllWhole(w, Emit(w, s, es[0], depth), es[1..], depth);
      WholeChains(s, Emit(w, s, es[0], depth), EmitAll(w, s, es, depth));
    }
  }

  lemma EachWhole(w: World, s: State, e: Event, rules: seq<Rule>, depth: nat)
    requires depth < MAX_DEPTH
    ensures AddsWhole(s, Each(w, s, e, rules, depth))
    decreases MAX_DEPTH - depth, 2, |rules|
  {
    hide AddsWhole;
    hide RunRule;
    NothingAdded(s, s);
    if rules != [] {
      RuleWhole(w, s, e, rules[0], depth);
      EachWhole(w, RunRule(w, s, e, rules[0], depth), e, rules[1..], depth);
      WholeChains(s, RunRule(w, s, e, rules[0], depth), Each(w, s, e, rules, depth));
    }
  }

  lemma RuleWhole(w: World, s: State, e: Event, rule: Rule, depth: nat)
    requires depth < MAX_DEPTH
    ensures AddsWhole(s, RunRule(w, s, e, rule, depth))
    decreases MAX_DEPTH - depth, 1
  {
    hide AddsWhole;
    hide AddsWithin;
    hide Acts;
    NothingAdded(s, s);
    var message := GuardedMessage(w, e);
    var first := Began(rule.id, message);
    var t := Log(s, first);
    NothingAdded(t, t);
    var u := Acts(w, t, rule, 0, w.talks(e), depth).state;
    ActsWithin(w, t, rule, 0, w.talks(e), depth);
    RunIsWhole(s, t, t, Log(t, Failed(rule.id, message)), first, Failed(rule.id, message));
    RunIsWhole(s, t, t, Log(t, Passed(rule.id, message)), first, Passed(rule.id, message));
    RunIsWhole(s, t, u, Log(u, Failed(rule.id, message)), first, Failed(rule.id, message));
    RunIsWhole(s, t, u, Log(MarkHandled(u, message, rule.id), Completed(rule.id, message)), first, Completed(rule.id, message));
  }

  lemma ActsWithin(w: World, s: State, rule: Rule, k: nat, talks: bool, depth: nat)
    requires depth < MAX_DEPTH && k <= |rule.actions|
    ensures AddsWithin(s, Acts(w, s, rule, k, talks, depth).state)
    decreases MAX_DEPTH - depth, 0, |rule.actions| - k
  {
    hide AddsWhole;
    hide AddsWithin;
    hide EmitAll;
    hide Emitted;
    hide ActionRaises;
    NothingAdded(s, s);
    if k < |rule.actions| {
      var found := w.find(rule.id, k, |s.log|);
      var es := Emitted(rule.actions[k], talks, found, s.next);
      var acted := Acting(s, rule, k);
      var t := EmitAll(w, acted, es, depth + 1);
      ActedWithin(s, acted, Acted(rule.id, k));
      EmitAllWhole(w, acted, es, depth + 1);
      WholeIsWithin(acted, t);
      WithinChains(s, acted, t);
      if !ActionRaises(rule.actions[k], talks, found) {
        ActsWithin(w, t, rule, k + 1, talks, depth);
        WithinChains(s, t, Acts(w, t, rule, k + 1, talks, depth).state);
      }
    }
  }

  // ------------------------------------------------------------------ what an action sets off

  const StatusChanged := RuleEvent("conversation.status_changed")

  /** Notices and webhooks need no conversation; every other action is skipped without one. */
  predicate Applies(a: Action, talks: bool) { a.NotifyMember? || a.SendWebhook? || talks }

  /** The action raises in the middle of its work. */
  predicate Fails(a: Action, talks: bool, found: Finding) { Applies(a, talks) && found.Broke? }

  /** The action changes the conversation's status and gets as far as saying so. */
  predicate SetsOff(a: Action, talks: bool, found: Finding) {
    a.SetStatus? && talks && (found.Changed? || (found.Broke? && found.emitted >= 2))
  }

  /** Of all actions only a change of status runs any rules: those for that event, one level down. */
  lemma OnlyStatusChangesCascade(w: World, s: State, a: Action, talks: bool, found: Finding, next: nat, depth: nat)
    requires depth <= MAX_DEPTH
    ensures EmitAll(w, s, Emitted(a, talks, found, next), depth) == if SetsOff(a, talks, found) then Emit(w, s, StatusChanged, depth) else s
  {
    var es := Emitted(a, talks, found, next);
    hide Each;
    if |es| == 2 {
      assert es[1..] == [es[1]] && es[1..][1..] == [];
      assert EmitAll(w, s, es, depth) == EmitAll(w, Emit(w, s, es[0], depth), es[1..], depth);
      assert EmitAll(w, s, es[1..], depth) == EmitAll(w, Emit(w, s, es[1], depth), [], depth);
    } else if |es| == 1 {
      assert es[1..] == [];
      assert EmitAll(w, s, es, depth) == EmitAll(w, Emit(w, s, es[0], depth), [], depth);
    }
  }

  lemma FailsWhenRaised(a: Action, talks: bool, found: Finding)
    ensures ActionRaises(a, talks, found) <==> Fails(a, talks, found)
  {
  }

  // ------------------------------------------------------------------ the actions of one run

  /** Action k of the rule, taken at position `at` of the log, with the position where the next thing of this run stands: what
      lies between is whole runs of other rules, and only a change of status lets there be any. */
  predicate TakenAt(w: World, rule: Rule, k: nat, talks: bool, depth: nat, log: seq<Entry>, at: nat, upTo: nat)
    requires k < |rule.actions|
  {
    && at < upTo <= |log| && log[at] == Acted(rule.id, k) && Whole(log[at + 1..upTo])
    && (if SetsOff(rule.actions[k], talks, w.find(rule.id, k, at)) && depth + 1 < 8
           && w.rules(StatusChanged, at + 1).Some? && w.rules(StatusChanged, at + 1).value != []
        then upTo > at + 1 && log[at + 1] == Began(w.rules(StatusChanged, at + 1).value[0].id, None)
        else upTo == at + 1)
  }

  predicate FailsAt(w: World, rule: Rule, k: nat, talks: bool, at: nat)
    requires k < |rule.actions|
  {
    Fails(rule.actions[k], talks, w.find(rule.id, k, at))
  }

  function Upper(at: seq<nat>, k: nat, last: nat): nat { if k + 1 < |at| then at[k + 1] else last }

  /** From action k on, the actions were taken in order, each once, at the positions `at`, up to the first that failed. */
  predicate InOrder(w: World, rule: Rule, k: nat, talks: bool, depth: nat, log: seq<Entry>, from: nat, at: seq<nat>, ok: bool) {
    var n := |at|;
    && k + n <= |rule.actions| && (if n == 0 then k == |rule.actions| && from == |log| && ok else at[0] == from)
    && (forall i :: 0 <= i < n ==> TakenAt(w, rule, k + i, talks, depth, log, at[i], Upper(at, i, |log|)))
    && (forall i :: 0 <= i < n - 1 ==> !FailsAt(w, rule, k + i, talks, at[i]))
    && (n > 0 ==> (ok <==> !FailsAt(w, rule, k + n - 1, talks, at[n - 1]))) && (ok ==> k + n == |rule.actions|)
  }

  lemma FirstTaken(w: World, s: State, rule: Rule, k: nat, talks: bool, depth: nat)
    requires depth < MAX_DEPTH && k < |rule.actions|
    ensures var found := w.find(rule.id, k, |s.log|);
            var t := EmitAll(w, Acting(s, rule, k), Emitted(rule.actions[k], talks, found, s.next), depth + 1);
            |s.log| < |t.log| && s.log <= t.log && TakenAt(w, rule, k, talks, depth, t.log, |s.log|, |t.log|)
  {
    var found := w.find(rule.id, k, |s.log|);
    var acted := Acting(s, rule, k);
    var es := Emitted(rule.actions[k], talks, found, s.next);
    OnlyStatusChangesCascade(w, acted, rule.actions[k], talks, found, s.next, depth + 1);
    EmitAllWhole(w, acted, es, depth + 1);
    hide EmitAll;
    hide Emitted;
    hide Emit;
    FirstBegins(w, acted, depth + 1);
    hide SetsOff;
    hide Depth;
    var t := EmitAll(w, acted, es, depth + 1);
    assert t.log[|s.log| + 1..|t.log|] == t.log[|acted.log|..];
  }

  /** A status change one level down begins with the first rule there is for it. */
  lemma FirstBegins(w: World, s: State, depth: nat)
    requires depth <= MAX_DEPTH
    ensures var t := Emit(w, s, StatusChanged, depth);
            var rules := w.rules(StatusChanged, |s.log|);
            if depth < 8 && rules.Some? && rules.value != []
            then |s.log| < |t.log| && t.log[|s.log|] == Began(rules.value[0].id, None)
            else t == s
  {
    hide Acts;
    hide RunRule;
    var rules := w.rules(StatusChanged, |s.log|);
    if depth < 8 && rules.Some? && rules.value != [] {
      var u := RunRule(w, s, StatusChanged, rules.value[0], depth);
      NoMessageBegins(w, s, rules.value[0], depth);
      EachWhole(w, u, StatusChanged, rules.value[1..], depth);
    }
    hide Depth;
  }

  lemma NoMessageBegins(w: World, s: State, rule: Rule, depth: nat)
    requires depth < MAX_DEPTH
    ensures var t := RunRule(w, s, StatusChanged, rule, depth); |s.log| < |t.log| && t.log[|s.log|] == Began(rule.id, None)
  {
    hide Acts;
    var t := Log(s, Began(rule.id, None));
    ActsWithin(w, t, rule, 0, w.talks(StatusChanged), depth);
    hide Depth;
  }

  lemma {:induction false} ActsInOrder(w: World, s: State, rule: Rule, k: nat, talks: bool, depth: nat) returns (at: seq<nat>)
    requires depth < MAX_DEPTH && k <= |rule.actions|
    ensures var ran := Acts(w, s, rule, k, talks, depth);
            s.log <= ran.state.log && InOrder(w, rule, k, talks, depth, ran.state.log, |s.log|, at, ran.ok)
    decreases |rule.actions| - k
  {
    hide EmitAll;
    hide Emitted;
    hide ActionRaises;
    hide Fails;
    hide TakenAt;
    at := [];
    if k < |rule.actions| {
      var found := w.find(rule.id, k, |s.log|);
      var t := EmitAll(w, Acting(s, rule, k), Emitted(rule.actions[k], talks, found, s.next), depth + 1);
      FirstTaken(w, s, rule, k, talks, depth);
      FailsWhenRaised(rule.actions[k], talks, found);
      if ActionRaises(rule.actions[k], talks, found) {
        at := [|s.log|];
      } else {
        var more := ActsInOrder(w, t, rule, k + 1, talks, depth);
        var ran := Acts(w, t, rule, k + 1, talks, depth);
        at := [|s.log|] + more;
        OneMoreTaken(w, rule, k, talks, depth, t.log, ran.state.log, |s.log|, more, ran.ok);
      }
    }
  }

  lemma TakenStays(w: World, rule: Rule, k: nat, talks: bool, depth: nat, log: seq<Entry>, more: seq<Entry>, at: nat, upTo: nat)
    requires k < |rule.actions| && log <= more && TakenAt(w, rule, k, talks, depth, log, at, upTo)
    ensures TakenAt(w, rule, k, talks, depth, more, at, upTo)
  {
    assert more[at + 1..upTo] == log[at + 1..upTo];
    hide SetsOff;
    hide Depth;
  }

  lemma OneMoreTaken(w: World, rule: Rule, k: nat, talks: bool, depth: nat, log: seq<Entry>, more: seq<Entry>, first: nat, rest: seq<nat>, ok: bool)
    requires k < |rule.actions| && log <= more && TakenAt(w, rule, k, talks, depth, log, first, |log|)
    requires !FailsAt(w, rule, k, talks, first) && InOrder(w, rule, k + 1, talks, depth, more, |log|, rest, ok)
    ensures InOrder(w, rule, k, talks, depth, more, first, [first] + rest, ok)
  {
    hide TakenAt;
    hide FailsAt;
    TakenStays(w, rule, k, talks, depth, log, more, first, |log|);
    var at := [first] + rest;
    forall i | 0 <= i < |at| ensures TakenAt(w, rule, k + i, talks, depth, more, at[i], Upper(at, i, |more|)) {
      if i > 0 { LaterTaken(w, rule, k, talks, depth, more, |log|, first, rest, ok, i - 1); }
    }
    forall i | 0 <= i < |at| - 1 ensures !FailsAt(w, rule, k + i, talks, at[i]) {
      if i > 0 { LaterFails(w, rule, k, talks, depth, more, |log|, rest, ok, i - 1); }
    }
  }

  lemma LaterTaken(w: World, rule: Rule, k: nat, talks: bool, depth: nat, log: seq<Entry>, from: nat, first: nat, rest: seq<nat>, ok: bool, i: nat)
    requires InOrder(w, rule, k + 1, talks, depth, log, from, rest, ok) && i < |rest|
    ensures k + 1 + i < |rule.actions| && TakenAt(w, rule, k + 1 + i, talks, depth, log, rest[i], Upper([first] + rest, i + 1, |log|))
  {
    hide TakenAt;
    hide FailsAt;
    assert Upper([first] + rest, i + 1, |log|) == Upper(rest, i, |log|);
  }

  lemma LaterFails(w: World, rule: Rule, k: nat, talks: bool, depth: nat, log: seq<Entry>, from: nat, rest: seq<nat>, ok: bool, i: nat)
    requires InOrder(w, rule, k + 1, talks, depth, log, from, rest, ok) && i < |rest| - 1
    ensures k + 1 + i < |rule.actions| && !FailsAt(w, rule, k + 1 + i, talks, rest[i])
  {
    hide TakenAt;
    hide FailsAt;
  }

  // ------------------------------------------------------------------ one rule on one event

  /** The message the event is about: a visible message of a visitor or a member, just created. */
  function MessageOf(w: World, e: Event): Option<nat> {
    match e
    case MessageCreated(bySystem, Some(m)) => if bySystem || !w.visible(m) then None else Some(m)
    case _ => None
  }

  predicate Remembered(s: State, message: Option<nat>, rule: string) {
    message.Some? && message.value in s.handled && rule in s.handled[message.value]
  }

  /** One rule on one event, from state s to t. A rule remembered on the message does nothing. Otherwise it begins; and unless its
      conditions raise or differ, it takes its actions at the positions `at`, in order and each once, up to the first that fails;
      it is completed, and remembered, if none did. */
  predicate RanAs(w: World, s: State, e: Event, rule: Rule, depth: nat, at: seq<nat>, t: State) {
    var m := MessageOf(w, e);
    var b := |s.log|;
    if Remembered(s, m, rule.id) then t == s
    else
      && |t.log| >= b + 2 && s.log <= t.log && t.log[b] == Began(rule.id, m) && Whole(t.log[b..])
      && var last := t.log[|t.log| - 1];
         match w.verdict(rule.id, e, b)
         case Raises => |t.log| == b + 2 && last == Failed(rule.id, m)
         case Differs => |t.log| == b + 2 && last == Passed(rule.id, m)
         case Matches =>
           && (last == Completed(rule.id, m) || last == Failed(rule.id, m))
           && InOrder(w, rule, 0, w.talks(e), depth, t.log[..|t.log| - 1], b + 1, at, last.Completed?)
           && (last.Completed? && m.Some? ==> Remembered(t, m, rule.id))
  }

  lemma MessageGuarded(w: World, s: State, e: Event, rule: string)
    ensures GuardedMessage(w, e) == MessageOf(w, e)
    ensures AlreadyHandled(s, MessageOf(w, e), rule) <==> Remembered(s, MessageOf(w, e), rule)
  {
  }

  lemma Marked(s: State, m: Option<nat>, rule: string)
    ensures m.Some? ==> Remembered(Log(MarkHandled(s, m, rule), Completed(rule, m)), m, rule)
    ensures MarkHandled(s, m, rule).log == s.log
  {
  }

  /** A run whose conditions hold, once its actions are taken. */
  lemma MatchedRun(w: World, s: State, e: Event, rule: Rule, depth: nat, at: seq<nat>, ran: Automation.Ran, v: State)
    requires !Remembered(s, MessageOf(w, e), rule.id) && w.verdict(rule.id, e, |s.log|).Matches?
    requires var b := |s.log|;
             s.log + [Began(rule.id, MessageOf(w, e))] <= ran.state.log
             && InOrder(w, rule, 0, w.talks(e), depth, ran.state.log, b + 1, at, ran.ok)
    requires var m := MessageOf(w, e);
             v.log == ran.state.log + [if ran.ok then Completed(rule.id, m) else Failed(rule.id, m)]
             && (ran.ok && m.Some? ==> Remembered(v, m, rule.id))
    requires AddsWhole(s, v)
    ensures RanAs(w, s, e, rule, depth, at, v)
  {
    hide InOrder;
    hide MessageOf;
    hide Remembered;
    hide Depth;
    assert v.log[..|v.log| - 1] == ran.state.log;
    assert v.log[|s.log|] == ran.state.log[|s.log|];
  }

  lemma OtherRun(w: World, s: State, e: Event, rule: Rule, depth: nat)
    requires depth < MAX_DEPTH && (Remembered(s, MessageOf(w, e), rule.id) || !w.verdict(rule.id, e, |s.log|).Matches?)
    ensures RanAs(w, s, e, rule, depth, [], RunRule(w, s, e, rule, depth))
  {
    MessageGuarded(w, s, e, rule.id);
    RuleWhole(w, s, e, rule, depth);
    hide Acts;
    hide GuardedMessage;
    hide MessageOf;
    hide InOrder;
    hide Depth;
    hide AlreadyHandled;
    hide Remembered;
  }

  lemma RunsAs(w: World, s: State, e: Event, rule: Rule, depth: nat) returns (at: seq<nat>)
    requires depth < MAX_DEPTH
    ensures RanAs(w, s, e, rule, depth, at, RunRule(w, s, e, rule, depth))
  {
    at := [];
    var m := MessageOf(w, e);
    hide RanAs;
    hide Remembered;
    if !Remembered(s, m, rule.id) && w.verdict(rule.id, e, |s.log|).Matches? {
      var t := Log(s, Began(rule.id, m));
      at := ActsInOrder(w, t, rule, 0, w.talks(e), depth);
      var ran := Acts(w, t, rule, 0, w.talks(e), depth);
      RunEnds(w, s, e, rule, depth);
      Marked(ran.state, m, rule.id);
      RuleWhole(w, s, e, rule, depth);
      hide RunRule;
      hide Acts;
      hide InOrder;
      hide AddsWhole;
      hide MarkHandled;
      hide MessageOf;
      MatchedRun(w, s, e, rule, depth, at, ran, RunRule(w, s, e, rule, depth));
    } else {
      OtherRun(w, s, e, rule, depth);
    }
  }

  lemma RunEnds(w: World, s: State, e: Event, rule: Rule, depth: nat)
    requires depth < MAX_DEPTH && !Remembered(s, MessageOf(w, e), rule.id) && w.verdict(rule.id, e, |s.log|).Matches?
    ensures var m := MessageOf(w, e);
            var ran := Acts(w, Log(s, Began(rule.id, m)), rule, 0, w.talks(e), depth);
            RunRule(w, s, e, rule, depth) ==
            if ran.ok then Log(MarkHandled(ran.state, m, rule.id), Completed(rule.id, m)) else Log(ran.state, Failed(rule.id, m))
  {
    MessageGuarded(w, s, e, rule.id);
    hide Acts;
    hide GuardedMessage;
    hide MessageOf;
    hide AlreadyHandled;
    hide Remembered;
    hide MarkHandled;
  }

  // ------------------------------------------------------------------ all the rules of an event

  ghost predicate Ran(w: World, s: State, e: Event, rule: Rule, depth: nat, t: State) {
    exists at :: RanAs(w, s, e, rule, depth, at, t)
  }

  lemma {:induction false} EachInOrder(w: World, s: State, e: Event, rules: seq<Rule>, depth: nat) returns (states: seq<State>)
    requires depth < MAX_DEPTH
    ensures |states| == |rules| + 1 && states[0] == s && states[|rules|] == Each(w, s, e, rules, depth)
    ensures forall k :: 0 <= k < |rules| ==> Ran(w, states[k], e, rules[k], depth, states[k + 1])
    decreases |rules|
  {
    hide RunRule;
    hide RanAs;
    states := [s];
    if rules != [] {
      var t := RunRule(w, s, e, rules[0], depth);
      var at := RunsAs(w, s, e, rules[0], depth);
      assert Ran(w, s, e, rules[0], depth, t);
      hide Ran;
      var more := EachInOrder(w, t, e, rules[1..], depth);
      states := [s] + more;
      forall k | 0 <= k < |rules| ensures Ran(w, states[k], e, rules[k], depth, states[k + 1]) {
        if k > 0 { assert Ran(w, more[k - 1], e, rules[1..][k - 1], depth, more[k]); }
      }
    }
  }

  /** The event reaches rules at all: at less than eight levels, and not a message of the system's own, without an id, or that
      is no longer there. */
  predicate Reaches(w: World, e: Event, depth: nat) {
    depth < 8
    && match e
       case MessageCreated(bySystem, message) => !bySystem && message.Some? && w.visible(message.value)
       case RuleEvent(_) => true
       case Unsubscribed(_) => false
  }

  /** The event theorem. An event that reaches rules runs every one of them, in order, each from the state the one before left,
      whatever became of that; any other event, or one whose rules cannot be looked up, changes nothing. */
  lemma EventRunsItsRules(w: World, s: State, e: Event, depth: nat) returns (states: seq<State>)
    requires depth <= MAX_DEPTH
    ensures var rules := w.rules(e, |s.log|);
            if Reaches(w, e, depth) && rules.Some? then
              && |states| == |rules.value| + 1 && states[0] == s && states[|rules.value|] == Emit(w, s, e, depth)
              && forall k :: 0 <= k < |rules.value| ==> Ran(w, states[k], e, rules.value[k], depth, states[k + 1])
            else Emit(w, s, e, depth) == s
  {
    hide Each;
    hide Ran;
    states := [s];
    if Reaches(w, e, depth) && w.rules(e, |s.log|).Some? {
      states := EachInOrder(w, s, e, w.rules(e, |s.log|).value, depth);
    }
  }
}
