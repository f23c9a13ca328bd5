/** What every automation cascade keeps: it is bounded, and a rule that completed on a message is through with it. */
module AutomationTheorems {
  import opened Wrappers
  import opened Automation

  function Count(log: seq<Entry>, e: Entry): nat
    decreases |log|
  {
    if log == [] then 0 else Count(log[..|log| - 1], e) + (if log[|log| - 1] == e then 1 else 0)
  }

  function ActionsRun(log: seq<Entry>): nat
    decreases |log|
  {
    if log == [] then 0 else ActionsRun(log[..|log| - 1]) + (if log[|log| - 1].Acted? then 1 else 0)
  }

  lemma Logged(s: State, x: Entry, e: Entry)
    ensures Count(Log(s, x).log, e) == Count(s.log, e) + (if x == e then 1 else 0)
    ensures ActionsRun(Log(s, x).log) == ActionsRun(s.log) + (if x.Acted? then 1 else 0)
  {
    assert (s.log + [x])[..|s.log|] == s.log;
  }

  // ------------------------------------------------------------------ what an action can set off

  /** No action raises an event that passes the message guard: what it posts is new and authored by the system. */
  lemma ActionsPassNoGuard(w: World, a: Action, talks: bool, found: Finding, next: nat)
    ensures forall e :: e in Emitted(a, talks, found, next) ==> GuardedMessage(w, e).None?
  {
  }

  /** At most one event of an action runs any rule, and it is the last. */
  lemma ActionsCascadeOnce(w: World, a: Action, talks: bool, found: Finding, next: nat)
    ensures var es := Emitted(a, talks, found, next);
            |es| <= 2 && (|es| == 2 ==> Skips(w, es[0]))
  {
  }

  // ------------------------------------------------------------------ size of a cascade

  /** At most r rules answer an event, with at most a actions each. */
  ghost predicate Bounded(w: World, r: nat, a: nat) {
    forall e, n :: w.rules(e, n).Some? ==>
      |w.rules(e, n).value| <= r && forall k :: 0 <= k < |w.rules(e, n).value| ==> |w.rules(e, n).value[k].actions| <= a
  }

  /** 1 + x + x^2 + ... over n terms. */
  function Geometric(x: nat, n: nat): nat { if n == 0 then 0 else Geometric(x, n - 1) + Power(x, n - 1) }

  function Power(x: nat, n: nat): nat { if n == 0 then 1 else x * Power(x, n - 1) }

  lemma {:induction false} GeometricUnfolds(x: nat, n: nat)
    ensures Geometric(x, n + 1) == 1 + x * Geometric(x, n)
  {
    if n > 0 {
      GeometricUnfolds(x, n - 1);
      assert x * Geometric(x, n) == x * Geometric(x, n - 1) + x * Power(x, n - 1);
    }
  }

  /** The actions one event may cause from a depth on. */
  function Budget(r: nat, a: nat, depth: nat): nat
    requires depth <= MAX_DEPTH
  {
    r * a * Geometric(r * a, MAX_DEPTH - depth)
  }

  /** One action and everything it sets off. */
  function PerAction(r: nat, a: nat, depth: nat): nat
    requires depth < MAX_DEPTH
  {
    1 + Budget(r, a, depth + 1)
  }

  lemma BudgetSplits(r: nat, a: nat, depth: nat)
    requires depth < MAX_DEPTH
    ensures Budget(r, a, depth) == r * (a * PerAction(r, a, depth))
  {
    var g := Geometric(r * a, MAX_DEPTH - depth - 1);
    GeometricUnfolds(r * a, MAX_DEPTH - depth - 1);
    Regroups(r, a, 1 + r * a * g);
  }

  lemma Regroups(x: int, y: int, z: int)
    ensures x * y * z == x * (y * z)
  {
  }

  lemma Monotone(n: nat, m: nat, x: nat)
    requires n <= m
    ensures n * x <= m * x
  {
  }

  lemma EmitBounded(w: World, s: State, e: Event, depth: nat, r: nat, a: nat)
    requires depth <= MAX_DEPTH && Bounded(w, r, a)
    ensures ActionsRun(Emit(w, s, e, depth).log) <= ActionsRun(s.log) + Budget(r, a, depth)
    decreases MAX_DEPTH - depth, 3
  {
    hide ActionsRun;
    hide Each;
    hide Budget;
    if depth < MAX_DEPTH && !Skips(w, e) && w.rules(e, |s.log|).Some? {
      var rules := w.rules(e, |s.log|).value;
      EachBounded(w, s, e, rules, depth, r, a);
      BudgetSplits(r, a, depth);
      Monotone(|rules|, r, a * PerAction(r, a, depth));
    }
  }

  /** The events of one action, of which only the last may run rules. */
  lemma EventsBounded(w: World, s: State, es: seq<Event>, depth: nat, r: nat, a: nat)
    requires depth <= MAX_DEPTH && Bounded(w, r, a) && |es| <= 2 && (|es| == 2 ==> Skips(w, es[0]))
    ensures ActionsRun(EmitAll(w, s, es, depth).log) <= ActionsRun(s.log) + Budget(r, a, depth)
    decreases MAX_DEPTH - depth, 4, |es|
  {
    hide ActionsRun;
    hide Budget;
    hide Bounded;
    if |es| == 2 {
      EventsBounded(w, s, es[1..], depth, r, a);
    } else if |es| == 1 {
      EmitBounded(w, s, es[0], depth, r, a);
      assert EmitAll(w, s, es, depth) == EmitAll(w, Emit(w, s, es[0], depth), [], depth);
    }
    hide Each;
  }

  lemma EachBounded(w: World, s: State, e: Event, rules: seq<Rule>, depth: nat, r: nat, a: nat)
    requires depth < MAX_DEPTH && Bounded(w, r, a) && forall k :: 0 <= k < |rules| ==> |rules[k].actions| <= a
    ensures ActionsRun(Each(w, s, e, rules, depth).log) <= ActionsRun(s.log) + |rules| * (a * PerAction(r, a, depth))
    decreases MAX_DEPTH - depth, 2, |rules|
  {
    hide ActionsRun;
    hide RunRule;
    hide PerAction;
    hide Bounded;
    if rules != [] {
      var b := a * PerAction(r, a, depth);
      RuleBounded(w, s, e, rules[0], depth, r, a);
      EachBounded(w, RunRule(w, s, e, rules[0], depth), e, rules[1..], depth, r, a);
      assert |rules| * b == b + (|rules| - 1) * b;
    }
  }

  lemma RuleBounded(w: World, s: State, e: Event, rule: Rule, depth: nat, r: nat, a: nat)
    requires depth < MAX_DEPTH && Bounded(w, r, a) && |rule.actions| <= a
    ensures ActionsRun(RunRule(w, s, e, rule, depth).log) <= ActionsRun(s.log) + a * PerAction(r, a, depth)
    decreases MAX_DEPTH - depth, 1
  {
    hide ActionsRun;
    hide Acts;
    hide PerAction;
    hide Bounded;
    hide Count;
    var message := GuardedMessage(w, e);
    var began := Began(rule.id, message);
    var t := Log(s, began);
    Logged(s, began, began);
    Logged(t, Failed(rule.id, message), began);
    Logged(t, Passed(rule.id, message), began);
    ActsBounded(w, t, rule, 0, w.talks(e), depth, r, a);
    Monotone(|rule.actions|, a, PerAction(r, a, depth));
    var ran := Acts(w, t, rule, 0, w.talks(e), depth);
    Logged(ran.state, Failed(rule.id, message), began);
    Logged(MarkHandled(ran.state, message, rule.id), Completed(rule.id, message), began);
  }

  lemma ActsBounded(w: World, s: State, rule: Rule, k: nat, talks: bool, depth: nat, r: nat, a: nat)
    requires depth < MAX_DEPTH && k <= |rule.actions| && Bounded(w, r, a)
    ensures ActionsRun(Acts(w, s, rule, k, talks, depth).state.log)
         <= ActionsRun(s.log) + (|rule.actions| - k) * PerAction(r, a, depth)
    decreases MAX_DEPTH - depth, 0, |rule.actions| - k
  {
    hide ActionsRun;
    hide EmitAll;
    hide Emitted;
    hide ActionRaises;
    hide Budget;
    hide Count;
    hide Bounded;
    if k < |rule.actions| {
      var p := PerAction(r, a, depth);
      var found := w.find(rule.id, k, |s.log|);
      var es := Emitted(rule.actions[k], talks, found, s.next);
      var acted := Acting(s, rule, k);
      Logged(s.(next := s.next + 1), Acted(rule.id, k), Acted(rule.id, k));
      ActionsCascadeOnce(w, rule.actions[k], talks, found, s.next);
      EventsBounded(w, acted, es, depth + 1, r, a);
      assert (|rule.actions| - k) * p == p + (|rule.actions| - k - 1) * p;
      if !ActionRaises(rule.actions[k], talks, found) {
        ActsBounded(w, EmitAll(w, acted, es, depth + 1), rule, k + 1, talks, depth, r, a);
      } else {
        Monotone(0, |rule.actions| - k - 1, p);
      }
    }
  }

  /** One event from outside causes at most ra * (1 + ra + ... + (ra)^7) actions, however the rules feed each other. */
  lemma CascadeIsGeometric(w: World, s: State, e: Event, r: nat, a: nat)
    requires Bounded(w, r, a)
    ensures ActionsRun(Emit(w, s, e, 0).log) <= ActionsRun(s.log) + r * a * Geometric(r * a, 8)
  {
    EmitBounded(w, s, e, 0, r, a);
    hide ActionsRun;
    hide Emit;
    hide Geometric;
  }

  // ------------------------------------------------------------------ through with a message

  /** Completions are remembered, and nothing begins after one. */
  ghost predicate Remembers(s: State) {
    && (forall i, id, m :: 0 <= i < |s.log| && s.log[i] == Completed(id, Some(m)) ==> AlreadyHandled(s, Some(m), id))
    && (forall i, j, id, m :: 0 <= i < j < |s.log| && s.log[i] == Completed(id, Some(m)) ==> s.log[j] != Began(id, Some(m)))
  }

  lemma EmitRemembers(w: World, s: State, e: Event, depth: nat)
    requires depth <= MAX_DEPTH && Remembers(s)
    ensures Remembers(Emit(w, s, e, depth))
    decreases MAX_DEPTH - depth, 3
  {
    hide Remembers;
    hide Each;
    if depth < MAX_DEPTH && !Skips(w, e) && w.rules(e, |s.log|).Some? {
      EachRemembers(w, s, e, w.rules(e, |s.log|).value, depth);
    }
  }

  lemma EmitAllRemembers(w: World, s: State, es: seq<Event>, depth: nat)
    requires depth <= MAX_DEPTH && Remembers(s)
    ensures Remembers(EmitAll(w, s, es, depth))
    decreases MAX_DEPTH - depth, 4, |es|
  {
    hide Remembers;
    hide Emit;
    if es != [] {
      EmitRemembers(w, s, es[0], depth);
      EmitAllRemembers(w, Emit(w, s, es[0], depth), es[1..], depth);
    }
  }

  lemma EachRemembers(w: World, s: State, e: Event, rules: seq<Rule>, depth: nat)
    requires depth < MAX_DEPTH && Remembers(s)
    ensures Remembers(Each(w, s, e, rules, depth))
    decreases MAX_DEPTH - depth, 2, |rules|
  {
    hide Remembers;
    hide RunRule;
    if rules != [] {
      RuleRemembers(w, s, e, rules[0], depth);
      EachRemembers(w, RunRule(w, s, e, rules[0], depth), e, rules[1..], depth);
    }
  }

  lemma BeginsUnhandled(s: State, id: string, message: Option<nat>)
    requires Remembers(s) && !AlreadyHandled(s, message, id)
    ensures Remembers(Log(s, Began(id, message)))
  {
  }

  lemma Unremarkable(s: State, x: Entry)
    requires Remembers(s) && !x.Began? && !x.Completed?
    ensures Remembers(Log(s, x))
  {
  }

  lemma Completes(s: State, id: string, message: Option<nat>)
    requires Remembers(s)
    ensures Remembers(Log(MarkHandled(s, message, id), Completed(id, message)))
  {
    var t := MarkHandled(s, message, id);
    forall i, x, m | 0 <= i < |s.log| && s.log[i] == Completed(x, Some(m)) ensures AlreadyHandled(t, Some(m), x) {
      assert AlreadyHandled(s, Some(m), x);
    }
  }

  lemma RuleRemembers(w: World, s: State, e: Event, rule: Rule, depth: nat)
    requires depth < MAX_DEPTH && Remembers(s)
    ensures Remembers(RunRule(w, s, e, rule, depth))
    decreases MAX_DEPTH - depth, 1
  {
    hide Remembers;
    hide Acts;
    hide MarkHandled;
    hide AlreadyHandled;
    var message := GuardedMessage(w, e);
    if !AlreadyHandled(s, message, rule.id) {
      var t := Log(s, Began(rule.id, message));
      BeginsUnhandled(s, rule.id, message);
      Unremarkable(t, Failed(rule.id, message));
      Unremarkable(t, Passed(rule.id, message));
      ActsRemember(w, t, rule, 0, w.talks(e), depth);
      var ran := Acts(w, t, rule, 0, w.talks(e), depth);
      Unremarkable(ran.state, Failed(rule.id, message));
      Completes(ran.state, rule.id, message);
    }
  }

  lemma ActingRemembers(s: State, rule: Rule, k: nat)
    requires Remembers(s)
    ensures Remembers(Acting(s, rule, k))
  {
  }

  lemma ActsRemember(w: World, s: State, rule: Rule, k: nat, talks: bool, depth: nat)
    requires depth < MAX_DEPTH && k <= |rule.actions| && Remembers(s)
    ensures Remembers(Acts(w, s, rule, k, talks, depth).state)
    decreases MAX_DEPTH - depth, 0, |rule.actions| - k
  {
    hide Remembers;
    hide EmitAll;
    hide Emitted;
    hide ActionRaises;
    if k < |rule.actions| {
      var found := w.find(rule.id, k, |s.log|);
      var es := Emitted(rule.actions[k], talks, found, s.next);
      var acted := Acting(s, rule, k);
      ActingRemembers(s, rule, k);
      EmitAllRemembers(w, acted, es, depth + 1);
      if !ActionRaises(rule.actions[k], talks, found) {
        ActsRemember(w, EmitAll(w, acted, es, depth + 1), rule, k + 1, talks, depth);
      }
    }
  }

  /** Over any history of events from outside, a rule that completed on a message never begins on it again. */
  lemma CompletedNeverBeginsAgain(w: World, next: nat, history: seq<Event>, i: nat, j: nat, id: string, m: nat)
    requires var log := EmitAll(w, State(map[], [], next), history, 0).log; i < j < |log| && log[i] == Completed(id, Some(m))
    ensures EmitAll(w, State(map[], [], next), history, 0).log[j] != Began(id, Some(m))
  {
    EmitAllRemembers(w, State(map[], [], next), history, 0);
    hide EmitAll;
  }

  // ------------------------------------------------------------------ at most once

  /** From s to t nothing was recorded about message m. */
  ghost predicate Untouched(s: State, t: State, m: nat) {
    && t.handled == s.handled
    && forall id ::
         Count(t.log, Began(id, Some(m))) == Count(s.log, Began(id, Some(m)))
         && Count(t.log, Completed(id, Some(m))) == Count(s.log, Completed(id, Some(m)))
         && Count(t.log, Passed(id, Some(m))) == Count(s.log, Passed(id, Some(m)))
         && Count(t.log, Failed(id, Some(m))) == Count(s.log, Failed(id, Some(m)))
  }

  lemma AboutNothing(s: State, x: Entry, m: nat)
    requires x.Acted? || x.message.None?
    ensures Untouched(s, Log(s, x), m)
  {
    forall id
      ensures Count(Log(s, x).log, Began(id, Some(m))) == Count(s.log, Began(id, Some(m)))
      ensures Count(Log(s, x).log, Completed(id, Some(m))) == Count(s.log, Completed(id, Some(m)))
      ensures Count(Log(s, x).log, Passed(id, Some(m))) == Count(s.log, Passed(id, Some(m)))
      ensures Count(Log(s, x).log, Failed(id, Some(m))) == Count(s.log, Failed(id, Some(m)))
    {
      Logged(s, x, Began(id, Some(m)));
      Logged(s, x, Completed(id, Some(m)));
      Logged(s, x, Passed(id, Some(m)));
      Logged(s, x, Failed(id, Some(m)));
    }
    hide Count;
  }

  lemma UntouchedChains(s: State, t: State, u: State, m: nat)
    requires Untouched(s, t, m) && Untouched(t, u, m)
    ensures Untouched(s, u, m)
  {
    hide Count;
  }

  lemma EmitUntouched(w: World, s: State, e: Event, depth: nat, m: nat)
    requires depth <= MAX_DEPTH && GuardedMessage(w, e).None?
    ensures Untouched(s, Emit(w, s, e, depth), m)
    decreases MAX_DEPTH - depth, 3
  {
    hide Untouched;
    hide Each;
    SelfUntouched(s, m);
    if depth < MAX_DEPTH && !Skips(w, e) && w.rules(e, |s.log|).Some? {
      EachUntouched(w, s, e, w.rules(e, |s.log|).value, depth, m);
    }
  }

  lemma SelfUntouched(s: State, m: nat)
    ensures Untouched(s, s, m)
  {
  }

  lemma EmitAllUntouched(w: World, s: State, es: seq<Event>, depth: nat, m: nat)
    requires depth <= MAX_DEPTH && forall i :: 0 <= i < |es| ==> GuardedMessage(w, es[i]).None?
    ensures Untouched(s, EmitAll(w, s, es, depth), m)
    decreases MAX_DEPTH - depth, 4, |es|
  {
    hide Untouched;
    hide Emit;
    hide GuardedMessage;
    SelfUntouched(s, m);
    if es != [] {
      EmitUntouched(w, s, es[0], depth, m);
      EmitAllUntouched(w, Emit(w, s, es[0], depth), es[1..], depth, m);
      UntouchedChains(s, Emit(w, s, es[0], depth), EmitAll(w, s, es, depth), m);
    }
  }

  lemma EachUntouched(w: World, s: State, e: Event, rules: seq<Rule>, depth: nat, m: nat)
    requires depth < MAX_DEPTH && GuardedMessage(w, e).None?
    ensures Untouched(s, Each(w, s, e, rules, depth), m)
    decreases MAX_DEPTH - depth, 2, |rules|
  {
    hide Untouched;
    hide RunRule;
    SelfUntouched(s, m);
    if rules != [] {
      RuleUntouched(w, s, e, rules[0], depth, m);
      EachUntouched(w, RunRule(w, s, e, rules[0], depth), e, rules[1..], depth, m);
      UntouchedChains(s, RunRule(w, s, e, rules[0], depth), Each(w, s, e, rules, depth), m);
    }
  }

  lemma RuleUntouched(w: World, s: State, e: Event, rule: Rule, depth: nat, m: nat)
    requires depth < MAX_DEPTH && GuardedMessage(w, e).None?
    ensures Untouched(s, RunRule(w, s, e, rule, depth), m)
    decreases MAX_DEPTH - depth, 1
  {
    hide Untouched;
    hide Acts;
    hide GuardedMessage;
    var t := Log(s, Began(rule.id, None));
    AboutNothing(s, Began(rule.id, None), m);
    ActsUntouched(w, t, rule, 0, w.talks(e), depth, m);
    var u := Acts(w, t, rule, 0, w.talks(e), depth).state;
    UntouchedChains(s, t, u, m);
    forall v, x | (v == t || v == u) && (x == Failed(rule.id, None) || x == Passed(rule.id, None) || x == Completed(rule.id, None))
      ensures Untouched(s, Log(v, x), m)
    {
      AboutNothing(v, x, m);
      UntouchedChains(s, v, Log(v, x), m);
    }
    hide Log;
  }

  lemma ActingUntouched(s: State, rule: Rule, k: nat, m: nat)
    ensures Untouched(s, Acting(s, rule, k), m)
  {
    AboutNothing(s.(next := s.next + 1), Acted(rule.id, k), m);
    hide Count;
  }

  lemma ActsUntouched(w: World, s: State, rule: Rule, k: nat, talks: bool, depth: nat, m: nat)
    requires depth < MAX_DEPTH && k <= |rule.actions|
    ensures Untouched(s, Acts(w, s, rule, k, talks, depth).state, m)
    decreases MAX_DEPTH - depth, 0, |rule.actions| - k
  {
    hide Untouched;
    hide EmitAll;
    hide GuardedMessage;
    hide Emitted;
    hide ActionRaises;
    SelfUntouched(s, m);
    if k < |rule.actions| {
      var found := w.find(rule.id, k, |s.log|);
      var es := Emitted(rule.actions[k], talks, found, s.next);
      var acted := Acting(s, rule, k);
      ActingUntouched(s, rule, k, m);
      ActionsPassNoGuard(w, rule.actions[k], talks, found, s.next);
      EmitAllUntouched(w, acted, es, depth + 1, m);
      var t := EmitAll(w, acted, es, depth + 1);
      UntouchedChains(s, acted, t, m);
      if !ActionRaises(rule.actions[k], talks, found) {
        ActsUntouched(w, t, rule, k + 1, talks, depth, m);
        UntouchedChains(s, t, Acts(w, s, rule, k, talks, depth).state, m);
      }
    }
  }

  /** Every beginning of rule `id` on message m has an outcome, and at most one outcome is completion. */
  predicate Settled(s: State, id: string, m: nat) {
    && Count(s.log, Began(id, Some(m))) == Count(s.log, Completed(id, Some(m)))
         + Count(s.log, Passed(id, Some(m))) + Count(s.log, Failed(id, Some(m)))
    && Count(s.log, Completed(id, Some(m))) == if AlreadyHandled(s, Some(m), id) then 1 else 0
  }

  lemma UntouchedSettled(s: State, t: State, id: string, m: nat)
    requires Untouched(s, t, m) && Settled(s, id, m)
    ensures Settled(t, id, m)
  {
    hide Count;
  }

  /** The four counts of rule `id` on message m move with an entry about them, and only then. */
  lemma Counts(s: State, x: Entry, id: string, m: nat)
    ensures forall y | y in {Began(id, Some(m)), Completed(id, Some(m)), Passed(id, Some(m)), Failed(id, Some(m))} ::
              Count(Log(s, x).log, y) == Count(s.log, y) + (if x == y then 1 else 0)
  {
    Logged(s, x, Began(id, Some(m)));
    Logged(s, x, Completed(id, Some(m)));
    Logged(s, x, Passed(id, Some(m)));
    Logged(s, x, Failed(id, Some(m)));
    hide Count;
    hide Log;
  }

  /** The same, with one beginning still running. */
  predicate Pending(s: State, id: string, m: nat) {
    && Count(s.log, Began(id, Some(m))) == Count(s.log, Completed(id, Some(m)))
         + Count(s.log, Passed(id, Some(m))) + Count(s.log, Failed(id, Some(m))) + 1
    && Count(s.log, Completed(id, Some(m))) == 0 && !AlreadyHandled(s, Some(m), id)
  }

  lemma BeginsPending(s: State, id: string, m: nat)
    requires Settled(s, id, m) && !AlreadyHandled(s, Some(m), id)
    ensures Pending(Log(s, Began(id, Some(m))), id, m)
  {
    Counts(s, Began(id, Some(m)), id, m);
    hide Count;
  }

  lemma PendingEnds(s: State, x: Entry, id: string, m: nat)
    requires Pending(s, id, m) && (x == Passed(id, Some(m)) || x == Failed(id, Some(m)))
    ensures Settled(Log(s, x), id, m)
  {
    Counts(s, x, id, m);
    hide Count;
  }

  lemma PendingCompletes(s: State, id: string, m: nat)
    requires Pending(s, id, m)
    ensures Settled(Log(MarkHandled(s, Some(m), id), Completed(id, Some(m))), id, m)
  {
    Counts(MarkHandled(s, Some(m), id), Completed(id, Some(m)), id, m);
    hide Count;
  }

  lemma UntouchedPending(s: State, t: State, id: string, m: nat)
    requires Untouched(s, t, m) && Pending(s, id, m)
    ensures Pending(t, id, m)
  {
    hide Count;
  }

  /** An entry about another rule or message. */
  lemma ElsewhereSettled(s: State, x: Entry, id: string, m: nat)
    requires Settled(s, id, m) && (x.Acted? || x.rule != id || x.message != Some(m))
    ensures Settled(Log(s, x), id, m)
  {
    Counts(s, x, id, m);
    hide Count;
  }

  lemma MarkedElsewhere(s: State, message: Option<nat>, rule: string, id: string, m: nat)
    requires Settled(s, id, m) && (message != Some(m) || rule != id)
    ensures Settled(MarkHandled(s, message, rule), id, m)
  {
    hide Count;
  }

  lemma OtherRuleSettles(w: World, s: State, e: Event, rule: Rule, depth: nat, id: string, m: nat)
    requires depth < MAX_DEPTH && Settled(s, id, m)
    requires GuardedMessage(w, e) != Some(m) || rule.id != id
    ensures Settled(RunRule(w, s, e, rule, depth), id, m)
  {
    hide Acts;
    hide GuardedMessage;
    hide Log;
    hide MarkHandled;
    hide AlreadyHandled;
    hide Settled;
    hide Pending;
    hide Untouched;
    var message := GuardedMessage(w, e);
    var t := Log(s, Began(rule.id, message));
    var u := Acts(w, t, rule, 0, w.talks(e), depth).state;
    ActsUntouched(w, t, rule, 0, w.talks(e), depth, m);
    ElsewhereSettled(s, Began(rule.id, message), id, m);
    UntouchedSettled(t, u, id, m);
    ElsewhereSettled(t, Failed(rule.id, message), id, m);
    ElsewhereSettled(t, Passed(rule.id, message), id, m);
    ElsewhereSettled(u, Failed(rule.id, message), id, m);
    MarkedElsewhere(u, message, rule.id, id, m);
    ElsewhereSettled(MarkHandled(u, message, rule.id), Completed(rule.id, message), id, m);
  }

  lemma OwnRuleSettles(w: World, s: State, e: Event, rule: Rule, depth: nat, m: nat)
    requires depth < MAX_DEPTH && Settled(s, rule.id, m)
    requires GuardedMessage(w, e) == Some(m) && !AlreadyHandled(s, Some(m), rule.id)
    ensures Settled(RunRule(w, s, e, rule, depth), rule.id, m)
  {
    hide Acts;
    hide GuardedMessage;
    hide Log;
    hide MarkHandled;
    hide AlreadyHandled;
    hide Settled;
    hide Pending;
    hide Untouched;
    var id := rule.id;
    var t := Log(s, Began(id, Some(m)));
    var u := Acts(w, t, rule, 0, w.talks(e), depth).state;
    ActsUntouched(w, t, rule, 0, w.talks(e), depth, m);
    BeginsPending(s, id, m);
    UntouchedPending(t, u, id, m);
    PendingEnds(t, Failed(id, Some(m)), id, m);
    PendingEnds(t, Passed(id, Some(m)), id, m);
    PendingEnds(u, Failed(id, Some(m)), id, m);
    PendingCompletes(u, id, m);
  }

  lemma RuleSettles(w: World, s: State, e: Event, rule: Rule, depth: nat, id: string, m: nat)
    requires depth < MAX_DEPTH && Settled(s, id, m)
    ensures Settled(RunRule(w, s, e, rule, depth), id, m)
  {
    hide Acts;
    hide Settled;
    if GuardedMessage(w, e) != Some(m) || rule.id != id {
      OtherRuleSettles(w, s, e, rule, depth, id, m);
    } else if !AlreadyHandled(s, Some(m), rule.id) {
      OwnRuleSettles(w, s, e, rule, depth, m);
    }
  }

  lemma EachSettles(w: World, s: State, e: Event, rules: seq<Rule>, depth: nat, id: string, m: nat)
    requires depth < MAX_DEPTH && Settled(s, id, m)
    ensures Settled(Each(w, s, e, rules, depth), id, m)
    decreases |rules|
  {
    hide Settled;
    hide RunRule;
    if rules != [] {
      RuleSettles(w, s, e, rules[0], depth, id, m);
      EachSettles(w, RunRule(w, s, e, rules[0], depth), e, rules[1..], depth, id, m);
    }
  }

  lemma {:induction false} HistorySettles(w: World, s: State, history: seq<Event>, id: string, m: nat)
    requires Settled(s, id, m)
    ensures Settled(EmitAll(w, s, history, 0), id, m)
    decreases |history|
  {
    hide Settled;
    hide Each;
    if history != [] {
      var e := history[0];
      if !Skips(w, e) && w.rules(e, |s.log|).Some? { EachSettles(w, s, e, w.rules(e, |s.log|).value, 0, id, m); }
      HistorySettles(w, Emit(w, s, e, 0), history[1..], id, m);
    }
  }

  /** The documented promise, over any history of events: a rule completes on a message at most once, and then is remembered on
      it, and only then; and every other time it began on it, it did not match or failed. */
  lemma CompletesAtMostOnce(w: World, next: nat, history: seq<Event>, id: string, m: nat)
    ensures var t := EmitAll(w, State(map[], [], next), history, 0);
            var log := t.log;
            Count(log, Completed(id, Some(m))) == (if m in t.handled && id in t.handled[m] then 1 else 0)
            && Count(log, Began(id, Some(m))) == Count(log, Completed(id, Some(m)))
                 + Count(log, Passed(id, Some(m))) + Count(log, Failed(id, Some(m)))
  {
    HistorySettles(w, State(map[], [], next), history, id, m);
    hide EmitAll;
  }

  // ------------------------------------------------------------------ at most once per announcement

  /** Rules are rows with ids of their own. */
  ghost predicate DistinctRules(w: World) {
    forall e, n :: w.rules(e, n).Some? ==> Distinct(w.rules(e, n).value)
  }

  predicate Distinct(rules: seq<Rule>) { forall i, j :: 0 <= i < j < |rules| ==> rules[i].id != rules[j].id }

  /** How often a history announces message m. */
  function Announced(w: World, history: seq<Event>, m: nat): nat {
    if history == [] then 0
    else (if GuardedMessage(w, history[0]) == Some(m) then 1 else 0) + Announced(w, history[1..], m)
  }

  lemma RuleBegins(w: World, s: State, e: Event, rule: Rule, depth: nat, id: string, m: nat)
    requires depth < MAX_DEPTH
    ensures Count(RunRule(w, s, e, rule, depth).log, Began(id, Some(m)))
         <= Count(s.log, Began(id, Some(m))) + (if rule.id == id && GuardedMessage(w, e) == Some(m) then 1 else 0)
  {
    hide Acts;
    hide Count;
    hide GuardedMessage;
    hide EmitAll;
    var message := GuardedMessage(w, e);
    var began := Began(id, Some(m));
    var t := Log(s, Began(rule.id, message));
    var u := Acts(w, t, rule, 0, w.talks(e), depth).state;
    ActsUntouched(w, t, rule, 0, w.talks(e), depth, m);
    Logged(s, Began(rule.id, message), began);
    Logged(t, Failed(rule.id, message), began);
    Logged(t, Passed(rule.id, message), began);
    Logged(u, Failed(rule.id, message), began);
    Logged(MarkHandled(u, message, rule.id), Completed(rule.id, message), began);
  }

  lemma {:induction false} EachBegins(w: World, s: State, e: Event, rules: seq<Rule>, depth: nat, id: string, m: nat)
    requires depth < MAX_DEPTH && Distinct(rules)
    ensures Count(Each(w, s, e, rules, depth).log, Began(id, Some(m))) <= Count(s.log, Began(id, Some(m)))
         + (if GuardedMessage(w, e) == Some(m) && exists k :: 0 <= k < |rules| && rules[k].id == id then 1 else 0)
    decreases |rules|
  {
    hide RunRule;
    hide Count;
    hide GuardedMessage;
    if rules != [] {
      RuleBegins(w, s, e, rules[0], depth, id, m);
      EachBegins(w, RunRule(w, s, e, rules[0], depth), e, rules[1..], depth, id, m);
      if k :| 0 <= k < |rules[1..]| && rules[1..][k].id == id { assert rules[k + 1].id == id && rules[0].id != id; }
    }
  }

  lemma {:induction false} HistoryBegins(w: World, s: State, history: seq<Event>, id: string, m: nat)
    requires DistinctRules(w)
    ensures Count(EmitAll(w, s, history, 0).log, Began(id, Some(m)))
         <= Count(s.log, Began(id, Some(m))) + Announced(w, history, m)
    decreases |history|
  {
    hide Each;
    hide Count;
    if history != [] {
      var e := history[0];
      if !Skips(w, e) && w.rules(e, |s.log|).Some? { EachBegins(w, s, e, w.rules(e, |s.log|).value, 0, id, m); }
      HistoryBegins(w, Emit(w, s, e, 0), history[1..], id, m);
    }
    hide GuardedMessage;
  }

  /** A rule even begins on a message no more often than the message is announced, failures included: once, for messages are
      announced when they are created. */
  lemma BeginsOncePerAnnouncement(w: World, next: nat, history: seq<Event>, id: string, m: nat)
    requires DistinctRules(w)
    ensures Count(EmitAll(w, State(map[], [], next), history, 0).log, Began(id, Some(m))) <= Announced(w, history, m)
  {
    HistoryBegins(w, State(map[], [], next), history, id, m);
    hide EmitAll;
    hide Announced;
  }
}
