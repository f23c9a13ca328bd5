/** What every handler of the tour player does, told from the player it finds: what is reported, which step is on screen, what
    is stored, and what is left waiting. */
module TourLandings {
  import opened Wrappers
  import opened Tours
  import opened TourTheorems

  // ------------------------------------------------------------------ where a showing may land

  /** The step names a page that is not this one: another origin, path or query. Previews never leave. */
  predicate Elsewhere(w: World, p: Player, step: Step) {
    step.url != "" && !p.preview
    && match w.locate(step.url, p.href)
       case None => false
       case Some(target) => !(target.origin == p.href.origin && target.path == p.href.path && target.search == p.href.search)
  }

  /** A step that can never be shown here and names no page to leave for. */
  predicate OutOfReach(w: World, p: Player, i: nat)
    requires p.tour.Some? && i < |p.tour.value.steps|
  {
    var step := p.tour.value.steps[i];
    !step.kind.Wait? && step.anchored && w.probe(i) == Absent(InIframe) && !Elsewhere(w, p, step)
  }

  /** One error report for each step from i up to j. */
  function Errors(id: string, i: nat, j: nat): (r: seq<Entry>)
    requires i <= j
    ensures |r| == j - i && forall k :: 0 <= k < |r| ==> r[k] == Emitted(id, StepError(i + k, InIframe))
  {
    seq(j - i, k requires 0 <= k < j - i => Emitted(id, StepError(i + k, InIframe)))
  }

  /** How a step is met: waited out, on screen, left for its page, sought for, or blocked. */
  datatype Meeting = Waited | OnScreen(healed: bool) | LeftFor | Sought | Blocked

  function MeetingOf(w: World, p: Player, j: nat): Meeting
    requires p.tour.Some? && j < |p.tour.value.steps|
  {
    var step := p.tour.value.steps[j];
    if step.kind.Wait? then Waited
    else if !step.anchored then OnScreen(false)
    else if w.probe(j).Found? then OnScreen(w.probe(j).healed)
    else if Elsewhere(w, p, step) then LeftFor
    else if w.patient then Sought
    else Blocked
  }

  /** What is reported on meeting step j. */
  function ReportOf(m: Meeting, tour: Tour, j: nat): seq<Entry>
    requires j < |tour.steps|
  {
    match m
    case Waited => [Emitted(tour.id, StepViewed(j, false))]
    case OnScreen(healed) => [Emitted(tour.id, StepViewed(j, healed))]
    case LeftFor => [Assigned(tour.steps[j].url)]
    case Sought => []
    case Blocked => [Emitted(tour.id, StepBlocked(j, NotFound))]
  }

  /** The action a step takes by itself once it is on screen. */
  function Driven(tour: Tour, j: nat, token: nat): Option<Timer>
    requires j < |tour.steps|
  {
    var step := tour.steps[j];
    if step.kind.Acting? && tour.driven && step.action.Some? then Some(Timer(step.action.value, j, token)) else None
  }

  /** What player q is left with on step j: at most one continuation more, an action only if the step is on screen, and a
      can't-find-it card only if it is blocked. */
  predicate LeftWith(p: Player, m: Meeting, j: nat, q: Player)
    requires p.tour.Some? && j < |p.tour.value.steps|
  {
    && q.waits == p.waits + (if m.Waited? then [Waiting(false, j, q.token)] else if m.Sought? then [Waiting(true, j, q.token)] else [])
    && q.timer == (if m.OnScreen? then Driven(p.tour.value, j, q.token) else None)
    && (q.card.Some? <==> m.Blocked? || (m.LeftFor? && p.card.Some?)) && (m.Blocked? ==> q.card == Some(j))
  }

  /** The tour is over: nothing stored, nothing armed, nothing on screen. */
  predicate Over(p: Player, q: Player) {
    q.tour.None? && q.store.None? && q.timer.None? && q.card.None? && q.waits == p.waits && q.token > p.token
    && q.preview == p.preview && q.href == p.href
  }

  /** Player q is p once a showing of step i has landed on step j, or past the end: the steps before j are each reported as
      errors once, in order; then j is met; and the player stands on j, with j stored unless it is a preview. */
  predicate Landed(w: World, p: Player, i: nat, j: nat, q: Player)
    requires p.tour.Some? && i <= j <= |p.tour.value.steps|
  {
    var tour := p.tour.value;
    && (forall k :: i <= k < j ==> OutOfReach(w, p, k))
    && if j == |tour.steps| then
         Over(p, q) && q.log == p.log + Errors(tour.id, i, j) + [Emitted(tour.id, Completed)]
       else
         var m := MeetingOf(w, p, j);
         && !OutOfReach(w, p, j) && q.log == p.log + Errors(tour.id, i, j) + ReportOf(m, tour, j)
         && q.tour == p.tour && q.index == j && q.preview == p.preview && q.href == p.href && q.startedAt == p.startedAt
         && q.token > p.token && LeftWith(p, m, j, q)
         && q.store == if p.preview then p.store else Some(Progress(tour.id, j, p.startedAt, w.now, m.LeftFor?))
  }

  lemma LeavesElsewhere(w: World, p: Player, step: Step)
    ensures LeavesFor(w, p, step) <==> Elsewhere(w, p, step)
  {
  }

  lemma LandsHere(w: World, p: Player, i: nat)
    requires p.tour.Some? && i < |p.tour.value.steps| && !OutOfReach(w, p, i)
    ensures Landed(w, p, i, i, Show(w, p, i))
  {
    LeavesElsewhere(w, p, p.tour.value.steps[i]);
    hide Elsewhere;
    hide LeavesFor;
    assert p.log + Errors(p.tour.value.id, i, i) == p.log && p.waits + [] == p.waits;
    assert p.log + [] == p.log;
  }

  lemma LandsPastTheEnd(w: World, p: Player, i: nat)
    requires p.tour.Some? && i == |p.tour.value.steps|
    ensures Landed(w, p, i, i, Show(w, p, i))
  {
    assert p.log + Errors(p.tour.value.id, i, i) == p.log;
  }

  /** Step i is passed by. */
  function Passed(w: World, p: Player, i: nat): Player
    requires p.tour.Some?
  {
    Emit(Turned(w, p, i, false), StepError(i, InIframe))
  }

  lemma PassesBy(w: World, p: Player, i: nat)
    requires p.tour.Some? && i < |p.tour.value.steps| && OutOfReach(w, p, i)
    ensures var q := Passed(w, p, i);
            Show(w, p, i) == Show(w, q, i + 1) && q.log == p.log + [Emitted(p.tour.value.id, StepError(i, InIframe))]
            && q.tour == p.tour && q.preview == p.preview && q.href == p.href && q.waits == p.waits && q.card == p.card
            && q.startedAt == p.startedAt && q.token > p.token && (p.preview ==> q.store == p.store)
  {
    LeavesElsewhere(w, p, p.tour.value.steps[i]);
    hide Elsewhere;
    hide LeavesFor;
  }

  lemma SameReach(w: World, p: Player, q: Player)
    requires p.tour.Some? && q.tour == p.tour && q.preview == p.preview && q.href == p.href
    ensures forall j :: 0 <= j < |p.tour.value.steps| ==> MeetingOf(w, q, j) == MeetingOf(w, p, j) && (OutOfReach(w, q, j) <==> OutOfReach(w, p, j))
  {
  }

  lemma LandedFromNext(w: World, p: Player, i: nat, j: nat, q: Player)
    requires p.tour.Some? && i < j <= |p.tour.value.steps| && OutOfReach(w, p, i)
    requires Landed(w, Passed(w, p, i), i + 1, j, q)
    ensures Landed(w, p, i, j, q)
  {
    var id := p.tour.value.id;
    PassesBy(w, p, i);
    SameReach(w, p, Passed(w, p, i));
    hide OutOfReach;
    hide MeetingOf;
    hide Passed;
    assert Errors(id, i, j) == [Emitted(id, StepError(i, InIframe))] + Errors(id, i + 1, j);
  }

  /** Showing step i lands on the first step from i on that is within reach here, or past the end. */
  lemma {:induction false} ShowLands(w: World, p: Player, i: nat) returns (j: nat)
    requires p.tour.Some? && i <= |p.tour.value.steps|
    ensures i <= j <= |p.tour.value.steps| && Landed(w, p, i, j, Show(w, p, i))
    decreases |p.tour.value.steps| - i
  {
    hide Show;
    hide OutOfReach;
    hide Landed;
    j := i;
    if i == |p.tour.value.steps| {
      LandsPastTheEnd(w, p, i);
    } else if OutOfReach(w, p, i) {
      PassesBy(w, p, i);
      hide Passed;
      j := ShowLands(w, Passed(w, p, i), i + 1);
      LandedFromNext(w, p, i, j, Show(w, p, i));
    } else {
      LandsHere(w, p, i);
    }
  }

  // ------------------------------------------------------------------ what each handler does

  predicate LandsOn(w: World, p: Player, i: nat, j: nat, q: Player) {
    p.tour.Some? && i <= j <= |p.tour.value.steps| && Landed(w, p, i, j, q)
  }

  /** The stored position a visit picks up: of this tour, at most a day old, and within its steps. */
  predicate PicksUp(p: Player, tour: Tour, now: int) {
    p.store.Some? && p.store.value.tourId == tour.id && now - p.store.value.updatedAt <= 86_400_000
    && p.store.value.stepIndex < |tour.steps|
  }

  /** The player at the moment a start begins to show: whatever ran before is torn down. */
  function Starting(p: Player, tour: Tour, on: bool, startedAt: int, log: seq<Entry>): Player {
    p.(tour := Some(tour), preview := on, startedAt := startedAt, log := log, card := None, timer := None,
       token := if p.tour.Some? then p.token + 1 else p.token, index := 0)
  }

  /** A visit resumes a position it can pick up, with the time it was begun and without reporting a start; anything else starts
      at the first step, and says so. */
  predicate Starts(w: World, p: Player, tour: Tour, on: bool, j: nat, q: Player) {
    if tour.steps == [] then q.tour.None? && q.log == p.log && q.store == p.store && q.waits == p.waits && q.timer.None?
    else if !on && PicksUp(p, tour, w.now)
    then LandsOn(w, Starting(p, tour, on, p.store.value.startedAt, p.log), p.store.value.stepIndex, j, q)
    else LandsOn(w, Starting(p, tour, on, w.now, p.log + [Emitted(tour.id, Started)]), 0, j, q)
  }

  /** The last step is left for its destination once the tour is over; any other step for the next. */
  predicate GoesOn(w: World, p: Player, j: nat, q: Player)
    requires p.tour.Some? && p.index < |p.tour.value.steps|
  {
    var tour := p.tour.value;
    if p.index == |tour.steps| - 1 then
      && Over(p, q)
      && q.log == p.log + [Emitted(tour.id, Completed)]
                  + (if Elsewhere(w, p, tour.steps[p.index]) then [Assigned(tour.steps[p.index].url)] else [])
    else LandsOn(w, p, p.index + 1, j, q)
  }

  /** What the current continuation, of the step on screen, does. An element that was sought is shown once it arrives; if it
      never does its step is blocked, or reported and passed when it is in another frame. A wait ends with the next step,
      reported if it timed out. */
  predicate Resolves(w: World, p: Player, seeking: bool, outcome: Outcome, j: nat, q: Player)
    requires p.tour.Some? && p.index < |p.tour.value.steps|
  {
    var id := p.tour.value.id;
    match outcome
    case Arrived(healed) =>
      if seeking then
        q == p.(log := p.log + [Emitted(id, StepViewed(p.index, healed))], card := None,
                timer := Driven(p.tour.value, p.index, p.token))
      else LandsOn(w, p, p.index + 1, j, q)
    case Missed(reason) =>
      if seeking && !reason.InIframe? then
        q == p.(log := p.log + [Emitted(id, StepBlocked(p.index, reason))], card := Some(p.index), timer := None)
      else
        var said := if reason.InIframe? then InIframe else TimedOut;
        LandsOn(w, p.(log := p.log + [Emitted(id, StepError(p.index, said))]), p.index + 1, j, q)
  }

  /** What the driven action of the step on screen does: a navigation stores the next position first and leaves; a click or a fill
      that found no element, or a navigation to nowhere, is reported; and the next step is shown. */
  predicate Acts(w: World, p: Player, action: Action, ok: bool, j: nat, q: Player)
    requires p.tour.Some?
  {
    var id := p.tour.value.id;
    var failed := [Emitted(id, StepError(p.index, ActionFailed))];
    match action
    case Navigate(url) =>
      var store := if p.preview then p.store else Some(Progress(id, p.index + 1, p.startedAt, w.now, true));
      LandsOn(w, p.(timer := None, store := store, log := p.log + if url != "" then [Assigned(url)] else failed), p.index + 1, j, q)
    case _ => LandsOn(w, p.(timer := None, log := p.log + if ok then [] else failed), p.index + 1, j, q)
  }

  /** Every handler, from any player a history reaches. */
  predicate Does(w: World, p: Player, h: Handler, j: nat, q: Player) {
    match h
    case DoStart(tour, preview) => Starts(w, p, tour, if preview.Some? then preview.value else p.preview, j, q)
    case DoNext => if p.tour.None? then q == p else p.index < |p.tour.value.steps| && GoesOn(w, p, j, q)
    case DoBack => if p.tour.None? || p.index == 0 then q == p else LandsOn(w, p, p.index - 1, j, q)
    case DoDismiss(neverAgain) =>
      if p.tour.None? then q == p
      else Over(p, q) && q.log == p.log + [Emitted(p.tour.value.id, Dismissed(p.index, neverAgain))]
    case DoStop => q.tour.None? && q.log == p.log && q.store == p.store && q.timer.None? && q.card.None? && q.waits == p.waits
                   && q.token > p.token
    case DoSkip => if p.tour.None? || p.card.None? then q == p else LandsOn(w, p, p.card.value + 1, j, q)
    case DoContinue(k, outcome) =>
      if k >= |p.waits| then q == p
      else
        var rest := p.(waits := p.waits[..k] + p.waits[k + 1..]);
        if p.tour.None? || p.waits[k].token != p.token then q == rest
        else p.index < |p.tour.value.steps| && Resolves(w, rest, p.waits[k].seeking, outcome, j, q)
    case DoPerform(ok) =>
      if p.timer.None? then q == p
      else p.tour.Some? && p.index < |p.tour.value.steps| && p.tour.value.steps[p.index].action.Some?
           && Acts(w, p, p.tour.value.steps[p.index].action.value, ok, j, q)
    case DoRoam(page) => q == p.(href := page)
    case DoReload(page, asPreview) =>
      q == Player(None, 0, 0, 0, asPreview, None, [], None, page, p.store, p.log)
  }

  lemma ResumesWhatItPicksUp(p: Player, tour: Tour, now: int)
    ensures Resumable(p.store, tour, now).Some? <==> PicksUp(p, tour, now)
    ensures PicksUp(p, tour, now) ==> Resumable(p.store, tour, now) == p.store
  {
  }

  /** Where a showing lands does not depend on the step it leaves, nor on an action it cancels. */
  lemma LandsFromAnyStep(w: World, p: Player, r: Player, i: nat, j: nat, q: Player)
    requires p.tour.Some? && r == p.(index := r.index, timer := r.timer) && i <= j <= |p.tour.value.steps| && Landed(w, p, i, j, q)
    ensures LandsOn(w, r, i, j, q)
  {
    SameReach(w, p, r);
    hide OutOfReach;
    hide MeetingOf;
  }

  lemma StartDoes(w: World, p: Player, tour: Tour, preview: Option<bool>) returns (j: nat)
    requires Sound(p)
    ensures Does(w, p, DoStart(tour, preview), j, Start(w, p, tour, preview))
  {
    hide Show;
    hide Landed;
    hide WaitsOk;
    j := 0;
    ResumesWhatItPicksUp(p, tour, w.now);
    hide Resumable;
    hide PicksUp;
    NothingOnScreen(p);
    if tour.steps != [] {
      var on := if preview.Some? then preview.value else p.preview;
      var idle := if p.tour.Some? then Teardown(p) else p;
      var q := idle.(tour := Some(tour), preview := on);
      if !on && PicksUp(p, tour, w.now) {
        var shown := q.(startedAt := p.store.value.startedAt);
        assert p.store.value.stepIndex < |tour.steps| by { PickedWithin(p, tour, w.now); }
        j := ShowLands(w, shown, p.store.value.stepIndex);
        LandsFromAnyStep(w, shown, Starting(p, tour, on, p.store.value.startedAt, p.log), p.store.value.stepIndex, j, Start(w, p, tour, preview));
      } else {
        var shown := Emit(q.(startedAt := w.now), Started);
        j := ShowLands(w, shown, 0);
        LandsFromAnyStep(w, shown, Starting(p, tour, on, w.now, p.log + [Emitted(tour.id, Started)]), 0, j, Start(w, p, tour, preview));
      }
    }
  }

  lemma PickedWithin(p: Player, tour: Tour, now: int)
    requires PicksUp(p, tour, now)
    ensures p.store.Some? && p.store.value.stepIndex < |tour.steps|
  {
  }

  /** Without a tour there is no card and no action. */
  lemma NothingOnScreen(p: Player)
    requires Sound(p)
    ensures p.tour.None? ==> p.card.None? && p.timer.None?
  {
  }

  lemma Lands(w: World, p: Player, i: nat) returns (j: nat)
    requires p.tour.Some? && i <= |p.tour.value.steps|
    ensures LandsOn(w, p, i, j, Show(w, p, i))
  {
    hide Show;
    hide Landed;
    j := ShowLands(w, p, i);
  }

  lemma NextDoes(w: World, p: Player) returns (j: nat)
    requires Sound(p) && p.tour.Some?
    ensures Does(w, p, DoNext, j, Next(w, p))
  {
    hide Show;
    hide Landed;
    hide WaitsOk;
    j := 0;
    LeavesElsewhere(w, p, p.tour.value.steps[p.index]);
    hide Elsewhere;
    hide LeavesFor;
    if p.index < |p.tour.value.steps| - 1 { j := Lands(w, p, p.index + 1); }
    hide LandsOn;
    assert p.log + [Emitted(p.tour.value.id, Completed)] + [] == p.log + [Emitted(p.tour.value.id, Completed)];
  }

  lemma ContinueDoes(w: World, p: Player, k: nat, outcome: Outcome) returns (j: nat)
    requires Sound(p)
    ensures Does(w, p, DoContinue(k, outcome), j, Continue(w, p, k, outcome))
  {
    j := 0;
    if k < |p.waits| && p.tour.Some? && p.waits[k].token == p.token {
      var rest := p.(waits := Without(p.waits, k));
      var c := p.waits[k];
      assert c.step == p.index < |p.tour.value.steps| && p.timer.None?;
      hide Show;
      hide Sound;
      j := ResolveDoes(w, rest, c, outcome);
      hide Resolve;
      hide Resolves;
    }
  }

  lemma ResolveDoes(w: World, p: Player, c: Waiting, outcome: Outcome) returns (j: nat)
    requires p.tour.Some? && c.step == p.index < |p.tour.value.steps| && p.timer.None?
    ensures Resolves(w, p, c.seeking, outcome, j, Resolve(w, p, c, outcome))
  {
    hide Show;
    hide LandsOn;
    j := 0;
    match outcome
    case Arrived(healed) => if !c.seeking { j := Lands(w, p, c.step + 1); }
    case Missed(reason) =>
      if !c.seeking || reason.InIframe? {
        j := Lands(w, Emit(p, StepError(c.step, if reason.InIframe? then InIframe else TimedOut)), c.step + 1);
      }
  }

  lemma PerformDoes(w: World, p: Player, ok: bool) returns (j: nat)
    requires Sound(p)
    ensures Does(w, p, DoPerform(ok), j, Perform(w, p, ok))
  {
    hide Show;
    hide WaitsOk;
    j := 0;
    if p.timer.Some? {
      var t := p.timer.value;
      var q := p.(timer := None);
      var saved := if t.action.Navigate? then Persist(w, q, t.step + 1, true) else q;
      var acted := if t.action.Navigate? && t.action.url != "" then Leave(saved, t.action.url) else saved;
      var worked := if t.action.Navigate? then t.action.url != "" else ok;
      var shown := if worked then acted else Emit(acted, StepError(t.step, ActionFailed));
      assert p.log + [] == p.log;
      hide LandsOn;
      j := Lands(w, shown, t.step + 1);
    }
  }

  /** The handler theorem: from any player a history reaches, every handler reports, shows, stores and leaves waiting exactly
      this. */
  lemma HandlersDo(home: Page, history: seq<Moment>, w: World, h: Handler) returns (j: nat)
    ensures Does(w, After(home, history), h, j, Handle(w, After(home, history), h))
  {
    var p := After(home, history);
    LedgerBalances(home, history, "");
    hide Balanced;
    hide After;
    hide Show;
    j := 0;
    match h
    case DoStart(tour, preview) => j := StartDoes(w, p, tour, preview);
    case DoNext => if p.tour.Some? { j := NextDoes(w, p); }
    case DoContinue(k, outcome) => j := ContinueDoes(w, p, k, outcome);
    case DoPerform(ok) => j := PerformDoes(w, p, ok);
    case DoBack => if p.tour.Some? && p.index > 0 { j := Lands(w, p, p.index - 1); }
    case DoSkip => if p.tour.Some? && p.card.Some? { j := Lands(w, p, p.card.value + 1); }
    case _ =>
    hide LandsOn;
    hide WaitsOk;
    hide Resolves;
    hide Acts;
    hide Starts;
    hide GoesOn;
    hide Start;
    hide Continue;
    hide Perform;
    hide Next;
  }
}
