/** The product-tour player: a step machine that survives reloads through one stored record. Every browser
    handler is one atomic step; a reload may fall between any two of them. */
module Tours {
  import opened Wrappers

  /** A stored position older than this (in milliseconds) is dead. */
  const PROGRESS_TTL := 86_400_000

  // ------------------------------------------------------------------ what is shown

  datatype Action = Click | Fill | Navigate(url: string)

  datatype Kind = Wait | Acting | Plain

  /** `anchored`: the step resolves against an element. `url` is trimmed; empty means none. */
  datatype Step = Step(kind: Kind, anchored: bool, url: string, action: Option<Action>)

  datatype Tour = Tour(id: string, steps: seq<Step>, driven: bool)

  datatype Reason = InIframe | NotFound | TimedOut | ActionFailed

  datatype Report =
    | Started
    | StepViewed(step: nat, healed: bool)
    | StepError(step: nat, reason: Reason)
    | StepBlocked(step: nat, reason: Reason)
    | Completed
    | Dismissed(step: nat, neverAgain: bool)

  datatype Entry =
    | Emitted(tour: string, report: Report)
    | Assigned(url: string)

  // ------------------------------------------------------------------ the page

  datatype Page = Page(origin: string, path: string, search: string, hash: string)

  datatype Probe = Found(healed: bool) | Absent(reason: Reason)

  /** What a handler may observe: the clock, the document (one answer per step), the URL parser, and whether
      the player is configured to wait for late elements. */
  datatype World = World(now: int, probe: nat -> Probe, locate: (string, Page) -> Option<Page>, patient: bool)

  predicate IsDifferentPage(w: World, url: string, href: Page) {
    match w.locate(url, href)
    case None => false
    case Some(target) => target.origin != href.origin || target.path != href.path || target.search != href.search
  }

  // ------------------------------------------------------------------ state

  datatype Progress = Progress(tourId: string, stepIndex: nat, startedAt: int, updatedAt: int, navigating: bool)

  /** A suspended continuation: `awaitTarget` when `seeking`, else a wait step. */
  datatype Waiting = Waiting(seeking: bool, step: nat, token: nat)

  datatype Timer = Timer(action: Action, step: nat, token: nat)

  datatype Player = Player(
    tour: Option<Tour>,
    index: nat,
    startedAt: int,
    token: nat,
    preview: bool,
    timer: Option<Timer>,
    waits: seq<Waiting>,
    card: Option<nat>,          // the step whose can't-find-it card is on screen
    href: Page,
    store: Option<Progress>,
    log: seq<Entry>)

  function Fresh(href: Page, preview: bool, store: Option<Progress>, log: seq<Entry>): Player {
    Player(None, 0, 0, 0, preview, None, [], None, href, store, log)
  }

  function ReadProgress(store: Option<Progress>, now: int): Option<Progress> {
    if store.Some? && now - store.value.updatedAt > PROGRESS_TTL then None else store
  }

  // ------------------------------------------------------------------ plumbing

  function Emit(p: Player, r: Report): Player
    requires p.tour.Some?
  {
    p.(log := p.log + [Emitted(p.tour.value.id, r)])
  }

  function Persist(w: World, p: Player, i: nat, navigating: bool): Player
    requires p.tour.Some?
  {
    if p.preview then p
    else p.(store := Some(Progress(p.tour.value.id, i, p.startedAt, w.now, navigating)))
  }

  function Teardown(p: Player): Player {
    p.(token := p.token + 1, timer := None, tour := None, index := 0, card := None)
  }

  function Finish(p: Player, r: Report): Player
    requires p.tour.Some?
  {
    Teardown(Emit(p, r).(store := None))
  }

  function Leave(p: Player, url: string): Player { p.(log := p.log + [Assigned(url)]) }

  function Suspend(p: Player, seeking: bool, i: nat): Player {
    p.(waits := p.waits + [Waiting(seeking, i, p.token)], card := None)
  }

  function Block(p: Player, i: nat, reason: Reason): Player
    requires p.tour.Some?
  {
    Emit(p, StepBlocked(i, reason)).(card := Some(i))
  }

  predicate Drives(t: Tour, i: nat) {
    i < |t.steps| && t.steps[i].kind.Acting? && t.driven && t.steps[i].action.Some?
  }

  function Present(p: Player, i: nat, healed: bool): Player
    requires p.tour.Some?
  {
    var q := Emit(p, StepViewed(i, healed)).(card := None);
    if Drives(p.tour.value, i) then q.(timer := Some(Timer(p.tour.value.steps[i].action.value, i, p.token))) else q
  }

  // ------------------------------------------------------------------ flow

  predicate LeavesFor(w: World, p: Player, step: Step) {
    step.url != "" && !p.preview && IsDifferentPage(w, step.url, p.href)
  }

  /** Turn to step i: older continuations go stale, the pending action is cancelled, the position is stored. */
  function Turned(w: World, p: Player, i: nat, navigating: bool): Player
    requires p.tour.Some?
  {
    Persist(w, p.(token := p.token + 1, timer := None, index := i), i, navigating)
  }

  function Show(w: World, p: Player, i: nat): Player
    requires p.tour.Some?
    decreases |p.tour.value.steps| - i
  {
    if i >= |p.tour.value.steps| then Finish(p, Completed)
    else
      var step := p.tour.value.steps[i];
      var here := Turned(w, p, i, false);
      if step.kind.Wait? then Suspend(Emit(here, StepViewed(i, false)), false, i)
      else if !step.anchored then Present(here, i, false)
      else
        match w.probe(i)
        case Found(healed) => Present(here, i, healed)
        case Absent(reason) =>
          if LeavesFor(w, p, step) then Leave(Turned(w, p, i, true), step.url)
          else if reason.InIframe? then Show(w, Emit(here, StepError(i, InIframe)), i + 1)
          else if !w.patient then Block(here, i, NotFound)
          else Suspend(here, true, i)
  }

  /** The stored position a start of `tour` picks up from: live, of this tour, and within its steps. */
  function Resumable(store: Option<Progress>, tour: Tour, now: int): Option<Progress> {
    var saved := ReadProgress(store, now);
    if saved.Some? && saved.value.tourId == tour.id && saved.value.stepIndex < |tour.steps| then saved else None
  }

  function Start(w: World, p: Player, tour: Tour, preview: Option<bool>): Player {
    var idle := if p.tour.Some? then Teardown(p) else p;
    if tour.steps == [] then idle
    else
      var on := if preview.Some? then preview.value else p.preview;
      var q := idle.(tour := Some(tour), preview := on);
      match if on then None else Resumable(p.store, tour, w.now)
      case Some(saved) => Show(w, q.(startedAt := saved.startedAt), saved.stepIndex)
      case None => Show(w, Emit(q.(startedAt := w.now), Started), 0)
  }

  /** Leaving the last step also honours its destination url, after completing. */
  function CompleteFrom(w: World, p: Player, step: Step): Player
    requires p.tour.Some?
  {
    var done := Finish(p, Completed);
    if LeavesFor(w, p, step) then Leave(done, step.url) else done
  }

  function Next(w: World, p: Player): Player {
    if p.tour.None? then p
    else if p.index < |p.tour.value.steps| && p.index == |p.tour.value.steps| - 1
    then CompleteFrom(w, p, p.tour.value.steps[p.index])
    else Show(w, p, p.index + 1)
  }

  function Back(w: World, p: Player): Player {
    if p.tour.Some? && p.index > 0 then Show(w, p, p.index - 1) else p
  }

  function Dismiss(p: Player, neverAgain: bool): Player {
    if p.tour.None? then p else Finish(p, Dismissed(p.index, neverAgain))
  }

  function Skip(w: World, p: Player): Player {
    if p.tour.Some? && p.card.Some? then Show(w, p, p.card.value + 1) else p
  }

  datatype Outcome = Arrived(healed: bool) | Missed(reason: Reason)

  function Without<T>(s: seq<T>, k: nat): seq<T>
    requires k < |s|
  {
    s[..k] + s[k + 1..]
  }

  /** What the continuation of the step on screen does, once its wait is over. */
  function Resolve(w: World, p: Player, c: Waiting, outcome: Outcome): Player
    requires p.tour.Some?
  {
    if c.seeking then
      match outcome
      case Arrived(healed) => Present(p, c.step, healed)
      case Missed(reason) =>
        if reason.InIframe? then Show(w, Emit(p, StepError(c.step, InIframe)), c.step + 1)
        else Block(p, c.step, reason)
    else
      match outcome
      case Arrived(_) => Show(w, p, c.step + 1)
      case Missed(reason) =>
        Show(w, Emit(p, StepError(c.step, if reason.InIframe? then InIframe else TimedOut)), c.step + 1)
  }

  /** A suspended continuation runs: a stale one only disappears. */
  function Continue(w: World, p: Player, k: nat, outcome: Outcome): Player {
    if k >= |p.waits| then p
    else
      var q := p.(waits := Without(p.waits, k));
      if p.waits[k].token != p.token || p.tour.None? then q else Resolve(w, q, p.waits[k], outcome)
  }

  /** The driven action of the step on screen fires. `ok`: whether a click or fill found its element. */
  function Perform(w: World, p: Player, ok: bool): Player {
    if p.timer.None? then p
    else
      var t := p.timer.value;
      var q := p.(timer := None);
      if t.token != p.token || p.tour.None? then q
      else
        var saved := if t.action.Navigate? then Persist(w, q, t.step + 1, true) else q;
        var acted := if t.action.Navigate? && t.action.url != "" then Leave(saved, t.action.url) else saved;
        var worked := if t.action.Navigate? then t.action.url != "" else ok;
        Show(w, if worked then acted else Emit(acted, StepError(t.step, ActionFailed)), t.step + 1)
  }

  function Reload(p: Player, href: Page, preview: bool): Player { Fresh(href, preview, p.store, p.log) }

  // ------------------------------------------------------------------ histories

  datatype Handler =
    | DoStart(tour: Tour, preview: Option<bool>)
    | DoNext
    | DoBack
    | DoDismiss(neverAgain: bool)
    | DoStop
    | DoSkip
    | DoContinue(k: nat, outcome: Outcome)
    | DoPerform(ok: bool)
    | DoRoam(page: Page)                    // a single-page app changes the address
    | DoReload(page: Page, asPreview: bool)   // a new page with a new player

  function Handle(w: World, p: Player, h: Handler): Player {
    match h
    case DoStart(tour, preview) => Start(w, p, tour, preview)
    case DoNext => Next(w, p)
    case DoBack => Back(w, p)
    case DoDismiss(neverAgain) => Dismiss(p, neverAgain)
    case DoStop => Teardown(p)
    case DoSkip => Skip(w, p)
    case DoContinue(k, outcome) => Continue(w, p, k, outcome)
    case DoPerform(ok) => Perform(w, p, ok)
    case DoRoam(page) => p.(href := page)
    case DoReload(page, preview) => Reload(p, page, preview)
  }

  datatype Moment = Moment(w: World, h: Handler)

  function Run(p: Player, history: seq<Moment>): Player
    decreases |history|
  {
    if history == [] then p
    else
      var last := history[|history| - 1];
      Handle(last.w, Run(p, history[..|history| - 1]), last.h)
  }

  /** The player after a history of handlers, from a first visit with empty storage. */
  function After(home: Page, history: seq<Moment>): Player { Run(Fresh(home, false, None, []), history) }
}
