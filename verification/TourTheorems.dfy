/** What every history of the tour player keeps. */
module TourTheorems {
  import opened Wrappers
  import opened Tours

  // ------------------------------------------------------------------ the invariant

  /** The running tour stands within its steps, and, unless it is a preview, the stored record is exactly where it stands. */
  predicate Saved(p: Player) {
    p.tour.Some? ==>
      p.index < |p.tour.value.steps|
      && (!p.preview ==>
            p.store.Some? && p.store.value.tourId == p.tour.value.id
            && p.store.value.stepIndex == p.index && p.store.value.startedAt == p.startedAt)
  }

  /** Continuations carry strictly increasing tokens; the one that is current, if any, is for the step on screen. */
  predicate WaitsOk(p: Player) {
    && (forall k :: 0 <= k < |p.waits| ==> p.waits[k].token <= p.token)
    && (forall j, k :: 0 <= j < k < |p.waits| ==> p.waits[j].token < p.waits[k].token)
    && (forall k :: 0 <= k < |p.waits| && p.tour.Some? && p.waits[k].token == p.token ==>
          p.waits[k].step == p.index && p.timer.None? && p.card.None?)
  }

  predicate TimerOk(p: Player) {
    p.timer.Some? ==>
      p.tour.Some? && p.timer.value.token == p.token && p.timer.value.step == p.index
      && Drives(p.tour.value, p.index) && p.tour.value.steps[p.index].action.value == p.timer.value.action
  }

  predicate CardOk(p: Player) { p.card.Some? ==> p.tour.Some? && p.card.value < |p.tour.value.steps| }

  predicate Sound(p: Player) { Saved(p) && WaitsOk(p) && TimerOk(p) && CardOk(p) }

  // ------------------------------------------------------------------ the ledger of one tour

  function Starts(log: seq<Entry>, id: string): nat
    decreases |log|
  {
    if log == [] then 0
    else Starts(log[..|log| - 1], id) + (if log[|log| - 1] == Emitted(id, Started) then 1 else 0)
  }

  predicate IsEnd(e: Entry, id: string) {
    e.Emitted? && e.tour == id && (e.report.Completed? || e.report.Dismissed?)
  }

  function Ends(log: seq<Entry>, id: string): nat
    decreases |log|
  {
    if log == [] then 0
    else Ends(log[..|log| - 1], id) + (if IsEnd(log[|log| - 1], id) then 1 else 0)
  }

  predicate Holds(store: Option<Progress>, id: string) { store.Some? && store.value.tourId == id }

  function Held(store: Option<Progress>, id: string): nat { if Holds(store, id) then 1 else 0 }

  /** A session of `id` is open by what was reported: started, and not ended since. */
  predicate Open(log: seq<Entry>, id: string)
    decreases |log|
  {
    log != []
    && var last := log[|log| - 1];
       if last == Emitted(id, Started) then true
       else if IsEnd(last, id) then false
       else Open(log[..|log| - 1], id)
  }

  /** Nothing but a start is ever reported outside an open session. */
  predicate InSessions(log: seq<Entry>, id: string)
    decreases |log|
  {
    log == []
    || (InSessions(log[..|log| - 1], id)
        && var last := log[|log| - 1];
           (last.Emitted? && last.tour == id && !last.report.Started? ==> Open(log[..|log| - 1], id)))
  }

  lemma Logged(log: seq<Entry>, e: Entry, id: string)
    ensures Starts(log + [e], id) == Starts(log, id) + (if e == Emitted(id, Started) then 1 else 0)
    ensures Ends(log + [e], id) == Ends(log, id) + (if IsEnd(e, id) then 1 else 0)
    ensures Open(log + [e], id) <==> (e == Emitted(id, Started) || (!IsEnd(e, id) && Open(log, id)))
    ensures InSessions(log + [e], id) <==>
            InSessions(log, id) && (e.Emitted? && e.tour == id && !e.report.Started? ==> Open(log, id))
  {
    assert (log + [e])[..|log|] == log;
  }

  /** One while a preview of `id` is running: a session storage knows nothing of. */
  function Shadow(p: Player, id: string): nat {
    if p.tour.Some? && p.preview && p.tour.value.id == id then 1 else 0
  }

  /** The books of tour `id` in state p, allowing for `lost` sessions. */
  predicate Balanced(p: Player, id: string, lost: nat) {
    && Starts(p.log, id) == Ends(p.log, id) + lost + Held(p.store, id) + Shadow(p, id)
    && (Held(p.store, id) + Shadow(p, id) > 0 ==> Open(p.log, id))
    && InSessions(p.log, id)
  }

  /** What a preview has under it: the stored session of `id`, if any. */
  function Under(p: Player, id: string): nat { if p.preview then Held(p.store, id) else 0 }

  /** The books while a handler is under way: the running tour's session is open, whatever storage says. */
  predicate Running(p: Player, id: string, lost: nat)
    requires p.tour.Some?
  {
    var open := if p.tour.value.id == id then 1 else 0;
    && Starts(p.log, id) == Ends(p.log, id) + lost + open + Under(p, id)
    && (open + Under(p, id) > 0 ==> Open(p.log, id))
    && InSessions(p.log, id)
  }

  predicate IsStepReport(r: Report) { !r.Started? && !r.Completed? && !r.Dismissed? }

  lemma StepReported(p: Player, r: Report, id: string, lost: nat)
    requires p.tour.Some? && Running(p, id, lost) && IsStepReport(r)
    ensures Running(Emit(p, r), id, lost)
  {
    Logged(p.log, Emitted(p.tour.value.id, r), id);
    hide Starts;
    hide Ends;
    hide Open;
    hide InSessions;
  }

  lemma Left(p: Player, url: string, id: string, lost: nat)
    ensures p.tour.Some? && Running(p, id, lost) ==> Running(Leave(p, url), id, lost)
    ensures Balanced(p, id, lost) ==> Balanced(Leave(p, url), id, lost)
  {
    Logged(p.log, Assigned(url), id);
    hide Starts;
    hide Ends;
    hide Open;
    hide InSessions;
  }

  lemma FinishSettles(p: Player, r: Report, id: string, lost: nat)
    requires p.tour.Some? && Running(p, id, lost) && (r.Completed? || r.Dismissed?)
    ensures Balanced(Finish(p, r), id, lost + Under(p, id))
  {
    Logged(p.log, Emitted(p.tour.value.id, r), id);
    hide Starts;
    hide Ends;
    hide Open;
    hide InSessions;
  }

  lemma StandingBalances(p: Player, id: string, lost: nat)
    requires p.tour.Some? && Saved(p)
    ensures Balanced(p, id, lost) <==> Running(p, id, lost)
  {
    hide Starts;
    hide Ends;
    hide Open;
    hide InSessions;
  }

  /** The books look at the tour, the log, the mode and storage only. */
  lemma StandsAs(p: Player, q: Player, id: string, lost: nat)
    requires p.tour.Some? && Saved(q) && q.tour == p.tour && q.log == p.log && q.preview == p.preview && q.store == p.store
    requires Running(p, id, lost)
    ensures Balanced(q, id, lost)
  {
    hide Starts;
    hide Ends;
    hide Open;
    hide InSessions;
  }

  // ------------------------------------------------------------------ showing a step

  /** The part of soundness a handler may rely on while it replaces the step on screen. */
  predicate Ascending(waits: seq<Waiting>, token: nat) {
    && (forall k :: 0 <= k < |waits| ==> waits[k].token <= token)
    && (forall j, k :: 0 <= j < k < |waits| ==> waits[j].token < waits[k].token)
  }

  lemma FinishSound(p: Player, r: Report)
    requires p.tour.Some? && Ascending(p.waits, p.token)
    ensures Sound(Finish(p, r))
  {
  }

  /** A step just persisted, with nothing pending for its token yet. */
  predicate Arriving(p: Player, i: nat) {
    && p.tour.Some? && p.index == i && i < |p.tour.value.steps| && Saved(p)
    && p.timer.None? && CardOk(p)
    && Ascending(p.waits, p.token)
    && forall k :: 0 <= k < |p.waits| ==> p.waits[k].token < p.token
  }

  lemma PresentSound(p: Player, i: nat, healed: bool)
    requires Arriving(p, i)
    ensures Sound(Present(p, i, healed))
  {
  }

  lemma PresentSettles(p: Player, i: nat, healed: bool, id: string, lost: nat)
    requires Arriving(p, i) && Running(p, id, lost)
    ensures Sound(Present(p, i, healed)) && Balanced(Present(p, i, healed), id, lost)
  {
    StepReported(p, StepViewed(i, healed), id, lost);
    PresentSound(p, i, healed);
    hide Running;
    hide Balanced;
    hide WaitsOk;
    hide Ascending;
    hide TimerOk;
    hide CardOk;
    StandsAs(Emit(p, StepViewed(i, healed)), Present(p, i, healed), id, lost);
  }

  lemma SuspendSettles(p: Player, seeking: bool, i: nat, id: string, lost: nat)
    requires Arriving(p, i) && Running(p, id, lost)
    ensures Sound(Suspend(p, seeking, i)) && Balanced(Suspend(p, seeking, i), id, lost)
  {
    hide Running;
    hide Balanced;
    StandsAs(p, Suspend(p, seeking, i), id, lost);
  }

  lemma BlockSettles(p: Player, i: nat, reason: Reason, id: string, lost: nat)
    requires Arriving(p, i) && Running(p, id, lost)
    ensures Sound(Block(p, i, reason)) && Balanced(Block(p, i, reason), id, lost)
  {
    StepReported(p, StepBlocked(i, reason), id, lost);
    hide Running;
    hide Balanced;
    StandsAs(Emit(p, StepBlocked(i, reason)), Block(p, i, reason), id, lost);
  }

  lemma LeaveSettles(p: Player, i: nat, url: string, id: string, lost: nat)
    requires Arriving(p, i) && Running(p, id, lost)
    ensures Sound(Leave(p, url)) && Balanced(Leave(p, url), id, lost)
  {
    Left(p, url, id, lost);
    StandingBalances(Leave(p, url), id, lost);
    hide Starts;
    hide Ends;
    hide Open;
    hide InSessions;
    hide Balanced;
  }

  lemma TurnedArrives(w: World, p: Player, i: nat, navigating: bool, id: string, lost: nat)
    requires p.tour.Some? && i < |p.tour.value.steps| && CardOk(p)
    requires Ascending(p.waits, p.token) && Running(p, id, lost)
    ensures var q := Turned(w, p, i, navigating);
            Arriving(q, i) && Running(q, id, lost) && q.tour == p.tour && q.href == p.href && q.preview == p.preview
            && (p.preview ==> q.store == p.store)
  {
    hide Starts;
    hide Ends;
    hide Open;
    hide InSessions;
  }

  /** No step from i on can be shown on this page. */
  predicate RunsOut(w: World, tour: Tour, i: nat) {
    forall k :: i <= k < |tour.steps| ==>
      !tour.steps[k].kind.Wait? && tour.steps[k].anchored && w.probe(k) == Absent(InIframe)
  }

  /** What showing step i of a preview costs: running out of steps finishes it, and finishing clears storage. */
  function Gone(w: World, p: Player, i: nat, id: string): nat
    requires p.tour.Some?
  {
    if RunsOut(w, p.tour.value, i) then Under(p, id) else 0
  }

  lemma NothingGone(w: World, p: Player, i: nat, id: string)
    requires p.tour.Some? && i < |p.tour.value.steps|
    requires var step := p.tour.value.steps[i]; !(!step.kind.Wait? && step.anchored && w.probe(i) == Absent(InIframe))
    ensures Gone(w, p, i, id) == 0
  {
  }

  lemma OneStepLess(w: World, tour: Tour, i: nat)
    requires i < |tour.steps| && !tour.steps[i].kind.Wait? && tour.steps[i].anchored && w.probe(i) == Absent(InIframe)
    ensures RunsOut(w, tour, i) <==> RunsOut(w, tour, i + 1)
  {
  }

  lemma {:induction false} ShowSettles(w: World, p: Player, i: nat, id: string, lost: nat)
    requires p.tour.Some? && CardOk(p) && Ascending(p.waits, p.token) && Running(p, id, lost)
    ensures Sound(Show(w, p, i)) && Balanced(Show(w, p, i), id, lost + Gone(w, p, i, id))
    decreases |p.tour.value.steps| - i
  {
    hide Running;
    hide Balanced;
    hide Sound;
    hide Arriving;
    hide Ascending;
    hide Present;
    hide Suspend;
    hide Block;
    hide Leave;
    hide CardOk;
    hide Finish;
    hide Under;
    if i >= |p.tour.value.steps| {
      FinishSettles(p, Completed, id, lost);
      FinishSound(p, Completed);
    } else {
      hide Gone;
      ShowInRange(w, p, i, id, lost);
    }
  }

  lemma ShowInRange(w: World, p: Player, i: nat, id: string, lost: nat)
    requires p.tour.Some? && CardOk(p) && Ascending(p.waits, p.token) && Running(p, id, lost)
    requires i < |p.tour.value.steps|
    ensures Sound(Show(w, p, i)) && Balanced(Show(w, p, i), id, lost + Gone(w, p, i, id))
    decreases |p.tour.value.steps| - i, 0
  {
    hide Running;
    hide Balanced;
    hide Sound;
    hide Arriving;
    hide Ascending;
    hide Present;
    hide Suspend;
    hide Block;
    hide Leave;
    hide CardOk;
    hide Finish;
    hide Gone;
    hide Turned;
    var step := p.tour.value.steps[i];
    var here := Turned(w, p, i, false);
    TurnedArrives(w, p, i, false, id, lost);
    if step.kind.Wait? {
      NothingGone(w, p, i, id);
      EmitArrives(here, StepViewed(i, false), i, id, lost);
      SuspendSettles(Emit(here, StepViewed(i, false)), false, i, id, lost);
    } else if !step.anchored {
      NothingGone(w, p, i, id);
      PresentSettles(here, i, false, id, lost);
    } else {
      match w.probe(i)
      case Found(healed) =>
        NothingGone(w, p, i, id);
        PresentSettles(here, i, healed, id, lost);
      case Absent(reason) =>
        if LeavesFor(w, p, step) {
          VisitsLoseNothing(w, p, i, id);
          TurnedArrives(w, p, i, true, id, lost);
          LeaveSettles(Turned(w, p, i, true), i, step.url, id, lost);
        } else if reason.InIframe? {
          EmitArrives(here, StepError(i, InIframe), i, id, lost);
          ArrivingAscends(Emit(here, StepError(i, InIframe)), i);
          SameGone(w, p, Emit(here, StepError(i, InIframe)), i, id);
          ShowSettles(w, Emit(here, StepError(i, InIframe)), i + 1, id, lost);
        } else if !w.patient {
          NothingGone(w, p, i, id);
          BlockSettles(here, i, NotFound, id, lost);
        } else {
          NothingGone(w, p, i, id);
          SuspendSettles(here, true, i, id, lost);
        }
    }
  }

  lemma VisitsLoseNothing(w: World, p: Player, i: nat, id: string)
    requires p.tour.Some? && !p.preview
    ensures Gone(w, p, i, id) == 0
  {
  }

  lemma SameGone(w: World, p: Player, q: Player, i: nat, id: string)
    requires p.tour.Some? && q.tour == p.tour && q.preview == p.preview && (p.preview ==> q.store == p.store)
    requires i < |p.tour.value.steps|
    requires var step := p.tour.value.steps[i]; !step.kind.Wait? && step.anchored && w.probe(i) == Absent(InIframe)
    ensures Gone(w, q, i + 1, id) == Gone(w, p, i, id)
  {
    OneStepLess(w, p.tour.value, i);
    hide RunsOut;
  }

  lemma EmitArrives(p: Player, r: Report, i: nat, id: string, lost: nat)
    requires Arriving(p, i) && Running(p, id, lost) && IsStepReport(r)
    ensures Arriving(Emit(p, r), i) && Running(Emit(p, r), id, lost)
  {
    StepReported(p, r, id, lost);
    hide Running;
  }

  lemma ArrivingAscends(p: Player, i: nat)
    requires Arriving(p, i)
    ensures p.tour.Some? && CardOk(p) && Ascending(p.waits, p.token)
  {
  }

  // ------------------------------------------------------------------ every handler

  /** Will the start of `tour` be a preview? The flag sticks to the player when a start does not say. */
  predicate Previews(p: Player, preview: Option<bool>) { if preview.Some? then preview.value else p.preview }

  /** This handler takes a running preview past its last step, or dismisses it. */
  predicate Ending(w: World, p: Player, h: Handler) {
    p.tour.Some? && p.preview
    && match h
       case DoNext => RunsOut(w, p.tour.value, p.index + 1)
       case DoBack => p.index > 0 && RunsOut(w, p.tour.value, p.index - 1)
       case DoDismiss(_) => true
       case DoSkip => p.card.Some? && RunsOut(w, p.tour.value, p.card.value + 1)
       case DoContinue(k, outcome) =>
         k < |p.waits| && p.waits[k].token == p.token
         && (p.waits[k].seeking ==> outcome.Missed? && outcome.reason.InIframe?)
         && RunsOut(w, p.tour.value, p.waits[k].step + 1)
       case DoPerform(_) => p.timer.Some? && p.timer.value.token == p.token && RunsOut(w, p.tour.value, p.timer.value.step + 1)
       case _ => false
  }

  /** How many sessions of `id` a handler loses. A preview of it that is stopped, reloaded or replaced never ends; a preview
      that finishes clears the stored session under it; and a start that finds a stored session and does not resume it
      (it has expired, is of another tour, or points past the steps the tour now has) replaces it. */
  function Loss(w: World, p: Player, h: Handler, id: string): nat {
    match h
    case DoStart(tour, preview) =>
      Shadow(p, id)
      + (if tour.steps == [] then 0
         else if Previews(p, preview) then (if RunsOut(w, tour, 0) then Held(p.store, id) else 0)
         else if Resumable(p.store, tour, w.now).None? then Held(p.store, id) else 0)
    case DoStop => Shadow(p, id)
    case DoReload(_, _) => Shadow(p, id)
    case _ => if Ending(w, p, h) then Held(p.store, id) else 0
  }

  lemma SoundAscends(p: Player)
    requires Sound(p)
    ensures Ascending(p.waits, p.token) && CardOk(p)
  {
  }

  /** The books at the moment a start begins to show. */
  lemma StartedRuns(p: Player, q: Player, tour: Tour, id: string, lost: nat)
    requires Sound(p) && Balanced(p, id, lost) && q.tour == Some(tour) && q.log == p.log && q.store == p.store
    ensures Running(Emit(q, Started), id, lost + Shadow(p, id) + (if q.preview then 0 else Held(p.store, id)))
    ensures !q.preview && Holds(p.store, tour.id) ==> Running(q, id, lost + Shadow(p, id))
  {
    hide Starts;
    hide Ends;
    hide Open;
    hide InSessions;
    hide WaitsOk;
    Logged(q.log, Emitted(tour.id, Started), id);
  }

  lemma StartSettles(w: World, p: Player, tour: Tour, preview: Option<bool>, id: string, lost: nat)
    requires Sound(p) && Balanced(p, id, lost)
    ensures Sound(Start(w, p, tour, preview))
    ensures Balanced(Start(w, p, tour, preview), id, lost + Loss(w, p, DoStart(tour, preview), id))
  {
    hide Show;
    hide RunsOut;
    hide Running;
    hide Balanced;
    hide Sound;
    hide Ascending;
    hide Held;
    TornDown(p, id, lost);
    if tour.steps != [] {
      var idle := if p.tour.Some? then Teardown(p) else p;
      var q := idle.(tour := Some(tour), preview := Previews(p, preview));
      IdleCard(p, q);
      match if q.preview then None else Resumable(p.store, tour, w.now)
      case Some(saved) => ResumeSettles(w, p, q.(startedAt := saved.startedAt), tour, saved.stepIndex, id, lost);
      case None => AfreshSettles(w, p, q.(startedAt := w.now), tour, id, lost);
    }
  }

  lemma IdleCard(p: Player, q: Player)
    requires Sound(p) && q.card == (if p.tour.Some? then None else p.card)
    ensures q.card.None?
  {
  }

  lemma ResumeSettles(w: World, p: Player, q: Player, tour: Tour, i: nat, id: string, lost: nat)
    requires Sound(p) && Balanced(p, id, lost) && q.tour == Some(tour) && q.log == p.log && q.store == p.store
    requires !q.preview && Holds(p.store, tour.id) && q.card.None? && Ascending(q.waits, q.token)
    ensures Sound(Show(w, q, i)) && Balanced(Show(w, q, i), id, lost + Shadow(p, id))
  {
    StartedRuns(p, q, tour, id, lost);
    VisitsLoseNothing(w, q, i, id);
    hide Show;
    hide Running;
    hide Balanced;
    hide Sound;
    hide Gone;
    ShowSettles(w, q, i, id, lost + Shadow(p, id));
  }

  lemma AfreshSettles(w: World, p: Player, q: Player, tour: Tour, id: string, lost: nat)
    requires Sound(p) && Balanced(p, id, lost) && q.tour == Some(tour) && q.log == p.log && q.store == p.store
    requires q.card.None? && Ascending(q.waits, q.token)
    ensures var shown := Show(w, Emit(q, Started), 0);
            Sound(shown)
            && Balanced(shown, id, lost + Shadow(p, id)
                 + (if !q.preview || RunsOut(w, tour, 0) then Held(p.store, id) else 0))
  {
    StartedRuns(p, q, tour, id, lost);
    hide Show;
    hide Running;
    hide Balanced;
    hide Sound;
    hide RunsOut;
    hide Held;
    ShowSettles(w, Emit(q, Started), 0, id, lost + Shadow(p, id) + (if q.preview then 0 else Held(p.store, id)));
  }

  lemma TornDown(p: Player, id: string, lost: nat)
    requires Sound(p) && Balanced(p, id, lost)
    ensures Sound(Teardown(p)) && Balanced(Teardown(p), id, lost + Shadow(p, id))
    ensures Ascending(p.waits, p.token) && Ascending(Teardown(p).waits, Teardown(p).token)
  {
    hide Starts;
    hide Ends;
    hide Open;
    hide InSessions;
  }

  /** Moving to step i on the visitor's command. */
  lemma GoSettles(w: World, p: Player, i: nat, id: string, lost: nat)
    requires Sound(p) && Balanced(p, id, lost) && p.tour.Some?
    ensures Sound(Show(w, p, i))
    ensures Balanced(Show(w, p, i), id, lost + (if p.preview && RunsOut(w, p.tour.value, i) then Held(p.store, id) else 0))
  {
    StandingBalances(p, id, lost);
    SoundAscends(p);
    hide Running;
    hide Balanced;
    hide Show;
    hide Ascending;
    hide CardOk;
    hide WaitsOk;
    hide TimerOk;
    hide RunsOut;
    ShowSettles(w, p, i, id, lost);
  }

  lemma EndSettles(p: Player, r: Report, id: string, lost: nat)
    requires Sound(p) && Balanced(p, id, lost) && p.tour.Some? && (r.Completed? || r.Dismissed?)
    ensures Sound(Finish(p, r)) && Balanced(Finish(p, r), id, lost + (if p.preview then Held(p.store, id) else 0))
  {
    StandingBalances(p, id, lost);
    SoundAscends(p);
    FinishSettles(p, r, id, lost);
    FinishSound(p, r);
    hide Running;
    hide Balanced;
    hide Sound;
    hide Finish;
  }

  lemma NextSettles(w: World, p: Player, id: string, lost: nat)
    requires Sound(p) && Balanced(p, id, lost) && p.tour.Some?
    ensures Sound(Next(w, p)) && Balanced(Next(w, p), id, lost + Loss(w, p, DoNext, id))
  {
    hide Balanced;
    hide Show;
    hide Finish;
    hide WaitsOk;
    hide TimerOk;
    hide Held;
    if p.index == |p.tour.value.steps| - 1 {
      var url := p.tour.value.steps[p.index].url;
      NothingLeft(w, p.tour.value, p.index + 1);
      hide RunsOut;
      EndSettles(p, Completed, id, lost);
      hide Sound;
      Left(Finish(p, Completed), url, id, lost + (if p.preview then Held(p.store, id) else 0));
      LeftSound(Finish(p, Completed), url);
    } else {
      hide RunsOut;
      GoSettles(w, p, p.index + 1, id, lost);
    }
  }

  lemma MoveSettles(w: World, p: Player, h: Handler, id: string, lost: nat)
    requires Sound(p) && Balanced(p, id, lost) && p.tour.Some?
    requires h.DoNext? || h.DoBack? || h.DoSkip? || h.DoDismiss?
    ensures Sound(Handle(w, p, h)) && Balanced(Handle(w, p, h), id, lost + Loss(w, p, h, id))
  {
    hide Balanced;
    hide Show;
    hide Next;
    hide Finish;
    hide RunsOut;
    hide Sound;
    hide Held;
    match h
    case DoNext => NextSettles(w, p, id, lost);
    case DoBack => if p.index > 0 { GoSettles(w, p, p.index - 1, id, lost); }
    case DoSkip => if p.card.Some? { GoSettles(w, p, p.card.value + 1, id, lost); }
    case DoDismiss(neverAgain) => EndSettles(p, Dismissed(p.index, neverAgain), id, lost);
  }

  lemma LeftSound(p: Player, url: string)
    requires Sound(p)
    ensures Sound(Leave(p, url))
  {
  }

  lemma WithoutAscends(waits: seq<Waiting>, k: nat, token: nat)
    requires k < |waits| && Ascending(waits, token)
    ensures Ascending(Without(waits, k), token)
    ensures waits[k].token == token ==> forall j :: 0 <= j < |Without(waits, k)| ==> Without(waits, k)[j].token < token
    ensures forall j :: 0 <= j < |Without(waits, k)| ==> exists l :: 0 <= l < |waits| && waits[l] == Without(waits, k)[j]
  {
    assert forall j :: 0 <= j < |Without(waits, k)| ==> Without(waits, k)[j] == waits[if j < k then j else j + 1];
  }

  /** Taking the current continuation off the list leaves the step ready to be acted on; a stale one changes nothing else. */
  lemma TakenOff(p: Player, k: nat)
    requires Sound(p) && k < |p.waits|
    ensures var q := p.(waits := Without(p.waits, k));
            Sound(q) && Ascending(q.waits, q.token)
            && (p.tour.Some? && p.waits[k].token == p.token ==> Arriving(q, p.waits[k].step))
  {
    WithoutAscends(p.waits, k, p.token);
    hide Without;
  }

  lemma ContinueSettles(w: World, p: Player, k: nat, outcome: Outcome, id: string, lost: nat)
    requires Sound(p) && Balanced(p, id, lost)
    ensures Sound(Continue(w, p, k, outcome))
    ensures Balanced(Continue(w, p, k, outcome), id, lost + Loss(w, p, DoContinue(k, outcome), id))
  {
    hide Show;
    hide RunsOut;
    hide Starts;
    hide Ends;
    hide Open;
    hide InSessions;
    hide WaitsOk;
    hide Ascending;
    if k < |p.waits| {
      var c := p.waits[k];
      var q := p.(waits := Without(p.waits, k));
      TakenOff(p, k);
      if c.token == p.token && p.tour.Some? {
        CurrentSettles(w, q, c, outcome, id, lost);
      }
    }
  }

  /** Does this outcome make the current continuation show the next step? */
  predicate Advances(c: Waiting, outcome: Outcome) { c.seeking ==> outcome.Missed? && outcome.reason.InIframe? }

  lemma AdvanceSettles(w: World, q: Player, c: Waiting, outcome: Outcome, id: string, lost: nat)
    requires Arriving(q, c.step) && Running(q, id, lost) && Advances(c, outcome)
    ensures Sound(Resolve(w, q, c, outcome))
    ensures Balanced(Resolve(w, q, c, outcome), id, lost + Gone(w, q, c.step + 1, id))
  {
    hide Running;
    hide Balanced;
    hide Sound;
    hide Arriving;
    hide Ascending;
    hide Show;
    hide CardOk;
    hide RunsOut;
    ArrivingAscends(q, c.step);
    if outcome.Arrived? {
      ShowSettles(w, q, c.step + 1, id, lost);
    } else {
      var r := StepError(c.step, if outcome.reason.InIframe? then InIframe else TimedOut);
      EmitArrives(q, r, c.step, id, lost);
      ArrivingAscends(Emit(q, r), c.step);
      ShowSettles(w, Emit(q, r), c.step + 1, id, lost);
    }
  }

  lemma CurrentSettles(w: World, q: Player, c: Waiting, outcome: Outcome, id: string, lost: nat)
    requires Arriving(q, c.step) && Balanced(q, id, lost)
    ensures Sound(Resolve(w, q, c, outcome))
    ensures Balanced(Resolve(w, q, c, outcome), id, lost + (if Advances(c, outcome) then Gone(w, q, c.step + 1, id) else 0))
  {
    StandingBalances(q, id, lost);
    ArrivingAscends(q, c.step);
    hide Running;
    hide Balanced;
    hide Sound;
    hide Arriving;
    hide Ascending;
    hide Present;
    hide Block;
    hide Show;
    hide CardOk;
    hide Gone;
    if Advances(c, outcome) {
      AdvanceSettles(w, q, c, outcome, id, lost);
    } else if outcome.Arrived? {
      PresentSettles(q, c.step, outcome.healed, id, lost);
    } else {
      BlockSettles(q, c.step, outcome.reason, id, lost);
    }
  }

  /** The position saved ahead of a driven navigation keeps the books. */
  lemma SavedAhead(w: World, p: Player, id: string, lost: nat)
    requires Sound(p) && p.tour.Some? && Running(p, id, lost)
    ensures var q := p.(timer := None);
            var saved := Persist(w, q, p.index + 1, true);
            Running(q, id, lost) && Running(saved, id, lost) && CardOk(q) && CardOk(saved)
            && saved.tour == p.tour && saved.waits == p.waits && saved.token == p.token
            && saved.preview == p.preview && (p.preview ==> saved.store == p.store)
  {
    hide Starts;
    hide Ends;
    hide Open;
    hide InSessions;
    hide WaitsOk;
  }

  lemma PerformSettles(w: World, p: Player, ok: bool, id: string, lost: nat)
    requires Sound(p) && Balanced(p, id, lost)
    ensures Sound(Perform(w, p, ok)) && Balanced(Perform(w, p, ok), id, lost + Loss(w, p, DoPerform(ok), id))
  {
    hide Show;
    hide Running;
    hide Balanced;
    hide WaitsOk;
    hide Ascending;
    hide RunsOut;
    if p.timer.Some? {
      StandingBalances(p, id, lost);
      SoundAscends(p);
      SavedAhead(w, p, id, lost);
      var t := p.timer.value;
      var q := p.(timer := None);
      PerformedSettles(w, if t.action.Navigate? then Persist(w, q, t.step + 1, true) else q, t, ok, id, lost);
    }
  }

  lemma PerformedSettles(w: World, saved: Player, t: Timer, ok: bool, id: string, lost: nat)
    requires saved.tour.Some? && CardOk(saved) && Ascending(saved.waits, saved.token)
    requires Running(saved, id, lost)
    ensures var acted := if t.action.Navigate? && t.action.url != "" then Leave(saved, t.action.url) else saved;
            var worked := if t.action.Navigate? then t.action.url != "" else ok;
            var shown := Show(w, if worked then acted else Emit(acted, StepError(t.step, ActionFailed)), t.step + 1);
            Sound(shown) && Balanced(shown, id, lost + Gone(w, saved, t.step + 1, id))
  {
    hide Show;
    hide Running;
    hide Balanced;
    hide Sound;
    hide CardOk;
    hide Ascending;
    hide RunsOut;
    var acted := if t.action.Navigate? && t.action.url != "" then Leave(saved, t.action.url) else saved;
    if t.action.Navigate? && t.action.url != "" { Left(saved, t.action.url, id, lost); }
    LeaveKeepsCard(saved, acted);
    var worked := if t.action.Navigate? then t.action.url != "" else ok;
    if worked {
      ShowSettles(w, acted, t.step + 1, id, lost);
    } else {
      StepReported(acted, StepError(t.step, ActionFailed), id, lost);
      LeaveKeepsCard(saved, Emit(acted, StepError(t.step, ActionFailed)));
      ShowSettles(w, Emit(acted, StepError(t.step, ActionFailed)), t.step + 1, id, lost);
    }
  }

  lemma LeaveKeepsCard(p: Player, q: Player)
    requires p.tour == q.tour && p.card == q.card && p.waits == q.waits && p.token == q.token
    ensures CardOk(q) <==> CardOk(p)
  {
  }

  lemma HandlerSettles(w: World, p: Player, h: Handler, id: string, lost: nat)
    requires Sound(p) && Balanced(p, id, lost)
    ensures Sound(Handle(w, p, h)) && Balanced(Handle(w, p, h), id, lost + Loss(w, p, h, id))
  {
    match h
    case DoStart(tour, preview) => StartSettles(w, p, tour, preview, id, lost);
    case DoContinue(k, outcome) => ContinueSettles(w, p, k, outcome, id, lost);
    case DoPerform(ok) => PerformSettles(w, p, ok, id, lost);
    case DoStop => TornDown(p, id, lost);
    case DoRoam(_) => assert Shadow(p.(href := h.page), id) == Shadow(p, id);
    case DoReload(_, _) =>
    case _ => if p.tour.Some? { MoveSettles(w, p, h, id, lost); }
    hide Show;
    hide Start;
    hide Continue;
    hide Perform;
    hide Starts;
    hide Ends;
    hide Open;
    hide InSessions;
  }

  // ------------------------------------------------------------------ every history

  function Lost(home: Page, history: seq<Moment>, id: string): nat
    decreases |history|
  {
    if history == [] then 0
    else
      var last := history[|history| - 1];
      var before := history[..|history| - 1];
      Lost(home, before, id) + Loss(last.w, After(home, before), last.h, id)
  }

  /** Over every history of visits and previews, for every tour: sessions started = sessions ended + sessions lost + those
      still open, one in storage and one in a running preview; and nothing is reported outside a session. */
  lemma {:induction false} LedgerBalances(home: Page, history: seq<Moment>, id: string)
    ensures Sound(After(home, history)) && Balanced(After(home, history), id, Lost(home, history, id))
    decreases |history|
  {
    hide Handle;
    hide Sound;
    hide Balanced;
    if history == [] {
      FreshSound(home, id);
    } else {
      var last := history[|history| - 1];
      var before := history[..|history| - 1];
      LedgerBalances(home, before, id);
      HandlerSettles(last.w, After(home, before), last.h, id, Lost(home, before, id));
    }
  }

  lemma FreshSound(home: Page, id: string)
    ensures Sound(Fresh(home, false, None, [])) && Balanced(Fresh(home, false, None, []), id, 0)
  {
  }

  /** The books balance exactly when no handler lost a session: no preview of the tour was cut short, none finished over its
      stored session, and no start replaced that session. */
  lemma BooksBalanceExactly(home: Page, history: seq<Moment>, id: string)
    ensures var p := After(home, history);
            Starts(p.log, id) == Ends(p.log, id) + Held(p.store, id) + Shadow(p, id) <==>
            forall k :: 0 <= k < |history| ==> Loss(history[k].w, After(home, history[..k]), history[k].h, id) == 0
  {
    LedgerBalances(home, history, id);
    LostNothing(home, history, id);
    hide After;
    hide Loss;
    hide Starts;
    hide Ends;
  }

  lemma {:induction false} LostNothing(home: Page, history: seq<Moment>, id: string)
    ensures Lost(home, history, id) == 0 <==>
            forall k :: 0 <= k < |history| ==> Loss(history[k].w, After(home, history[..k]), history[k].h, id) == 0
    decreases |history|
  {
    hide Loss;
    hide After;
    if history != [] {
      var n := |history| - 1;
      var before := history[..n];
      LostNothing(home, before, id);
      assert forall k :: 0 <= k < n ==> before[..k] == history[..k] && before[k] == history[k];
    }
  }

  /** A preview is finished by exactly the handlers whose guard says so: it is dismissed, or no step is left to show. */
  lemma PreviewEndsExactly(w: World, p: Player, h: Handler)
    requires Sound(p) && p.tour.Some? && p.preview
    requires !h.DoStart? && !h.DoStop? && !h.DoReload? && !h.DoRoam?
    ensures Handle(w, p, h).tour.None? <==> Ending(w, p, h)
    ensures Handle(w, p, h).store == if Ending(w, p, h) then None else p.store
  {
    hide Show;
    hide RunsOut;
    hide WaitsOk;
    match h
    case DoNext =>
      PreviewShows(w, p, p.index + 1);
      if p.index == |p.tour.value.steps| - 1 { NothingLeft(w, p.tour.value, p.index + 1); }
    case DoBack => if p.index > 0 { PreviewShows(w, p, p.index - 1); }
    case DoSkip => if p.card.Some? { PreviewShows(w, p, p.card.value + 1); }
    case DoDismiss(_) =>
    case DoContinue(k, outcome) =>
      if k < |p.waits| {
        var q := p.(waits := Without(p.waits, k));
        PreviewShows(w, q, p.waits[k].step + 1);
        forall r: Report { PreviewShows(w, Emit(q, r), p.waits[k].step + 1); }
      }
    case DoPerform(ok) =>
      if p.timer.Some? { PreviewPerforms(w, p, ok); }
  }

  lemma PreviewPerforms(w: World, p: Player, ok: bool)
    requires p.tour.Some? && p.preview && p.timer.Some? && p.timer.value.token == p.token
    ensures Perform(w, p, ok).tour.None? <==> RunsOut(w, p.tour.value, p.timer.value.step + 1)
    ensures Perform(w, p, ok).store == if RunsOut(w, p.tour.value, p.timer.value.step + 1) then None else p.store
  {
    hide Show;
    hide RunsOut;
    var t := p.timer.value;
    var q := p.(timer := None);
    var acted := if t.action.Navigate? && t.action.url != "" then Leave(q, t.action.url) else q;
    PreviewShows(w, acted, t.step + 1);
    PreviewShows(w, Emit(acted, StepError(t.step, ActionFailed)), t.step + 1);
  }

  lemma NothingLeft(w: World, tour: Tour, i: nat)
    requires i >= |tour.steps|
    ensures RunsOut(w, tour, i)
  {
  }

  /** A preview keeps storage as it is while it runs and clears it when it runs out of steps. */
  lemma {:induction false} PreviewShows(w: World, p: Player, i: nat)
    requires p.tour.Some? && p.preview
    ensures var q := Show(w, p, i);
            if RunsOut(w, p.tour.value, i) then q.tour.None? && q.store.None? else q.tour == p.tour && q.store == p.store
    decreases |p.tour.value.steps| - i
  {
    if i < |p.tour.value.steps| {
      var step := p.tour.value.steps[i];
      if !step.kind.Wait? && step.anchored && w.probe(i) == Absent(InIframe) {
        OneStepLess(w, p.tour.value, i);
        PreviewShows(w, Emit(Turned(w, p, i, false), StepError(i, InIframe)), i + 1);
        hide RunsOut;
      }
    }
  }

  // ------------------------------------------------------------------ one tour

  /** Visits are all of this tour, its steps unchanged, and find no expired record; previews are of other tours. */
  ghost predicate OneTour(home: Page, history: seq<Moment>, tour: Tour) {
    forall k :: 0 <= k < |history| ==> Visits(history[k], After(home, history[..k]), tour)
  }

  predicate Visits(m: Moment, p: Player, tour: Tour) {
    m.h.DoStart? ==>
      if Previews(p, m.h.preview) then m.h.tour.id != tour.id else m.h.tour == tour && Live(p.store, m.w.now)
  }

  predicate Live(store: Option<Progress>, now: int) { store.Some? ==> now - store.value.updatedAt <= PROGRESS_TTL }

  /** Storage only ever speaks of this tour, within its steps, and so does the player outside previews. */
  predicate Within(p: Player, tour: Tour) {
    && (p.tour.Some? ==> if p.preview then p.tour.value.id != tour.id else p.tour.value == tour)
    && (p.store.Some? ==> p.store.value.tourId == tour.id && p.store.value.stepIndex < |tour.steps|)
  }

  /** This handler finishes a preview while storage holds a session. */
  predicate Forgets(w: World, p: Player, h: Handler) {
    p.store.Some?
    && (Ending(w, p, h)
        || (h.DoStart? && h.tour.steps != [] && Previews(p, h.preview) && RunsOut(w, h.tour, 0)))
  }

  /** Either still the same tour, or finished with nothing stored. */
  predicate SameOrDone(p: Player, tour: Tour) {
    if p.tour.Some? then p.tour.value == tour else p.store.None?
  }

  lemma {:induction false} ShowStays(w: World, p: Player, i: nat)
    requires p.tour.Some?
    ensures var q := Show(w, p, i);
            SameOrDone(q, p.tour.value) && q.preview == p.preview && (p.preview ==> q.store == p.store || q.store.None?)
    decreases |p.tour.value.steps| - i
  {
    if i < |p.tour.value.steps| { ShowStays(w, Emit(Turned(w, p, i, false), StepError(i, InIframe)), i + 1); }
  }

  lemma NoStart(log: seq<Entry>, e: Entry, id: string)
    requires e != Emitted(id, Started)
    ensures Starts(log + [e], id) == Starts(log, id)
  {
    assert (log + [e])[..|log|] == log;
  }

  lemma {:induction false} ShowNeverStarts(w: World, p: Player, i: nat, id: string)
    requires p.tour.Some?
    ensures Starts(Show(w, p, i).log, id) == Starts(p.log, id)
    decreases |p.tour.value.steps| - i
  {
    hide Starts;
    var tour := p.tour.value;
    if i >= |tour.steps| {
      NoStart(p.log, Emitted(tour.id, Completed), id);
    } else {
      NoStart(p.log, Assigned(tour.steps[i].url), id);
      NoStart(p.log, Emitted(tour.id, StepViewed(i, false)), id);
      NoStart(p.log, Emitted(tour.id, StepViewed(i, true)), id);
      NoStart(p.log, Emitted(tour.id, StepBlocked(i, NotFound)), id);
      NoStart(p.log, Emitted(tour.id, StepError(i, InIframe)), id);
      ShowNeverStarts(w, Emit(Turned(w, p, i, false), StepError(i, InIframe)), i + 1, id);
    }
  }

  /** How a handler may move a running tour: on within it, to its end, or not at all. */
  predicate Moves(p: Player, q: Player)
    requires p.tour.Some?
  {
    && q.preview == p.preview && (q.tour.Some? ==> q.tour == p.tour)
    && (q.store == p.store || SameOrDone(q, p.tour.value))
    && (p.preview ==> q.store == p.store || q.store.None?)
  }

  lemma MoveWithin(w: World, p: Player, h: Handler)
    requires p.tour.Some? && !h.DoStart? && !h.DoStop? && !h.DoReload? && !h.DoRoam?
    ensures Moves(p, Handle(w, p, h))
  {
    hide Show;
    match h
    case DoNext => ShowStays(w, p, p.index + 1);
    case DoBack => if p.index > 0 { ShowStays(w, p, p.index - 1); }
    case DoSkip => if p.card.Some? { ShowStays(w, p, p.card.value + 1); }
    case DoDismiss(_) =>
    case DoContinue(k, outcome) =>
      if k < |p.waits| {
        var q := p.(waits := Without(p.waits, k));
        var c := p.waits[k];
        ShowStays(w, q, c.step + 1);
        forall r: Report { ShowStays(w, Emit(q, r), c.step + 1); }
      }
    case DoPerform(ok) =>
      if p.timer.Some? { PerformStays(w, p, ok); }
  }

  lemma PerformStays(w: World, p: Player, ok: bool)
    requires p.tour.Some? && p.timer.Some?
    ensures Moves(p, Perform(w, p, ok))
  {
    hide Show;
    var t := p.timer.value;
    var q := p.(timer := None);
    var saved := if t.action.Navigate? then Persist(w, q, t.step + 1, true) else q;
    var acted := if t.action.Navigate? && t.action.url != "" then Leave(saved, t.action.url) else saved;
    ShowStays(w, acted, t.step + 1);
    ShowStays(w, Emit(acted, StepError(t.step, ActionFailed)), t.step + 1);
  }

  lemma StartWithin(w: World, p: Player, tour: Tour, preview: Option<bool>)
    requires tour.steps != []
    ensures var q := Start(w, p, tour, preview);
            q.preview == Previews(p, preview) && SameOrDone(q, tour)
            && (q.preview ==> q.store == p.store || q.store.None?)
  {
    hide Show;
    var idle := if p.tour.Some? then Teardown(p) else p;
    var q := idle.(tour := Some(tour), preview := Previews(p, preview));
    match if q.preview then None else Resumable(p.store, tour, w.now)
    case Some(saved) => ShowStays(w, q.(startedAt := saved.startedAt), saved.stepIndex);
    case None => ShowStays(w, Emit(q.(startedAt := w.now), Started), 0);
  }

  /** What soundness adds: a visit's record is the visited tour's own. */
  lemma SoundWithin(p: Player, q: Player, tour: Tour)
    requires Sound(q) && (q.tour.Some? ==> if q.preview then q.tour.value.id != tour.id else q.tour.value == tour)
    requires q.store == p.store || q.store.None? || (q.tour.Some? && !q.preview)
    requires p.store.Some? ==> p.store.value.tourId == tour.id && p.store.value.stepIndex < |tour.steps|
    ensures Within(q, tour)
  {
  }

  lemma WithinKept(w: World, p: Player, h: Handler, tour: Tour)
    requires Sound(p) && Sound(Handle(w, p, h)) && Within(p, tour) && Visits(Moment(w, h), p, tour)
    ensures Within(Handle(w, p, h), tour)
  {
    hide Show;
    hide Start;
    hide Sound;
    var q := Handle(w, p, h);
    if h.DoStart? && h.tour.steps != [] {
      StartWithin(w, p, h.tour, h.preview);
      SoundWithin(p, q, tour);
    } else if !h.DoStart? && !h.DoStop? && !h.DoReload? && !h.DoRoam? && p.tour.Some? {
      MoveWithin(w, p, h);
      SoundWithin(p, q, tour);
    } else {
      StaysPut(w, p, h);
    }
  }

  /** The other handlers leave storage alone and the player with the tour it had or none. */
  lemma StaysPut(w: World, p: Player, h: Handler)
    requires (h.DoStart? && h.tour.steps == []) || h.DoStop? || h.DoReload? || h.DoRoam? || (!h.DoStart? && p.tour.None?)
    ensures var q := Handle(w, p, h); q.store == p.store && (q.tour.Some? ==> q.tour == p.tour && q.preview == p.preview)
  {
    hide Show;
  }

  /** With one tour visited, the only way to lose its session is to finish a preview over it. */
  lemma LosesByForgetting(m: Moment, p: Player, tour: Tour)
    requires Within(p, tour) && Visits(m, p, tour)
    ensures Loss(m.w, p, m.h, tour.id) == if Forgets(m.w, p, m.h) then 1 else 0
  {
    hide RunsOut;
  }

  lemma {:induction false} OneTourWithin(home: Page, history: seq<Moment>, tour: Tour)
    requires OneTour(home, history, tour)
    ensures Within(After(home, history), tour)
    decreases |history|
  {
    hide Handle;
    hide Sound;
    hide Balanced;
    hide Visits;
    if history != [] {
      var last := history[|history| - 1];
      var before := history[..|history| - 1];
      assert forall k :: 0 <= k < |before| ==> before[..k] == history[..k] && before[k] == history[k];
      OneTourWithin(home, before, tour);
      LedgerBalances(home, before, tour.id);
      LedgerBalances(home, history, tour.id);
      WithinKept(last.w, After(home, before), last.h, tour);
    }
  }

  /** One tour, visited over any number of reloads, with other tours previewed in between. It has been started exactly as
      often as it has ended, or once more and the latter exactly while storage holds its position, if and only if no
      preview finished while storage held it. */
  lemma OneTourLedger(home: Page, history: seq<Moment>, tour: Tour)
    requires OneTour(home, history, tour)
    ensures var p := After(home, history);
            Starts(p.log, tour.id) == Ends(p.log, tour.id) + (if p.store.Some? then 1 else 0) <==>
            forall k :: 0 <= k < |history| ==> !Forgets(history[k].w, After(home, history[..k]), history[k].h)
    ensures var p := After(home, history);
            Within(p, tour) && (p.tour.Some? && !p.preview ==> p.store.Some? && p.store.value.stepIndex == p.index)
  {
    BooksBalanceExactly(home, history, tour.id);
    LedgerBalances(home, history, tour.id);
    OneTourWithin(home, history, tour);
    forall k | 0 <= k < |history|
      ensures Loss(history[k].w, After(home, history[..k]), history[k].h, tour.id) == 0 <==>
              !Forgets(history[k].w, After(home, history[..k]), history[k].h)
    {
      var before := history[..k];
      assert forall j :: 0 <= j < k ==> before[..j] == history[..j] && before[j] == history[j];
      OneTourPrefix(home, history, k, tour);
      OneTourWithin(home, before, tour);
      LosesByForgetting(history[k], After(home, before), tour);
    }
    hide After;
    hide Starts;
    hide Ends;
    hide Forgets;
    hide Loss;
  }

  lemma OneTourPrefix(home: Page, history: seq<Moment>, k: nat, tour: Tour)
    requires OneTour(home, history, tour) && k <= |history|
    ensures OneTour(home, history[..k], tour)
  {
    hide Visits;
    hide After;
    assert forall j :: 0 <= j < k ==> history[..k][..j] == history[..j] && history[..k][j] == history[j];
  }

  /** A start reports `started` exactly when it is a preview or nothing stored can be resumed. */
  lemma StartedOnlyAfresh(w: World, p: Player, tour: Tour, preview: Option<bool>)
    requires tour.steps != []
    ensures Starts(Start(w, p, tour, preview).log, tour.id) == Starts(p.log, tour.id)
         + (if !Previews(p, preview) && Resumable(p.store, tour, w.now).Some? then 0 else 1)
  {
    var idle := if p.tour.Some? then Teardown(p) else p;
    var q := idle.(tour := Some(tour), preview := Previews(p, preview));
    match if q.preview then None else Resumable(p.store, tour, w.now)
    case Some(saved) => ShowNeverStarts(w, q.(startedAt := saved.startedAt), saved.stepIndex, tour.id);
    case None =>
      Logged(q.log, Emitted(tour.id, Started), tour.id);
      ShowNeverStarts(w, Emit(q.(startedAt := w.now), Started), 0, tour.id);
    hide Show;
    hide Starts;
  }

  /** Neither storage nor the player has anything of tour `id`. */
  predicate Foreign(p: Player, id: string) { !Holds(p.store, id) && (p.tour.Some? ==> p.tour.value.id != id) }

  lemma {:induction false} ShowForeign(w: World, p: Player, i: nat, id: string)
    requires p.tour.Some? && Foreign(p, id)
    ensures Foreign(Show(w, p, i), id)
    decreases |p.tour.value.steps| - i
  {
    if i < |p.tour.value.steps| { ShowForeign(w, Emit(Turned(w, p, i, false), StepError(i, InIframe)), i + 1, id); }
  }

  lemma HandlerForeign(w: World, p: Player, h: Handler, id: string)
    requires Foreign(p, id) && (h.DoStart? ==> h.tour.id != id)
    ensures Foreign(Handle(w, p, h), id)
  {
    hide Show;
    forall q: Player, i: nat | q.tour.Some? && Foreign(q, id) ensures Foreign(Show(w, q, i), id) { ShowForeign(w, q, i, id); }
    match h
    case DoStart(tour, preview) => StartForeign(w, p, tour, preview, id);
    case DoContinue(k, outcome) =>
    case DoPerform(ok) =>
    case _ =>
  }

  lemma StartForeign(w: World, p: Player, tour: Tour, preview: Option<bool>, id: string)
    requires Foreign(p, id) && tour.id != id
    ensures Foreign(Start(w, p, tour, preview), id)
  {
    hide Show;
    var idle := if p.tour.Some? then Teardown(p) else p;
    if tour.steps != [] {
      var q := idle.(tour := Some(tour), preview := Previews(p, preview));
      match if q.preview then None else Resumable(p.store, tour, w.now)
      case Some(saved) => ShowForeign(w, q.(startedAt := saved.startedAt), saved.stepIndex, id);
      case None => ShowForeign(w, Emit(q.(startedAt := w.now), Started), 0, id);
    }
  }

  lemma {:induction false} RunForeign(p: Player, history: seq<Moment>, id: string)
    requires Foreign(p, id)
    requires forall k :: 0 <= k < |history| && history[k].h.DoStart? ==> history[k].h.tour.id != id
    ensures Foreign(Run(p, history), id)
    decreases |history|
  {
    hide Handle;
    hide Foreign;
    if history != [] {
      var last := history[|history| - 1];
      RunForeign(p, history[..|history| - 1], id);
      HandlerForeign(last.w, Run(p, history[..|history| - 1]), last.h, id);
    }
  }

  /** A finished tour never resurrects: however many reloads, other tours and previews follow, starting it again finds
      nothing to resume and reports `started` once more. */
  lemma FinishedNeverResurrects(p: Player, r: Report, history: seq<Moment>, w: World, tour: Tour, preview: Option<bool>)
    requires p.tour == Some(tour) && tour.steps != [] && (r.Completed? || r.Dismissed?)
    requires forall k :: 0 <= k < |history| && history[k].h.DoStart? ==> history[k].h.tour.id != tour.id
    ensures var q := Run(Finish(p, r), history);
            Resumable(q.store, tour, w.now).None?
            && Starts(Start(w, q, tour, preview).log, tour.id) == Starts(q.log, tour.id) + 1
  {
    hide Run;
    hide Start;
    hide Starts;
    var done := Finish(p, r);
    RunForeign(done, history, tour.id);
    StartedOnlyAfresh(w, Run(done, history), tour, preview);
  }

  /** After any history, a continuation that is not of the step on screen changes nothing but its own list; the current
      one, unique, is for the step on screen and finds no action or can't-find-it card in its way. */
  lemma StaleContinuationsAreInert(home: Page, history: seq<Moment>, w: World, k: nat, outcome: Outcome)
    requires k < |After(home, history).waits|
    ensures var p := After(home, history);
            var c := p.waits[k];
            var q := Continue(w, p, k, outcome);
            if p.tour.Some? && c.token == p.token
            then c.step == p.index < |p.tour.value.steps| && p.timer.None? && p.card.None? && k == |p.waits| - 1
            else q == p.(waits := Without(p.waits, k))
  {
    LedgerBalances(home, history, "");
    var p := After(home, history);
    hide After;
    assert k + 1 < |p.waits| ==> p.waits[k].token < p.waits[k + 1].token;
    hide Show;
  }

  // ------------------------------------------------------------------ pages

  /** Showing steps only ever adds to the log. */
  lemma {:induction false} ShowAdds(w: World, p: Player, i: nat)
    requires p.tour.Some?
    ensures p.log <= Show(w, p, i).log
    decreases |p.tour.value.steps| - i
  {
    if i < |p.tour.value.steps| { ShowAdds(w, Emit(Turned(w, p, i, false), StepError(i, InIframe)), i + 1); }
  }

  /** Step i has been taken up on this page: what was reported since `before`, and where the player stands. */
  predicate TakenUpAt(w: World, tour: Tour, i: nat, before: seq<Entry>, p: Player) {
    var found := w.probe(i);
    if found.Absent? && found.reason.InIframe? then before + [Emitted(tour.id, StepError(i, InIframe))] <= p.log
    else
      && p.tour == Some(tour) && p.index == i
      && (found.Found? ==> p.log == before + [Emitted(tour.id, StepViewed(i, found.healed))])
      && (found.Absent? && w.patient ==> p.log == before && p.waits == [Waiting(true, i, p.token)])
      && (found.Absent? && !w.patient ==> p.log == before + [Emitted(tour.id, StepBlocked(i, NotFound))])
  }

  /** A step whose page is elsewhere is left for once: when the page arrived at is its own, the reload resumes at that very
      step without a second `started`, and shows it, waits for it, blocks it or reports it out of reach there: nothing
      comes before that, in particular no second navigation for it. */
  lemma CrossPageStepNavigatesOnce(w: World, p: Player, i: nat, w': World, arrived: Page)
    requires Sound(p) && p.tour.Some? && i < |p.tour.value.steps|
    requires var step := p.tour.value.steps[i];
             !step.kind.Wait? && step.anchored && w.probe(i).Absent? && LeavesFor(w, p, step)
             && !IsDifferentPage(w', step.url, arrived)
    requires w'.now - w.now <= PROGRESS_TTL
    ensures var tour := p.tour.value;
            var left := Show(w, p, i);
            var back := Start(w', Reload(left, arrived, false), tour, None);
            && left.log == p.log + [Assigned(tour.steps[i].url)]
            && left.store == Some(Progress(tour.id, i, p.startedAt, w.now, true))
            && TakenUpAt(w', tour, i, left.log, back)
  {
    var tour := p.tour.value;
    var left := Show(w, p, i);
    var q := Reload(left, arrived, false).(tour := Some(tour), startedAt := p.startedAt);
    assert Resumable(left.store, tour, w'.now) == left.store;
    assert Start(w', Reload(left, arrived, false), tour, None) == Show(w', q, i);
    ShowAdds(w', Emit(Turned(w', q, i, false), StepError(i, InIframe)), i + 1);
  }

  // ------------------------------------------------------------------ where the books do not balance

  /** A concrete visit that forgets: a tour is begun, then another is played as a preview to its end, the way the assistant's
      walkthroughs are played to visitors. The first tour is then started twice and has ended never. */
  lemma PreviewForgetsTheVisitor(w: World, home: Page)
    ensures var plain := Step(Plain, false, "", None);
            var a := Tour("a", [plain, plain], false);
            var b := Tour("b", [plain], false);
            var visit := [Moment(w, DoStart(a, None)), Moment(w, DoReload(home, false))];
            var previewed := [Moment(w, DoStart(b, Some(true))), Moment(w, DoNext), Moment(w, DoReload(home, false))];
            var p := After(home, visit + previewed + [Moment(w, DoStart(a, None))]);
            Starts(p.log, "a") == 2 && Ends(p.log, "a") == 0
  {
    var plain := Step(Plain, false, "", None);
    var a := Tour("a", [plain, plain], false);
    var b := Tour("b", [plain], false);
    var p0 := Fresh(home, false, None, []);
    var visit := [Moment(w, DoStart(a, None)), Moment(w, DoReload(home, false))];
    var previewed := [Moment(w, DoStart(b, Some(true))), Moment(w, DoNext), Moment(w, DoReload(home, false))];
    var again := Moment(w, DoStart(a, None));
    hide Run;
    hide Handle;
    hide Starts;
    hide Ends;
    RunSnoc(p0, visit + previewed, again);
    RunThree(p0, visit, previewed);
    RunTwo(p0, visit);
    assert visit + previewed + [again] == (visit + previewed) + [again];
    PreviewTrace(w, home);
    PreviewCounts(Handle(w, Run(p0, visit + previewed), again.h).log);
  }

  lemma RunTwo(p: Player, ms: seq<Moment>)
    requires |ms| == 2
    ensures Run(p, ms) == Handle(ms[1].w, Handle(ms[0].w, p, ms[0].h), ms[1].h)
  {
    hide Handle;
    RunSnoc(p, [], ms[0]);
    RunSnoc(p, [ms[0]], ms[1]);
    assert [] + [ms[0]] == [ms[0]] && [ms[0]] + [ms[1]] == ms;
  }

  lemma RunThree(p: Player, before: seq<Moment>, ms: seq<Moment>)
    requires |ms| == 3
    ensures Run(p, before + ms) ==
            Handle(ms[2].w, Handle(ms[1].w, Handle(ms[0].w, Run(p, before), ms[0].h), ms[1].h), ms[2].h)
  {
    hide Handle;
    hide Run;
    RunSnoc(p, before, ms[0]);
    RunSnoc(p, before + [ms[0]], ms[1]);
    RunSnoc(p, before + [ms[0]] + [ms[1]], ms[2]);
    assert before + [ms[0]] + [ms[1]] + [ms[2]] == before + ms;
  }

  function PreviewLog(): seq<Entry> {
    [Emitted("a", Started), Emitted("a", StepViewed(0, false)), Emitted("b", Started), Emitted("b", StepViewed(0, false)),
     Emitted("b", Completed), Emitted("a", Started), Emitted("a", StepViewed(0, false))]
  }

  lemma PreviewTrace(w: World, home: Page)
    ensures var plain := Step(Plain, false, "", None);
            var a := Tour("a", [plain, plain], false);
            var b := Tour("b", [plain], false);
            var visited := Handle(w, Handle(w, Fresh(home, false, None, []), DoStart(a, None)), DoReload(home, false));
            var previewed := Handle(w, Handle(w, Handle(w, visited, DoStart(b, Some(true))), DoNext), DoReload(home, false));
            Handle(w, previewed, DoStart(a, None)).log == PreviewLog()
  {
    var plain := Step(Plain, false, "", None);
    var a := Tour("a", [plain, plain], false);
    var b := Tour("b", [plain], false);
    var p1 := Handle(w, Fresh(home, false, None, []), DoStart(a, None));
    assert p1.log == PreviewLog()[..2];
    var p2 := Handle(w, p1, DoReload(home, false));
    var p3 := Handle(w, p2, DoStart(b, Some(true)));
    assert p3.tour == Some(b) && p3.preview && p3.index == 0 && p3.log == PreviewLog()[..4];
    var p4 := Handle(w, p3, DoNext);
    assert p4.store.None? && p4.log == PreviewLog()[..5];
    var p5 := Handle(w, p4, DoReload(home, false));
    assert Handle(w, p5, DoStart(a, None)).log == PreviewLog()[..7];
  }

  lemma PreviewCounts(log: seq<Entry>)
    requires log == PreviewLog()
    ensures Starts(log, "a") == 2 && Ends(log, "a") == 0
  {
    hide Starts;
    hide Ends;
    var l1 := [] + [Emitted("a", Started)];
    var l2 := l1 + [Emitted("a", StepViewed(0, false))];
    var l3 := l2 + [Emitted("b", Started)];
    var l4 := l3 + [Emitted("b", StepViewed(0, false))];
    var l5 := l4 + [Emitted("b", Completed)];
    var l6 := l5 + [Emitted("a", Started)];
    NothingLogged("a");
    Logged([], Emitted("a", Started), "a");
    Logged(l1, Emitted("a", StepViewed(0, false)), "a");
    Logged(l2, Emitted("b", Started), "a");
    Logged(l3, Emitted("b", StepViewed(0, false)), "a");
    Logged(l4, Emitted("b", Completed), "a");
    Logged(l5, Emitted("a", Started), "a");
    Logged(l6, Emitted("a", StepViewed(0, false)), "a");
    hide Open;
    hide InSessions;
    assert l6 + [Emitted("a", StepViewed(0, false))] == log;
  }

  lemma NothingLogged(id: string)
    ensures Starts([], id) == 0 && Ends([], id) == 0
  {
  }

  lemma RunSnoc(p: Player, history: seq<Moment>, m: Moment)
    ensures Run(p, history + [m]) == Handle(m.w, Run(p, history), m.h)
  {
    assert (history + [m])[..|history|] == history;
    hide Handle;
  }
}
