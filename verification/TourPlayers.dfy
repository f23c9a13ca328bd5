/** The tour player as the widget writes it: fields updated in place by each browser handler, and storage that outlives it.
    Every method is proved against the function of `Tours` that specifies it. */
module TourPlayers {
  import opened Wrappers
  import opened Tours
  import opened TourTheorems

  class TourPlayer {
    var tour: Option<Tour>
    var index: nat
    var startedAt: int
    var runToken: nat
    var preview: bool
    var timer: Option<Timer>        // the step's cleanup that cancels a driven action
    var waits: seq<Waiting>
    var card: Option<nat>

    // the window
    var href: Page
    var storage: Option<Progress>
    var reported: seq<Entry>

    function Value(): Player reads this {
      Player(tour, index, startedAt, runToken, preview, timer, waits, card, href, storage, reported)
    }

    /** A page load: nothing survives but storage and what was reported. */
    constructor (href: Page, preview: bool, storage: Option<Progress>, reported: seq<Entry>)
      ensures Value() == Fresh(href, preview, storage, reported)
    {
      this.href, this.preview, this.storage, this.reported := href, preview, storage, reported;
      tour, index, startedAt, runToken, timer, waits, card := None, 0, 0, 0, None, [], None;
    }

    // ---------------------------------------------------------------- plumbing

    method Report(r: Tours.Report)
      requires tour.Some?
      modifies this`reported
      ensures Value() == Emit(old(Value()), r)
    {
      reported := reported + [Emitted(tour.value.id, r)];
    }

    method Save(w: World, i: nat, navigating: bool)
      requires tour.Some?
      modifies this`storage
      ensures Value() == Persist(w, old(Value()), i, navigating)
    {
      if preview { return; }
      storage := Some(Progress(tour.value.id, i, startedAt, w.now, navigating));
    }

    method Assign(url: string)
      modifies this`reported
      ensures Value() == Leave(old(Value()), url)
    {
      reported := reported + [Assigned(url)];
    }

    method TearDown()
      modifies this
      ensures Value() == Teardown(old(Value()))
    {
      runToken := runToken + 1;
      timer := None;
      tour := None;
      index := 0;
      card := None;
    }

    method FinishWith(r: Tours.Report)
      requires tour.Some?
      modifies this
      ensures Value() == Finish(old(Value()), r)
    {
      Report(r);
      storage := None;
      TearDown();
    }

    // ---------------------------------------------------------------- showing a step

    method ShowStep(w: World, i: nat)
      requires tour.Some?
      modifies this
      ensures Value() == Show(w, old(Value()), i)
      decreases |tour.value.steps| - i, 1
    {
      hide Persist;
      hide Suspend;
      hide Block;
      hide IsDifferentPage;
      if i >= |tour.value.steps| {
        FinishWith(Completed);
        return;
      }
      var step := tour.value.steps[i];
      runToken := runToken + 1;
      timer := None;
      index := i;
      if step.kind.Wait? {
        Save(w, i, false);
        Report(StepViewed(i, false));
        SuspendFor(false, i);
        return;
      }
      if !step.anchored {
        Save(w, i, false);
        PresentStep(i, false);
        return;
      }
      var immediate := w.probe(i);
      if immediate.Found? {
        Save(w, i, false);
        PresentStep(i, immediate.healed);
        return;
      }
      var left := NavigateToStep(w, step, i);
      if left { return; }
      Save(w, i, false);
      if immediate.reason.InIframe? {
        Report(StepError(i, InIframe));
        ShowStep(w, i + 1);
        return;
      }
      if !w.patient {
        BlockStep(i, NotFound);
        return;
      }
      SuspendFor(true, i);
    }

    method NavigateToStep(w: World, step: Step, i: nat) returns (left: bool)
      requires tour.Some?
      modifies this`storage, this`reported
      ensures left == LeavesFor(w, old(Value()), step)
      ensures Value() == if left then Leave(Persist(w, old(Value()), i, true), step.url) else old(Value())
    {
      if step.url == "" || preview { return false; }
      if !IsDifferentPage(w, step.url, href) { return false; }
      Save(w, i, true);
      Assign(step.url);
      return true;
    }

    method SuspendFor(seeking: bool, i: nat)
      modifies this`waits, this`card
      ensures Value() == Suspend(old(Value()), seeking, i)
    {
      card := None;
      waits := waits + [Waiting(seeking, i, runToken)];
    }

    method PresentStep(i: nat, healed: bool)
      requires tour.Some?
      modifies this`reported, this`card, this`timer
      ensures Value() == Present(old(Value()), i, healed)
    {
      card := None;
      Report(StepViewed(i, healed));
      if Drives(tour.value, i) {
        timer := Some(Timer(tour.value.steps[i].action.value, i, runToken));
      }
    }

    method BlockStep(i: nat, reason: Reason)
      requires tour.Some?
      modifies this`reported, this`card
      ensures Value() == Block(old(Value()), i, reason)
    {
      Report(StepBlocked(i, reason));
      card := Some(i);
    }

    // ---------------------------------------------------------------- the visitor

    method StartTour(w: World, newTour: Tour, asPreview: Option<bool>)
      modifies this
      ensures Value() == Start(w, old(Value()), newTour, asPreview)
    {
      hide Show;
      if tour.Some? { TearDown(); }
      if newTour.steps == [] { return; }
      tour := Some(newTour);
      if asPreview.Some? { preview := asPreview.value; }
      var saved := if preview then None else Resumable(storage, newTour, w.now);
      startedAt := if saved.Some? then saved.value.startedAt else w.now;
      if saved.None? { Report(Started); }
      ShowStep(w, if saved.Some? then saved.value.stepIndex else 0);
    }

    method NextStep(w: World)
      modifies this
      ensures Value() == Next(w, old(Value()))
    {
      hide Show;
      if tour.None? { return; }
      if index < |tour.value.steps| && index == |tour.value.steps| - 1 {
        var step := tour.value.steps[index];
        var navigate := step.url != "" && !preview && IsDifferentPage(w, step.url, href);
        FinishWith(Completed);
        if navigate { Assign(step.url); }
        return;
      }
      ShowStep(w, index + 1);
    }

    method BackStep(w: World)
      modifies this
      ensures Value() == Back(w, old(Value()))
    {
      hide Show;
      if tour.None? { return; }
      if index > 0 { ShowStep(w, index - 1); }
    }

    method DismissTour(neverAgain: bool)
      modifies this
      ensures Value() == Dismiss(old(Value()), neverAgain)
    {
      if tour.Some? { FinishWith(Dismissed(index, neverAgain)); }
    }

    method SkipBlocked(w: World)
      modifies this
      ensures Value() == Skip(w, old(Value()))
    {
      hide Show;
      if tour.Some? && card.Some? { ShowStep(w, card.value + 1); }
    }

    // ---------------------------------------------------------------- continuations

    method ResumeWait(w: World, k: nat, outcome: Outcome)
      modifies this
      ensures Value() == Continue(w, old(Value()), k, outcome)
    {
      hide Show;
      if k >= |waits| { return; }
      var c := waits[k];
      waits := waits[..k] + waits[k + 1..];
      if c.token != runToken || tour.None? { return; }
      if c.seeking {
        match outcome
        case Arrived(healed) => PresentStep(c.step, healed);
        case Missed(reason) =>
          if reason.InIframe? {
            Report(StepError(c.step, InIframe));
            ShowStep(w, c.step + 1);
          } else {
            BlockStep(c.step, reason);
          }
      } else {
        if outcome.Missed? {
          Report(StepError(c.step, if outcome.reason.InIframe? then InIframe else TimedOut));
        }
        ShowStep(w, c.step + 1);
      }
    }

    method RunDrivenAction(w: World, found: bool)
      modifies this
      ensures Value() == Perform(w, old(Value()), found)
    {
      hide Show;
      if timer.None? { return; }
      var t := timer.value;
      timer := None;
      if t.token != runToken || tour.None? { return; }
      var ok := found;
      match t.action {
        case Navigate(url) =>
          Save(w, t.step + 1, true);
          ok := url != "";
          if ok { Assign(url); }
        case _ =>
      }
      if !ok { Report(StepError(t.step, ActionFailed)); }
      ShowStep(w, t.step + 1);
    }

    /** Any handler of the page, as one step of the machine. */
    method React(w: World, h: Handler)
      requires !h.DoReload?
      modifies this
      ensures Value() == Handle(w, old(Value()), h)
    {
      hide Show;
      hide Start;
      hide Next;
      hide Back;
      hide Continue;
      hide Perform;
      match h
      case DoStart(newTour, asPreview) => StartTour(w, newTour, asPreview);
      case DoNext => NextStep(w);
      case DoBack => BackStep(w);
      case DoDismiss(neverAgain) => DismissTour(neverAgain);
      case DoStop => TearDown();
      case DoSkip => SkipBlocked(w);
      case DoContinue(k, outcome) => ResumeWait(w, k, outcome);
      case DoPerform(ok) => RunDrivenAction(w, ok);
      case DoRoam(page) => href := page;
    }

    /** A whole history of page loads and handlers, one player to a page. It reaches exactly the states the theorems speak of;
        in particular a visitor's books balance for every tour, but for the sessions lost on the way. */
    static method Visit(home: Page, history: seq<Moment>) returns (player: TourPlayer)
      ensures fresh(player) && player.Value() == After(home, history)
      ensures Sound(player.Value()) && forall id :: Balanced(player.Value(), id, Lost(home, history, id))
    {
      hide Handle;
      hide Fresh;
      hide Sound;
      hide Balanced;
      player := new TourPlayer(home, false, None, []);
      for k := 0 to |history|
        invariant fresh(player) && player.Value() == After(home, history[..k])
      {
        assert history[..k + 1][..k] == history[..k];
        var h := history[k].h;
        if h.DoReload? {
          ReloadIsFresh(history[k].w, player.Value(), h);
          player := new TourPlayer(h.page, h.asPreview, player.storage, player.reported);
        } else {
          player.React(history[k].w, h);
        }
      }
      assert history[..|history|] == history;
      forall id ensures Sound(player.Value()) && Balanced(player.Value(), id, Lost(home, history, id)) {
        LedgerBalances(home, history, id);
      }
      LedgerBalances(home, history, "");
    }
  }

  lemma ReloadIsFresh(w: World, p: Player, h: Handler)
    requires h.DoReload?
    ensures Handle(w, p, h) == Fresh(h.page, h.asPreview, p.store, p.log)
  {
  }
}
