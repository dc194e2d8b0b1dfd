/**
 * The presentation composable's module-level refs and timer handles as the
 * fields of one object, with a method per action. Each method updates the
 * fields step by step as the source does and is proved to leave exactly the
 * state the matching function of `Presentation` describes, so the lemmas
 * proved there hold of the controller.
 *
 * The Vue watch on the live cursor is the explicit method `LiveChanged`,
 * which the environment calls after the live cursor changes; the three
 * `setTimeout`s are the fields `advance`, `reloads` and `projector`, fired by
 * `FireAutoAdvance`, `FireReload` and `FireProjector`.
 */
module PresentationController {
  import opened Wrappers
  import opened Presentation

  class Controller {
    var stacks: seq<Stack>
    var stagedStack: int
    var stagedSlide: int
    var liveStack: Option<int>
    var liveSlide: Option<int>
    var advance: Option<Timer>
    var reloads: nat
    var projector: Option<Frame>
    var libraryRoot: Option<string>
    var textScale: int

    /** The whole state as a value. */
    function Deck(): Deck
      reads this
    {
      Presentation.Deck(stacks, stagedStack, stagedSlide, liveStack, liveSlide, advance, reloads, projector, libraryRoot, textScale)
    }

    constructor ()
      ensures Deck() == Initial()
    {
      stacks := [];
      stagedStack, stagedSlide := 0, 0;
      liveStack, liveSlide := None, None;
      advance := None;
      reloads := 0;
      projector := None;
      libraryRoot := None;
      textScale := 100;
    }

    // ----- staging -----

    method NextSlide()
      modifies this
      ensures Deck() == Presentation.NextSlide(old(Deck()))
    {
      if CanGoNextSlide(Deck()) {
        stagedSlide := stagedSlide + 1;
      }
    }

    method PrevSlide()
      modifies this
      ensures Deck() == Presentation.PrevSlide(old(Deck()))
    {
      if CanGoPrevSlide(Deck()) {
        stagedSlide := stagedSlide - 1;
      }
    }

    method NextStack()
      modifies this
      ensures Deck() == Presentation.NextStack(old(Deck()))
    {
      if CanGoNextStack(Deck()) {
        stagedStack := stagedStack + 1;
        stagedSlide := 0;
      }
    }

    method PrevStack()
      modifies this
      ensures Deck() == Presentation.PrevStack(old(Deck()))
    {
      if CanGoPrevStack(Deck()) {
        stagedStack := stagedStack - 1;
        stagedSlide := 0;
      }
    }

    method StageStack(i: int)
      modifies this
      ensures Deck() == Presentation.StageStack(old(Deck()), i)
    {
      if 0 <= i < |stacks| {
        stagedStack := i;
        stagedSlide := 0;
      }
    }

    method StageSlideInStack(i: int, j: int)
      modifies this
      ensures Deck() == Presentation.StageSlideInStack(old(Deck()), i, j)
    {
      if 0 <= i < |stacks| {
        var stack := stacks[i];
        if 0 <= j < |stack.slides| {
          stagedStack := i;
          stagedSlide := j;
        }
      }
    }

    method GoLive()
      modifies this
      ensures Deck() == Presentation.GoLive(old(Deck()))
    {
      liveStack := Some(stagedStack);
      liveSlide := Some(stagedSlide);
    }

    method ClearProjection()
      modifies this
      ensures Deck() == Presentation.ClearProjection(old(Deck()))
    {
      if advance.Some? {
        advance := None;
      }
      liveStack := None;
      liveSlide := None;
    }

    // ----- stack and slide management -----

    /** addStack: returns the new stack's id, which the source takes from the clock. */
    method AddStack(id: string, title: string) returns (newId: string)
      modifies this
      ensures Deck() == Presentation.AddStack(old(Deck()), id, title)
      ensures newId == id && stacks[|stacks| - 1].id == id
    {
      var newStack := Stack(id, title, DefaultAutoAdvance(), []);
      stacks := stacks + [newStack];
      return newStack.id;
    }

    method RemoveStack(i: int)
      modifies this
      ensures Deck() == Presentation.RemoveStack(old(Deck()), i)
    {
      if |stacks| > 1 && 0 <= i < |stacks| {
        stacks := stacks[..i] + stacks[i + 1..];
        if stagedStack >= |stacks| {
          stagedStack := |stacks| - 1;
          stagedSlide := 0;
        }
        if liveStack == Some(i) {
          ClearProjection();
        } else if liveStack.Some? && liveStack.value > i {
          liveStack := Some(liveStack.value - 1);
        }
      }
    }

    method UpdateStackSettings(i: int, settings: AutoAdvance)
      modifies this
      ensures Deck() == Presentation.UpdateStackSettings(old(Deck()), i, settings)
    {
      if 0 <= i < |stacks| {
        stacks := stacks[i := stacks[i].(autoAdvance := settings)];
      }
    }

    method AddSlideToStack(i: int, slide: Slide)
      modifies this
      ensures Deck() == Presentation.AddSlideToStack(old(Deck()), i, slide)
    {
      if 0 <= i < |stacks| {
        stacks := stacks[i := stacks[i].(slides := stacks[i].slides + [slide])];
      }
    }

    method RemoveSlideFromStack(i: int, j: int)
      modifies this
      ensures Deck() == Presentation.RemoveSlideFromStack(old(Deck()), i, j)
    {
      var stack := At(stacks, i);
      if stack.Some? && 0 <= j < |stack.value.slides| {
        var slides := stack.value.slides[..j] + stack.value.slides[j + 1..];
        stacks := stacks[i := stack.value.(slides := slides)];
        if stagedStack == i {
          if |slides| == 0 {
            stagedSlide := 0;
          } else if stagedSlide >= |slides| {
            stagedSlide := |slides| - 1;
          }
        }
        if liveStack == Some(i) && liveSlide == Some(j) {
          ClearProjection();
        }
      }
    }

    /** loadPresentation, given the parsed document's `stacks` array (None when there is none or the JSON is malformed). */
    method LoadPresentation(document: Option<seq<Stack>>)
      modifies this
      ensures Deck() == Load(old(Deck()), document)
    {
      if document.Some? {
        stacks := document.value;
        stagedStack := 0;
        stagedSlide := 0;
        ClearProjection();
      }
    }

    method SetLibraryRoot(path: Option<string>)
      modifies this
      ensures Deck() == old(Deck()).(libraryRoot := path)
    {
      libraryRoot := path;
    }

    // ----- auto-advance -----

    method HandleAutoAdvance(stackIndex: Option<int>, slideIndex: int)
      modifies this
      ensures Deck() == Presentation.HandleAutoAdvance(old(Deck()), stackIndex, slideIndex)
    {
      if advance.Some? {
        advance := None;
      }
      var stack := if stackIndex.Some? then At(stacks, stackIndex.value) else None;
      if stack.None? || !stack.value.autoAdvance.enabled {
        return;
      }
      var currentSlide := SlideAt(stack, slideIndex);
      if currentSlide.None? {
        return;
      }
      var settings := stack.value.autoAdvance;
      if IsVideo(currentSlide.value) {
        if settings.videoAdvance == "timer" {
          advance := Some(Timer(settings.delay, settings.repeat));
        }
      } else {
        advance := Some(Timer(settings.delay, settings.repeat));
      }
    }

    method GoNextSlideInLiveStack(repeat: bool)
      modifies this
      ensures Deck() == Presentation.GoNextSlideInLiveStack(old(Deck()), repeat)
    {
      if liveStack.None? || liveSlide.None? {
        return;
      }
      var stack := At(stacks, liveStack.value);
      if stack.None? {
        return;
      }
      if liveSlide.value < |stack.value.slides| - 1 {
        liveSlide := Some(liveSlide.value + 1);
        HandleAutoAdvance(liveStack, liveSlide.value);
      } else if repeat {
        if liveSlide.value == 0 {
          liveSlide := None;
          reloads := reloads + 1;
        } else {
          liveSlide := Some(0);
          HandleAutoAdvance(liveStack, 0);
        }
      } else {
        if advance.Some? {
          advance := None;
        }
      }
    }

    method OnVideoComplete()
      modifies this
      ensures Deck() == Presentation.OnVideoComplete(old(Deck()))
    {
      if liveStack.None? || liveSlide.None? {
        return;
      }
      var stack := At(stacks, liveStack.value);
      if stack.None? || !stack.value.autoAdvance.enabled {
        return;
      }
      var currentSlide := SlideAt(stack, liveSlide.value);
      if currentSlide.None? {
        return;
      }
      var shouldAdvance := IsVideo(currentSlide.value) && stack.value.autoAdvance.videoAdvance == "video-end";
      if shouldAdvance {
        GoNextSlideInLiveStack(stack.value.autoAdvance.repeat);
      }
    }

    /** The auto-advance timer goes off. */
    method FireAutoAdvance()
      requires advance.Some?
      modifies this
      ensures Deck() == Presentation.FireAutoAdvance(old(Deck()))
    {
      var repeat := advance.value.repeat;
      advance := None;
      GoNextSlideInLiveStack(repeat);
    }

    /** A 50 ms single-slide reload goes off. */
    method FireReload()
      requires reloads > 0
      modifies this
      ensures Deck() == Presentation.FireReload(old(Deck()))
    {
      reloads := reloads - 1;
      liveSlide := Some(0);
      HandleAutoAdvance(liveStack, 0);
    }

    // ----- outputs -----

    /** updateProjector: a new frame replaces the pending one. */
    method UpdateProjector(frame: Frame)
      modifies this
      ensures Deck() == Presentation.UpdateProjector(old(Deck()), frame)
    {
      projector := Some(frame);
    }

    /** The live-cursor watch. */
    method LiveChanged()
      modifies this
      ensures Deck() == Presentation.LiveChanged(old(Deck()))
    {
      var stack := if liveStack.Some? then At(stacks, liveStack.value) else None;
      var slide := if liveSlide.Some? then SlideAt(stack, liveSlide.value) else None;
      var transition := if stack.Some? && stack.value.autoAdvance.transition != [] then stack.value.autoAdvance.transition else "none";
      UpdateProjector(Frame(slide, transition));
      if slide.Some? && liveStack.Some? {
        HandleAutoAdvance(liveStack, liveSlide.value);
      }
    }

    /** The debounce timer goes off: the pending frame is sent with the current library root and text scale. */
    method FireProjector() returns (sent: ProjectorData)
      requires projector.Some?
      modifies this
      ensures (Deck(), sent) == Presentation.FireProjector(old(Deck()))
    {
      sent := ProjectorData(projector.value.slide, projector.value.transition, libraryRoot, textScale);
      projector := None;
    }

    /** broadcastStateToRemote: reads the state and changes nothing. */
    method BroadcastState() returns (state: RemoteState)
      ensures state == Summary(Deck())
    {
      var staged := At(stacks, stagedStack);
      var live := if liveStack.Some? then At(stacks, liveStack.value) else None;
      state := RemoteState(
        StackSummaries(stacks),
        Cursor(Some(stagedStack), Some(stagedSlide), TitleOf(staged), SlideTitleOf(SlideAt(staged, stagedSlide))),
        Cursor(liveStack, liveSlide, TitleOf(live),
               if liveSlide.Some? then SlideTitleOf(SlideAt(live, liveSlide.value)) else None));
    }

    method HandleRemoteCommand(c: Command)
      modifies this
      ensures Deck() == Presentation.HandleRemoteCommand(old(Deck()), c)
    {
      if c.event == "remote-stage-next" {
        NextSlide();
      } else if c.event == "remote-stage-prev" {
        PrevSlide();
      } else if c.event == "remote-go-live" {
        GoLive();
      } else if c.event == "remote-clear" {
        ClearProjection();
      } else if c.event == "remote-stage-slide" {
        if c.stackIndex.Some? && c.slideIndex.Some? {
          StageSlideInStack(c.stackIndex.value, c.slideIndex.value);
        }
      } else if c.event == "remote-next-stack" {
        NextStack();
      } else if c.event == "remote-prev-stack" {
        PrevStack();
      }
    }
  }
}
