/**
 * The presentation controller's state as a value: an ordered list of stacks
 * of slides, the staged cursor, the live cursor (either part may be null),
 * the pending auto-advance timer, the pending single-slide reloads, the
 * pending (debounced) projector frame, and the library root and text scale
 * sent along with it.
 *
 * Each operation of the controller is a function from the old state to the
 * new one; the `Controller` class proves its methods compute exactly these,
 * and the lemmas here state what the operations promise. A `setTimeout` is a
 * pending field and firing it is an operation of its own.
 */
module Presentation {
  import opened Wrappers

  /** A stack's `autoAdvance` settings. `videoAdvance` is 'video-end' or 'timer'. */
  datatype AutoAdvance = AutoAdvance(enabled: bool, delay: int, videoAdvance: string, repeat: bool, transition: string)

  /** A slide: its `type` and its `title` ("" when it has none). */
  datatype Slide = Slide(kind: string, title: string)

  datatype Stack = Stack(id: string, title: string, autoAdvance: AutoAdvance, slides: seq<Slide>)

  /** A pending auto-advance `setTimeout`: its delay and the `repeat` it was armed with. */
  datatype Timer = Timer(delay: int, repeat: bool)

  /** What the debounced projector update will send: the live slide (null when none) and the transition. */
  datatype Frame = Frame(slide: Option<Slide>, transition: string)

  datatype Deck = Deck(
    stacks: seq<Stack>,
    stagedStack: int,
    stagedSlide: int,
    liveStack: Option<int>,
    liveSlide: Option<int>,
    advance: Option<Timer>,
    reloads: nat,
    projector: Option<Frame>,
    libraryRoot: Option<string>,
    textScale: int)

  function Initial(): Deck {
    Deck([], 0, 0, None, None, None, 0, None, None, 100)
  }

  /** `stacks[i]`, undefined outside the list. */
  function At(stacks: seq<Stack>, i: int): (r: Option<Stack>)
    ensures r.Some? <==> 0 <= i < |stacks|
  {
    if 0 <= i < |stacks| then Some(stacks[i]) else None
  }

  /** `stack?.slides[j]`. */
  function SlideAt(stack: Option<Stack>, j: int): (r: Option<Slide>)
    ensures r.Some? <==> stack.Some? && 0 <= j < |stack.value.slides|
  {
    if stack.Some? && 0 <= j < |stack.value.slides| then Some(stack.value.slides[j]) else None
  }

  // ----- staged cursor -----

  /**
   * The staged cursor points at a slide of a stack, or at slide 0 of an empty
   * stack, or at (0, 0) when there are no stacks.
   */
  predicate StagedInRange(d: Deck) {
    0 <= d.stagedStack && 0 <= d.stagedSlide
    && (if d.stacks == [] then d.stagedStack == 0 && d.stagedSlide == 0
        else d.stagedStack < |d.stacks|
             && (d.stagedSlide < |d.stacks[d.stagedStack].slides| || d.stagedSlide == 0))
  }

  predicate CanGoPrevSlide(d: Deck) {
    d.stagedSlide > 0
  }

  predicate CanGoNextSlide(d: Deck) {
    var stack := At(d.stacks, d.stagedStack);
    stack.Some? && d.stagedSlide < |stack.value.slides| - 1
  }

  predicate CanGoPrevStack(d: Deck) {
    d.stagedStack > 0
  }

  predicate CanGoNextStack(d: Deck) {
    d.stagedStack < |d.stacks| - 1
  }

  function NextSlide(d: Deck): Deck {
    if CanGoNextSlide(d) then d.(stagedSlide := d.stagedSlide + 1) else d
  }

  function PrevSlide(d: Deck): Deck {
    if CanGoPrevSlide(d) then d.(stagedSlide := d.stagedSlide - 1) else d
  }

  function NextStack(d: Deck): Deck {
    if CanGoNextStack(d) then d.(stagedStack := d.stagedStack + 1, stagedSlide := 0) else d
  }

  function PrevStack(d: Deck): Deck {
    if CanGoPrevStack(d) then d.(stagedStack := d.stagedStack - 1, stagedSlide := 0) else d
  }

  function StageStack(d: Deck, i: int): Deck {
    if 0 <= i < |d.stacks| then d.(stagedStack := i, stagedSlide := 0) else d
  }

  function StageSlideInStack(d: Deck, i: int, j: int): Deck {
    if 0 <= i < |d.stacks| && 0 <= j < |d.stacks[i].slides| then d.(stagedStack := i, stagedSlide := j) else d
  }

  /** Only the staged cursor differs. */
  predicate OnlyStagedMoved(d: Deck, r: Deck) {
    r == d.(stagedStack := r.stagedStack, stagedSlide := r.stagedSlide)
  }

  /**
   * Slide navigation moves by one within the staged stack exactly when its
   * guard holds and keeps the cursor in range; nothing but the staged cursor
   * changes.
   */
  lemma SlideNavigation(d: Deck)
    requires StagedInRange(d)
    ensures StagedInRange(NextSlide(d)) && OnlyStagedMoved(d, NextSlide(d))
    ensures StagedInRange(PrevSlide(d)) && OnlyStagedMoved(d, PrevSlide(d))
    ensures NextSlide(d) != d <==> CanGoNextSlide(d)
    ensures PrevSlide(d) != d <==> CanGoPrevSlide(d)
    ensures NextSlide(d).stagedStack == d.stagedStack && PrevSlide(d).stagedStack == d.stagedStack
  {
  }

  /**
   * Stack navigation moves by one stack exactly when its guard holds, lands
   * on slide 0 and keeps the cursor in range; nothing but the staged cursor
   * changes.
   */
  lemma StackNavigation(d: Deck)
    requires StagedInRange(d)
    ensures StagedInRange(NextStack(d)) && OnlyStagedMoved(d, NextStack(d))
    ensures StagedInRange(PrevStack(d)) && OnlyStagedMoved(d, PrevStack(d))
    ensures CanGoNextStack(d) ==> NextStack(d).stagedStack == d.stagedStack + 1 && NextStack(d).stagedSlide == 0
    ensures !CanGoNextStack(d) ==> NextStack(d) == d
    ensures CanGoPrevStack(d) ==> PrevStack(d).stagedStack == d.stagedStack - 1 && PrevStack(d).stagedSlide == 0
    ensures !CanGoPrevStack(d) ==> PrevStack(d) == d
  {
  }

  /** Direct staging lands exactly on a valid target, and is a no-op for an invalid one. */
  lemma DirectStaging(d: Deck, i: int, j: int)
    requires StagedInRange(d)
    ensures StagedInRange(StageStack(d, i)) && OnlyStagedMoved(d, StageStack(d, i))
    ensures StagedInRange(StageSlideInStack(d, i, j)) && OnlyStagedMoved(d, StageSlideInStack(d, i, j))
    ensures 0 <= i < |d.stacks| ==> StageStack(d, i).stagedStack == i && StageStack(d, i).stagedSlide == 0
    ensures !(0 <= i < |d.stacks|) ==> StageStack(d, i) == d
    ensures 0 <= i < |d.stacks| && 0 <= j < |d.stacks[i].slides| ==>
      StageSlideInStack(d, i, j).stagedStack == i && StageSlideInStack(d, i, j).stagedSlide == j
    ensures !(0 <= i < |d.stacks| && 0 <= j < |d.stacks[i].slides|) ==> StageSlideInStack(d, i, j) == d
  {
  }

  // ----- live cursor -----

  /** goLive */
  function GoLive(d: Deck): Deck {
    d.(liveStack := Some(d.stagedStack), liveSlide := Some(d.stagedSlide))
  }

  /** clearProjection: cancels the auto-advance timer and clears the live cursor. */
  function ClearProjection(d: Deck): Deck {
    d.(advance := None, liveStack := None, liveSlide := None)
  }

  /** goLive copies the staged cursor into the live one and touches nothing else. */
  lemma GoLiveCopiesStaged(d: Deck)
    ensures var r := GoLive(d);
      r.liveStack == Some(d.stagedStack) && r.liveSlide == Some(d.stagedSlide)
      && r.(liveStack := d.liveStack, liveSlide := d.liveSlide) == d
  {
  }

  /** clearProjection leaves nothing live and no timer pending, changes nothing else, and a second call does nothing. */
  lemma ClearProjectionOnce(d: Deck)
    ensures var r := ClearProjection(d);
      r.liveStack.None? && r.liveSlide.None? && r.advance.None?
      && r.(liveStack := d.liveStack, liveSlide := d.liveSlide, advance := d.advance) == d
      && ClearProjection(r) == r
  {
  }

  // ----- stack and slide management -----

  function DefaultAutoAdvance(): AutoAdvance {
    AutoAdvance(false, 5000, "video-end", false, "fade")
  }

  /** addStack: appends an empty stack with auto-advance off. */
  function AddStack(d: Deck, id: string, title: string): Deck {
    d.(stacks := d.stacks + [Stack(id, title, DefaultAutoAdvance(), [])])
  }

  /** `list.splice(i, 1)` */
  function Without<T>(s: seq<T>, i: int): (r: seq<T>)
    requires 0 <= i < |s|
    ensures |r| == |s| - 1
    ensures forall k :: 0 <= k < i ==> r[k] == s[k]
    ensures forall k :: i <= k < |r| ==> r[k] == s[k + 1]
  {
    s[..i] + s[i + 1..]
  }

  /**
   * removeStack: refused while only one stack is left or for an index out of
   * range. Otherwise the stack is spliced out, a staged stack index now past
   * the end is clamped to the last stack (at slide 0), and the live cursor is
   * cleared when its stack was removed or moved down when it was above it.
   */
  function RemoveStack(d: Deck, i: int): Deck {
    if |d.stacks| > 1 && 0 <= i < |d.stacks| then
      var d1 := d.(stacks := Without(d.stacks, i));
      var d2 := if d1.stagedStack >= |d1.stacks| then d1.(stagedStack := |d1.stacks| - 1, stagedSlide := 0) else d1;
      if d2.liveStack == Some(i) then ClearProjection(d2)
      else if d2.liveStack.Some? && d2.liveStack.value > i then d2.(liveStack := Some(d2.liveStack.value - 1))
      else d2
    else d
  }

  lemma RemoveStackSpec(d: Deck, i: int)
    ensures !(|d.stacks| > 1 && 0 <= i < |d.stacks|) ==> RemoveStack(d, i) == d
    ensures |d.stacks| > 1 && 0 <= i < |d.stacks| ==>
      var r := RemoveStack(d, i);
      r.stacks == Without(d.stacks, i)
      && (d.stagedStack >= |d.stacks| - 1 ==> r.stagedStack == |d.stacks| - 2 && r.stagedSlide == 0)
      && (d.stagedStack < |d.stacks| - 1 ==> r.stagedStack == d.stagedStack && r.stagedSlide == d.stagedSlide)
      && (d.liveStack == Some(i) ==> r.liveStack.None? && r.liveSlide.None? && r.advance.None?)
      && (d.liveStack.Some? && d.liveStack.value > i ==> r.liveStack == Some(d.liveStack.value - 1) && r.liveSlide == d.liveSlide)
      && (d.liveStack.None? || d.liveStack.value < i ==> r.liveStack == d.liveStack && r.liveSlide == d.liveSlide)
  {
  }

  /**
   * The live cursor keeps pointing at the same stack after removeStack: a
   * live stack index above the removed one names, afterwards, the stack it
   * named before.
   */
  lemma RemoveStackKeepsLiveStack(d: Deck, i: int)
    requires |d.stacks| > 1 && 0 <= i < |d.stacks|
    requires d.liveStack.Some? && d.liveStack.value != i && 0 <= d.liveStack.value < |d.stacks|
    ensures var r := RemoveStack(d, i);
      r.liveStack.Some? && 0 <= r.liveStack.value < |r.stacks| && r.stacks[r.liveStack.value] == d.stacks[d.liveStack.value]
  {
  }

  /**
   * removeStack never shifts the staged stack index: removing a stack below
   * the staged one leaves the cursor on the stack that moved into its place,
   * whose slides need not reach the staged slide index.
   */
  lemma RemoveStackStagedNotShifted(a: Stack, b: Stack, c: Stack)
    requires |b.slides| == 2 && |c.slides| == 1
    ensures var d := Initial().(stacks := [a, b, c], stagedStack := 1, stagedSlide := 1);
      StagedInRange(d) && !StagedInRange(RemoveStack(d, 0))
  {
    var d := Initial().(stacks := [a, b, c], stagedStack := 1, stagedSlide := 1);
    var r := RemoveStack(d, 0);
    assert r.stacks == [b, c];
    assert r.stagedStack == 1 && r.stagedSlide == 1;
  }

  /** updateStackSettings: replaces the stack's auto-advance settings; an index out of range changes nothing. */
  function UpdateStackSettings(d: Deck, i: int, settings: AutoAdvance): Deck {
    if 0 <= i < |d.stacks| then d.(stacks := d.stacks[i := d.stacks[i].(autoAdvance := settings)]) else d
  }

  /** addSlideToStack: appends the slide; an index out of range changes nothing. */
  function AddSlideToStack(d: Deck, i: int, slide: Slide): Deck {
    if 0 <= i < |d.stacks| then d.(stacks := d.stacks[i := d.stacks[i].(slides := d.stacks[i].slides + [slide])]) else d
  }

  /**
   * removeSlideFromStack: splices the slide out; when the staged stack is the
   * one edited, its slide index goes to 0 if the stack is now empty or is
   * clamped to the last slide; the live cursor is cleared only when it was on
   * exactly the removed slide.
   */
  function RemoveSlideFromStack(d: Deck, i: int, j: int): Deck {
    match At(d.stacks, i)
    case None => d
    case Some(stack) =>
      if 0 <= j < |stack.slides| then
        var slides := Without(stack.slides, j);
        var d1 := d.(stacks := d.stacks[i := stack.(slides := slides)]);
        var d2 :=
          if d1.stagedStack == i then
            (if |slides| == 0 then d1.(stagedSlide := 0)
             else if d1.stagedSlide >= |slides| then d1.(stagedSlide := |slides| - 1)
             else d1)
          else d1;
        if d2.liveStack == Some(i) && d2.liveSlide == Some(j) then ClearProjection(d2) else d2
      else d
  }

  lemma RemoveSlideSpec(d: Deck, i: int, j: int)
    ensures !(0 <= i < |d.stacks| && 0 <= j < |d.stacks[i].slides|) ==> RemoveSlideFromStack(d, i, j) == d
    ensures 0 <= i < |d.stacks| && 0 <= j < |d.stacks[i].slides| ==>
      var r := RemoveSlideFromStack(d, i, j);
      var n := |d.stacks[i].slides| - 1;
      |r.stacks| == |d.stacks| && r.stacks[i].slides == Without(d.stacks[i].slides, j)
      && (forall k :: 0 <= k < |d.stacks| && k != i ==> r.stacks[k] == d.stacks[k])
      && r.stagedStack == d.stagedStack
      && (d.stagedStack == i && n == 0 ==> r.stagedSlide == 0)
      && (d.stagedStack == i && n > 0 && d.stagedSlide >= n ==> r.stagedSlide == n - 1)
      && (d.stagedStack != i || (n > 0 && d.stagedSlide < n) ==> r.stagedSlide == d.stagedSlide)
      && (d.liveStack == Some(i) && d.liveSlide == Some(j) <==> r.liveStack.None? && d.liveStack.Some?)
      && (!(d.liveStack == Some(i) && d.liveSlide == Some(j)) ==> r.liveStack == d.liveStack && r.liveSlide == d.liveSlide)
  {
  }

  /**
   * removeSlideFromStack leaves a live slide index above the removed slide
   * where it was, so the live cursor then names the slide that followed.
   */
  lemma RemoveSlideLiveNotShifted(d: Deck, i: int, j: int)
    requires 0 <= i < |d.stacks| && 0 <= j < |d.stacks[i].slides|
    requires d.liveStack == Some(i) && d.liveSlide.Some? && j < d.liveSlide.value < |d.stacks[i].slides|
    ensures var r := RemoveSlideFromStack(d, i, j);
      r.liveSlide == d.liveSlide
      && (d.liveSlide.value < |r.stacks[i].slides| ==> r.stacks[i].slides[d.liveSlide.value] == d.stacks[i].slides[d.liveSlide.value + 1])
      && (d.liveSlide.value == |r.stacks[i].slides| ==> SlideAt(At(r.stacks, i), d.liveSlide.value).None?)
  {
  }

  /** Every management operation except removeStack keeps the staged cursor in range. */
  lemma ManagementKeepsStagedInRange(d: Deck, i: int, j: int, id: string, title: string, settings: AutoAdvance, slide: Slide)
    requires StagedInRange(d)
    ensures StagedInRange(AddStack(d, id, title))
    ensures StagedInRange(UpdateStackSettings(d, i, settings))
    ensures StagedInRange(AddSlideToStack(d, i, slide))
    ensures StagedInRange(RemoveSlideFromStack(d, i, j))
  {
    if d.stacks == [] {
      assert AddStack(d, id, title).stacks[0].slides == [];
    }
    if 0 <= i < |d.stacks| && d.stagedStack == i {
      var r := AddSlideToStack(d, i, slide);
      assert |r.stacks[i].slides| == |d.stacks[i].slides| + 1;
    }
  }

  /**
   * loadPresentation: a document with a `stacks` array replaces the stacks,
   * stages (0, 0) and clears the live cursor; anything else (`None`: not an
   * array, or JSON that does not parse) leaves the state unchanged.
   */
  function Load(d: Deck, document: Option<seq<Stack>>): Deck {
    match document
    case None => d
    case Some(stacks) => ClearProjection(d.(stacks := stacks, stagedStack := 0, stagedSlide := 0))
  }

  lemma LoadSpec(d: Deck, document: Option<seq<Stack>>)
    ensures document.None? ==> Load(d, document) == d
    ensures document.Some? ==>
      var r := Load(d, document);
      r.stacks == document.value && r.stagedStack == 0 && r.stagedSlide == 0
      && r.liveStack.None? && r.liveSlide.None? && r.advance.None? && StagedInRange(r)
  {
  }

  // ----- auto-advance -----

  predicate IsVideo(s: Slide) {
    s.kind == "video" || s.kind == "youtube"
  }

  /**
   * handleAutoAdvance: cancels the pending timer, then arms one when the
   * stack's auto-advance is on and the slide is not a video, or is a video
   * set to advance by timer. A video set to 'video-end' waits for
   * onVideoComplete instead. A missing slide stops after the cancel (the
   * source reads `.type` of undefined there and throws).
   */
  function HandleAutoAdvance(d: Deck, stackIndex: Option<int>, slideIndex: int): Deck {
    var d1 := d.(advance := None);
    var stack := if stackIndex.Some? then At(d.stacks, stackIndex.value) else None;
    if stack.None? || !stack.value.autoAdvance.enabled then d1
    else
      var settings := stack.value.autoAdvance;
      match SlideAt(stack, slideIndex)
      case None => d1
      case Some(slide) =>
        if IsVideo(slide) then
          (if settings.videoAdvance == "timer" then d1.(advance := Some(Timer(settings.delay, settings.repeat))) else d1)
        else d1.(advance := Some(Timer(settings.delay, settings.repeat)))
  }

  /** The policy that decides whether a timer is armed for a slide. */
  predicate Arms(stack: Stack, slide: Slide) {
    stack.autoAdvance.enabled && (!IsVideo(slide) || stack.autoAdvance.videoAdvance == "timer")
  }

  /**
   * At most one timer is ever pending, and what was pending before does not
   * matter: afterwards exactly the stack's timer is pending if the policy
   * arms one for the slide, and none otherwise. Only the timer changes.
   */
  lemma AutoAdvancePolicy(d: Deck, i: int, j: int)
    ensures var r := HandleAutoAdvance(d, Some(i), j);
      r == d.(advance := r.advance)
      && (r.advance.Some? <==> 0 <= i < |d.stacks| && 0 <= j < |d.stacks[i].slides| && Arms(d.stacks[i], d.stacks[i].slides[j]))
      && (r.advance.Some? ==> r.advance.value == Timer(d.stacks[i].autoAdvance.delay, d.stacks[i].autoAdvance.repeat))
  {
  }

  /**
   * goNextSlideInLiveStack: below the last slide the live slide moves on and
   * the next timer is armed; at the end with repeat it goes back to 0,
   * except that a live slide already at 0 is cleared and a reload is
   * scheduled; at the end without repeat the timer is cancelled.
   */
  function GoNextSlideInLiveStack(d: Deck, repeat: bool): Deck {
    if d.liveStack.None? || d.liveSlide.None? then d
    else match At(d.stacks, d.liveStack.value)
      case None => d
      case Some(stack) =>
        var k := d.liveSlide.value;
        if k < |stack.slides| - 1 then HandleAutoAdvance(d.(liveSlide := Some(k + 1)), d.liveStack, k + 1)
        else if repeat then
          (if k == 0 then d.(liveSlide := None, reloads := d.reloads + 1)
           else HandleAutoAdvance(d.(liveSlide := Some(0)), d.liveStack, 0))
        else d.(advance := None)
  }

  /** The 50 ms reload: the live slide goes back to 0 and auto-advance restarts. */
  function FireReload(d: Deck): Deck
    requires d.reloads > 0
  {
    var d1 := d.(reloads := d.reloads - 1, liveSlide := Some(0));
    HandleAutoAdvance(d1, d1.liveStack, 0)
  }

  /** The auto-advance timer goes off. */
  function FireAutoAdvance(d: Deck): Deck
    requires d.advance.Some?
  {
    GoNextSlideInLiveStack(d.(advance := None), d.advance.value.repeat)
  }

  /** Neither the stacks nor the staged cursor differ. */
  predicate StagedKept(d: Deck, r: Deck) {
    r.stacks == d.stacks && r.stagedStack == d.stagedStack && r.stagedSlide == d.stagedSlide
  }

  /** The live advance, case by case; it never touches the stacks or the staged cursor. */
  lemma LiveAdvance(d: Deck, repeat: bool)
    requires d.liveStack.Some? && d.liveSlide.Some? && 0 <= d.liveStack.value < |d.stacks|
    ensures var r := GoNextSlideInLiveStack(d, repeat);
      var n := |d.stacks[d.liveStack.value].slides|;
      var k := d.liveSlide.value;
      StagedKept(d, r) && r.liveStack == d.liveStack
      && (k < n - 1 ==> r.liveSlide == Some(k + 1))
      && (k >= n - 1 && repeat && k != 0 ==> r.liveSlide == Some(0))
      && (k >= n - 1 && repeat && k == 0 ==> r.liveSlide.None? && r.reloads == d.reloads + 1)
      && (k >= n - 1 && !repeat ==> r.liveSlide == d.liveSlide && r.advance.None?)
  {
  }

  /**
   * A single-slide stack on repeat: the advance clears the live slide, and
   * the reload it schedules puts slide 0 back live and re-arms the timer.
   */
  lemma SingleSlideRepeat(d: Deck)
    requires d.liveStack.Some? && 0 <= d.liveStack.value < |d.stacks|
    requires |d.stacks[d.liveStack.value].slides| == 1 && d.liveSlide == Some(0)
    ensures var r := FireReload(GoNextSlideInLiveStack(d, true));
      StagedKept(d, r) && r.liveStack == d.liveStack && r.liveSlide == Some(0) && r.reloads == d.reloads
      && r.advance == HandleAutoAdvance(d, d.liveStack, 0).advance
  {
  }

  /**
   * The live cursor is not always both null or both set: the 50 ms reload of a
   * repeating one-slide stack that fires after clearProjection sets the live
   * slide to 0 while no stack is live.
   */
  lemma ReloadAfterClear(d: Deck)
    requires d.liveStack.Some? && 0 <= d.liveStack.value < |d.stacks|
    requires |d.stacks[d.liveStack.value].slides| == 1 && d.liveSlide == Some(0)
    ensures var r := FireReload(ClearProjection(GoNextSlideInLiveStack(d, true)));
      r.liveStack.None? && r.liveSlide == Some(0)
  {
  }

  /**
   * onVideoComplete: advances the live stack only when something is live, its
   * stack's auto-advance is on, and the live slide is a video set to
   * 'video-end'. A missing slide changes nothing (the source throws before
   * any update).
   */
  function OnVideoComplete(d: Deck): Deck {
    if d.liveStack.None? || d.liveSlide.None? then d
    else match At(d.stacks, d.liveStack.value)
      case None => d
      case Some(stack) =>
        if !stack.autoAdvance.enabled then d
        else match SlideAt(Some(stack), d.liveSlide.value)
          case None => d
          case Some(slide) =>
            if IsVideo(slide) && stack.autoAdvance.videoAdvance == "video-end" then
              GoNextSlideInLiveStack(d, stack.autoAdvance.repeat)
            else d
  }

  /** onVideoComplete is a no-op unless the live slide is a video of an enabled stack waiting for its end. */
  lemma VideoEndGuard(d: Deck)
    ensures OnVideoComplete(d) != d ==>
      d.liveStack.Some? && d.liveSlide.Some?
      && var stack := At(d.stacks, d.liveStack.value);
      var slide := SlideAt(stack, d.liveSlide.value);
      stack.Some? && stack.value.autoAdvance.enabled && slide.Some? && IsVideo(slide.value)
      && stack.value.autoAdvance.videoAdvance == "video-end"
  {
  }

  /** updateProjector: the frame replaces any pending one (the 50 ms debounce). */
  function UpdateProjector(d: Deck, frame: Frame): Deck {
    d.(projector := Some(frame))
  }

  /**
   * The live-cursor watch: sends the live slide and its stack's transition
   * ('none' when unset) to the projector, and re-arms auto-advance when a
   * slide is live.
   */
  function LiveChanged(d: Deck): Deck {
    var stack := if d.liveStack.Some? then At(d.stacks, d.liveStack.value) else None;
    var slide := if d.liveSlide.Some? then SlideAt(stack, d.liveSlide.value) else None;
    var transition := if stack.Some? && stack.value.autoAdvance.transition != [] then stack.value.autoAdvance.transition else "none";
    var d1 := UpdateProjector(d, Frame(slide, transition));
    if slide.Some? && d.liveStack.Some? then HandleAutoAdvance(d1, d.liveStack, d.liveSlide.value) else d1
  }

  /** What the debounced update sends when its timer goes off. */
  datatype ProjectorData = ProjectorData(slide: Option<Slide>, transition: string, libraryRoot: Option<string>, textScale: int)

  function FireProjector(d: Deck): (Deck, ProjectorData)
    requires d.projector.Some?
  {
    (d.(projector := None), ProjectorData(d.projector.value.slide, d.projector.value.transition, d.libraryRoot, d.textScale))
  }

  /** Two updates within the debounce window send one frame, the last one. */
  lemma DebounceSendsLast(d: Deck, f1: Frame, f2: Frame)
    ensures var (r, sent) := FireProjector(UpdateProjector(UpdateProjector(d, f1), f2));
      sent.slide == f2.slide && sent.transition == f2.transition && r.projector.None?
  {
  }

  /** Nothing that runs on its own (timers, video end, the live watch) moves the staged cursor or edits the stacks. */
  lemma AutoAdvanceKeepsStaged(d: Deck)
    ensures StagedKept(d, OnVideoComplete(d))
    ensures StagedKept(d, LiveChanged(d))
    ensures d.advance.Some? ==> StagedKept(d, FireAutoAdvance(d))
    ensures d.reloads > 0 ==> StagedKept(d, FireReload(d))
  {
  }

  // ----- remote control -----

  datatype SlideSummary = SlideSummary(kind: string, title: string)
  datatype StackSummary = StackSummary(id: string, title: string, slideCount: int, slides: seq<SlideSummary>)
  datatype Cursor = Cursor(stackIndex: Option<int>, slideIndex: Option<int>, stackTitle: Option<string>, slideTitle: Option<string>)
  datatype RemoteState = RemoteState(stacks: seq<StackSummary>, staged: Cursor, live: Cursor)

  /** A slide's title, or "<type> slide" when it has none. */
  function SlideLabel(s: Slide): string {
    if s.title != [] then s.title else s.kind + " slide"
  }

  function SlideSummaries(slides: seq<Slide>): (r: seq<SlideSummary>)
    ensures |r| == |slides|
    ensures forall k :: 0 <= k < |slides| ==> r[k] == SlideSummary(slides[k].kind, SlideLabel(slides[k]))
  {
    if slides == [] then [] else [SlideSummary(slides[0].kind, SlideLabel(slides[0]))] + SlideSummaries(slides[1..])
  }

  function StackSummaries(stacks: seq<Stack>): (r: seq<StackSummary>)
    ensures |r| == |stacks|
    ensures forall k :: 0 <= k < |stacks| ==>
      r[k] == StackSummary(stacks[k].id, stacks[k].title, |stacks[k].slides|, SlideSummaries(stacks[k].slides))
  {
    if stacks == [] then []
    else [StackSummary(stacks[0].id, stacks[0].title, |stacks[0].slides|, SlideSummaries(stacks[0].slides))]
         + StackSummaries(stacks[1..])
  }

  function TitleOf(s: Option<Stack>): Option<string> {
    if s.Some? then Some(s.value.title) else None
  }

  function SlideTitleOf(s: Option<Slide>): Option<string> {
    if s.Some? then Some(s.value.title) else None
  }

  /** The staged cursor as the remote sees it. */
  function StagedCursor(d: Deck): Cursor {
    var staged := At(d.stacks, d.stagedStack);
    Cursor(Some(d.stagedStack), Some(d.stagedSlide), TitleOf(staged), SlideTitleOf(SlideAt(staged, d.stagedSlide)))
  }

  /** The live cursor as the remote sees it: no titles while nothing is live. */
  function LiveCursor(d: Deck): Cursor {
    var live := if d.liveStack.Some? then At(d.stacks, d.liveStack.value) else None;
    Cursor(d.liveStack, d.liveSlide, TitleOf(live),
           if d.liveSlide.Some? then SlideTitleOf(SlideAt(live, d.liveSlide.value)) else None)
  }

  /** broadcastStateToRemote: the read-only summary sent to remote clients. */
  function Summary(d: Deck): RemoteState {
    RemoteState(StackSummaries(d.stacks), StagedCursor(d), LiveCursor(d))
  }

  /** The summary lists every stack with its slide count and every slide with its label. */
  lemma SummaryListsStacks(d: Deck)
    ensures var s := Summary(d).stacks;
      |s| == |d.stacks|
      && forall k :: 0 <= k < |d.stacks| ==>
        s[k].id == d.stacks[k].id && s[k].title == d.stacks[k].title
        && s[k].slideCount == |d.stacks[k].slides| && |s[k].slides| == |d.stacks[k].slides|
        && forall m :: 0 <= m < |d.stacks[k].slides| ==> s[k].slides[m].title == SlideLabel(d.stacks[k].slides[m])
  {
    var s := StackSummaries(d.stacks);
    forall k | 0 <= k < |d.stacks|
      ensures s[k].slides == SlideSummaries(d.stacks[k].slides)
    {}
  }

  /**
   * The summary's cursors are the deck's, with the titles of the stack and
   * slide they point at when those exist, and no titles when nothing is live.
   */
  lemma SummaryCursors(d: Deck)
    requires StagedInRange(d) && d.stacks != []
    ensures var staged := StagedCursor(d);
      staged.stackIndex == Some(d.stagedStack) && staged.slideIndex == Some(d.stagedSlide)
      && staged.stackTitle == Some(d.stacks[d.stagedStack].title)
      && (d.stagedSlide < |d.stacks[d.stagedStack].slides| ==> staged.slideTitle == Some(d.stacks[d.stagedStack].slides[d.stagedSlide].title))
    ensures var live := LiveCursor(d);
      live.stackIndex == d.liveStack && live.slideIndex == d.liveSlide
      && (d.liveStack.None? ==> live.stackTitle.None? && live.slideTitle.None?)
  {
    var staged := At(d.stacks, d.stagedStack);
    assert staged == Some(d.stacks[d.stagedStack]);
    assert TitleOf(staged) == Some(d.stacks[d.stagedStack].title);
    if d.stagedSlide < |d.stacks[d.stagedStack].slides| {
      assert SlideAt(staged, d.stagedSlide) == Some(d.stacks[d.stagedStack].slides[d.stagedSlide]);
    }
  }

  /** A remote command: the event name and the optional indices of 'remote-stage-slide'. */
  datatype Command = Command(event: string, stackIndex: Option<int>, slideIndex: Option<int>)

  /** handleRemoteCommand */
  function HandleRemoteCommand(d: Deck, c: Command): Deck {
    if c.event == "remote-stage-next" then NextSlide(d)
    else if c.event == "remote-stage-prev" then PrevSlide(d)
    else if c.event == "remote-go-live" then GoLive(d)
    else if c.event == "remote-clear" then ClearProjection(d)
    else if c.event == "remote-stage-slide" then
      (if c.stackIndex.Some? && c.slideIndex.Some? then StageSlideInStack(d, c.stackIndex.value, c.slideIndex.value) else d)
    else if c.event == "remote-next-stack" then NextStack(d)
    else if c.event == "remote-prev-stack" then PrevStack(d)
    else d
  }

  /**
   * A remote can only stage, go live and clear: it never edits the stacks,
   * keeps the staged cursor in range, and an unknown event does nothing.
   */
  lemma RemoteCannotEdit(d: Deck, c: Command)
    requires StagedInRange(d)
    ensures HandleRemoteCommand(d, c).stacks == d.stacks
    ensures StagedInRange(HandleRemoteCommand(d, c))
    ensures (c.event !in {"remote-stage-next", "remote-stage-prev", "remote-go-live", "remote-clear",
                          "remote-stage-slide", "remote-next-stack", "remote-prev-stack"})
            ==> HandleRemoteCommand(d, c) == d
  {
    if c.event == "remote-stage-next" || c.event == "remote-stage-prev" {
      SlideNavigation(d);
    } else if c.event == "remote-next-stack" || c.event == "remote-prev-stack" {
      StackNavigation(d);
    } else if c.event == "remote-stage-slide" && c.stackIndex.Some? && c.slideIndex.Some? {
      DirectStaging(d, c.stackIndex.value, c.slideIndex.value);
    }
  }
}
