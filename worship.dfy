/**
 * Worship mode: a setlist of song ids is walked song by song and section by
 * section, with a staged section, a live section (null when nothing is
 * live), and a background video that is either chosen per song or rotated
 * through a list with a crossfade from `current` to `next`.
 *
 * `Session` is the state as a value and each action is a function on it; the
 * `Sequencer` class holds the module-level refs and its methods are proved
 * to compute those functions. The song library is a map from id to song, the
 * random pick on load is a parameter, and the 3000 ms crossfade timer is a
 * count of pending swaps fired by `FireSwap`.
 */
module Worship {
  import opened Wrappers
  import opened Songs

  /** A worship stack: the setlist of song ids and how the background video is chosen. */
  datatype WorshipStack = WorshipStack(id: string, setlist: seq<string>, backgroundMode: string, backgroundVideos: seq<string>)

  datatype Session = Session(
    active: Option<WorshipStack>,
    songIndex: int,
    stagedSection: int,
    liveSection: Option<int>,
    currentVideo: Option<string>,
    nextVideo: Option<string>,
    swaps: nat)

  function Initial(): Session {
    Session(None, 0, 0, None, None, None, 0)
  }

  /** `list.indexOf(x)`: the first position of x, or -1. */
  function Position<T(==)>(s: seq<T>, x: T): (r: int)
    ensures r == -1 <==> x !in s
    ensures r != -1 ==> 0 <= r < |s| && s[r] == x && x !in s[..r]
  {
    if s == [] then -1
    else if s[0] == x then 0
    else
      var k := Position(s[1..], x);
      if k == -1 then -1
      else
        assert s[..k + 1] == [s[0]] + s[1..][..k];
        k + 1
  }

  /** useCurrentSong: the library's song for the setlist entry at the song index, if any. */
  function CurrentSong(st: Session, library: map<string, Song>): Option<Song> {
    if st.active.None? then None
    else
      var setlist := st.active.value.setlist;
      if 0 <= st.songIndex < |setlist| && setlist[st.songIndex] in library then Some(library[setlist[st.songIndex]])
      else None
  }

  // ----- navigation guards -----

  predicate CanGoPrevSection(st: Session) {
    st.stagedSection > 0
  }

  predicate CanGoNextSection(st: Session, library: map<string, Song>) {
    var song := CurrentSong(st, library);
    song.Some? && st.stagedSection < |song.value.sections| - 1
  }

  predicate CanGoPrevSong(st: Session) {
    st.songIndex > 0
  }

  predicate CanGoNextSong(st: Session) {
    st.active.Some? && st.songIndex < |st.active.value.setlist| - 1
  }

  // ----- background video -----

  /**
   * loadBackgroundVideoForCurrentSong: the song's own background if it has
   * one, else the first video of the rotation list; with neither, or with no
   * current song, the video is left as it was.
   */
  function LoadBackground(st: Session, library: map<string, Song>): Session {
    match CurrentSong(st, library)
    case None => st
    case Some(song) =>
      if song.backgroundVideo.Some? && song.backgroundVideo.value != [] then st.(currentVideo := song.backgroundVideo)
      else if st.active.Some? && |st.active.value.backgroundVideos| > 0 then st.(currentVideo := Some(st.active.value.backgroundVideos[0]))
      else st
  }

  /** The rotation list's position of the current video (-1 when there is none or it is not in the list). */
  function VideoPosition(videos: seq<string>, current: Option<string>): int {
    if current.None? then -1 else Position(videos, current.value)
  }

  /**
   * rotateBackgroundVideo: with a rotation list, stages as `next` the video
   * after the current one, wrapping around, and schedules the swap.
   */
  function Rotate(st: Session): Session {
    if st.active.None? || |st.active.value.backgroundVideos| == 0 then st
    else
      var videos := st.active.value.backgroundVideos;
      var nextIndex := Successor(VideoPosition(videos, st.currentVideo), |videos|);
      st.(nextVideo := Some(videos[nextIndex]), swaps := st.swaps + 1)
  }

  /** The position after `index` (an index of the list or -1), wrapping to 0 after the last. */
  function Successor(index: int, length: int): (r: int)
    requires -1 <= index < length && length > 0
    ensures 0 <= r < length
  {
    if index == length - 1 then 0 else index + 1
  }

  /** The successor is `(index + 1) % length`. */
  lemma SuccessorIsModulo(index: int, length: int)
    requires -1 <= index < length && length > 0
    ensures Successor(index, length) == (index + 1) % length
  {
    Wrap(index + 1, length);
  }

  /** The crossfade timer goes off: `next` becomes current and `next` is cleared. */
  function FireSwap(st: Session): Session
    requires st.swaps > 0
  {
    st.(currentVideo := st.nextVideo, nextVideo := None, swaps := st.swaps - 1)
  }

  /**
   * Rotation is deterministic and wraps: the video staged as `next` is the
   * one after the current video's first position, going back to the first
   * video after the last; the crossfade then makes it current.
   */
  lemma RotateAfter(st: Session, k: int)
    requires st.active.Some?
    requires var videos := st.active.value.backgroundVideos;
      0 <= k < |videos| && st.currentVideo == Some(videos[k]) && videos[k] !in videos[..k]
    ensures var videos := st.active.value.backgroundVideos;
      var r := Rotate(st);
      r.nextVideo == Some(videos[if k == |videos| - 1 then 0 else k + 1])
      && r.currentVideo == st.currentVideo && FireSwap(r).currentVideo == r.nextVideo && FireSwap(r).nextVideo.None?
  {
    PositionOfFirst(st.active.value.backgroundVideos, k);
  }

  /** The position of an element's first occurrence is where it is. */
  lemma PositionOfFirst(s: seq<string>, k: int)
    requires 0 <= k < |s| && s[k] !in s[..k]
    ensures Position(s, s[k]) == k
  {
  }

  /** The successor of a list position, taken modulo the list's length. */
  lemma Wrap(x: int, n: int)
    requires 0 <= x <= n && n > 0
    ensures x % n == if x < n then x else 0
  {
    if x == n {
      assert n % n == 0;
    }
  }

  /**
   * Without a current video, or with one not in the list, rotation starts at
   * the first video; an empty list or no active stack changes nothing.
   */
  lemma RotateStart(st: Session)
    ensures st.active.None? || st.active.value.backgroundVideos == [] ==> Rotate(st) == st
    ensures st.active.Some? && st.active.value.backgroundVideos != []
            && (st.currentVideo.None? || st.currentVideo.value !in st.active.value.backgroundVideos)
            ==> Rotate(st).nextVideo == Some(st.active.value.backgroundVideos[0])
  {
  }

  /** Rotating and letting the crossfade finish, m times over. */
  function Rotations(st: Session, m: nat): (r: Session)
    requires st.active.Some? && st.active.value.backgroundVideos != []
    ensures r.active == st.active
    decreases m
  {
    if m == 0 then st else FireSwap(Rotate(Rotations(st, m - 1)))
  }

  /** No element of the list repeats an earlier one. */
  predicate Distinct(s: seq<string>)
    decreases |s|
  {
    s == [] || (Distinct(s[..|s| - 1]) && s[|s| - 1] !in s[..|s| - 1])
  }

  /** In a list without repeats every element occurs first where it is. */
  lemma {:induction false} DistinctFirst(s: seq<string>, k: int)
    requires Distinct(s) && 0 <= k < |s|
    ensures s[k] !in s[..k]
    decreases |s|
  {
    if k < |s| - 1 {
      var init := s[..|s| - 1];
      DistinctFirst(init, k);
      assert init[k] == s[k] && init[..k] == s[..k];
    }
  }

  /** The position m places after k in a cycle of n positions, for k < n and m <= n. */
  function CyclePosition(k: int, m: int, n: int): int {
    if k + m < n then k + m else k + m - n
  }

  /** Every element of the list is first found at its own position. */
  predicate FirstAtOwn(s: seq<string>) {
    forall i {:trigger Position(s, s[i])} :: 0 <= i < |s| ==> Position(s, s[i]) == i
  }

  /** In a list without repeats every element is first found at its own position. */
  lemma DistinctFirstAtOwn(s: seq<string>)
    requires Distinct(s)
    ensures FirstAtOwn(s)
  {
    forall i | 0 <= i < |s| ensures Position(s, s[i]) == i {
      DistinctFirst(s, i);
      PositionOfFirst(s, i);
    }
  }

  /**
   * With a rotation list whose every video is first found at its own
   * position and the k-th one current, each completed rotation moves one
   * place on, wrapping at the end of the list.
   */
  lemma {:induction false} RotationsCycle(st: Session, k: nat, m: nat)
    requires st.active.Some? && st.active.value.backgroundVideos != []
    requires var videos := st.active.value.backgroundVideos;
      k < |videos| && m <= |videos| && st.currentVideo == Some(videos[k]) && FirstAtOwn(videos)
    ensures var videos := st.active.value.backgroundVideos;
      Rotations(st, m).currentVideo == Some(videos[CyclePosition(k, m, |videos|)])
    decreases m
  {
    if m > 0 {
      var n := |st.active.value.backgroundVideos|;
      NextInCycle(k, m, n);
      RotationsCycle(st, k, m - 1);
      var prev := Rotations(st, m - 1);
      RotationStep(prev, CyclePosition(k, m - 1, n), CyclePosition(k, m, n));
      assert Rotations(st, m) == FireSwap(Rotate(prev));
    }
  }

  /** One more rotation, with its crossfade, moves from the at-th video to the next one. */
  lemma RotationStep(prev: Session, at: int, next: int)
    requires prev.active.Some?
    requires var videos := prev.active.value.backgroundVideos;
      0 <= at < |videos| && prev.currentVideo == Some(videos[at]) && FirstAtOwn(videos)
    requires next == if at == |prev.active.value.backgroundVideos| - 1 then 0 else at + 1
    ensures Rotate(prev).swaps > 0
    ensures FireSwap(Rotate(prev)).currentVideo == Some(prev.active.value.backgroundVideos[next])
  {
    var videos := prev.active.value.backgroundVideos;
    assert Position(videos, videos[at]) == at;
    RotateAfter(prev, at);
  }

  /** One step further round the cycle is one place after the previous position, wrapping after the last. */
  lemma NextInCycle(k: nat, m: nat, n: nat)
    requires k < n && 0 < m <= n
    ensures var at := CyclePosition(k, m - 1, n);
      0 <= at < n && CyclePosition(k, m, n) == if at == n - 1 then 0 else at + 1
  {
  }

  /** After as many rotations as there are videos the starting video is current again. */
  lemma RotationsReturn(st: Session, k: nat)
    requires st.active.Some? && st.active.value.backgroundVideos != []
    requires var videos := st.active.value.backgroundVideos;
      k < |videos| && st.currentVideo == Some(videos[k]) && Distinct(videos)
    ensures Rotations(st, |st.active.value.backgroundVideos|).currentVideo == st.currentVideo
  {
    DistinctFirstAtOwn(st.active.value.backgroundVideos);
    RotationsCycle(st, k, |st.active.value.backgroundVideos|);
  }

  // ----- session actions -----

  /**
   * loadWorshipStack: activates the stack at its first song and section with
   * nothing live, then picks the background: the song's own (per-song mode),
   * or the `pick`-th rotation video, chosen at random by the source
   * (auto-rotate mode).
   */
  function Load(st: Session, w: WorshipStack, pick: int, library: map<string, Song>): Session
    requires w.backgroundMode == "auto-rotate" && |w.backgroundVideos| > 0 ==> 0 <= pick < |w.backgroundVideos|
  {
    var st1 := st.(active := Some(w), songIndex := 0, stagedSection := 0, liveSection := None);
    if w.backgroundMode == "per-song" then LoadBackground(st1, library)
    else if w.backgroundMode == "auto-rotate" && |w.backgroundVideos| > 0 then st1.(currentVideo := Some(w.backgroundVideos[pick]))
    else st1
  }

  /** exitWorshipMode */
  function Exit(st: Session): Session {
    st.(active := None, songIndex := 0, stagedSection := 0, liveSection := None, currentVideo := None, nextVideo := None)
  }

  /** goToSong: a valid index becomes the current song at its first section, and the background follows the stack's mode. */
  function GoToSong(st: Session, i: int, library: map<string, Song>): Session {
    if st.active.None? then st
    else if 0 <= i < |st.active.value.setlist| then
      var st1 := st.(songIndex := i, stagedSection := 0);
      if st.active.value.backgroundMode == "per-song" then LoadBackground(st1, library)
      else if st.active.value.backgroundMode == "auto-rotate" then Rotate(st1)
      else st1
    else st
  }

  function NextSong(st: Session, library: map<string, Song>): Session {
    if st.active.None? then st
    else if st.songIndex < |st.active.value.setlist| - 1 then GoToSong(st, st.songIndex + 1, library)
    else st
  }

  function PrevSong(st: Session, library: map<string, Song>): Session {
    if st.active.None? then st
    else if st.songIndex > 0 then GoToSong(st, st.songIndex - 1, library)
    else st
  }

  function StageSection(st: Session, i: int, library: map<string, Song>): Session {
    match CurrentSong(st, library)
    case None => st
    case Some(song) => if 0 <= i < |song.sections| then st.(stagedSection := i) else st
  }

  function NextSection(st: Session, library: map<string, Song>): Session {
    match CurrentSong(st, library)
    case None => st
    case Some(song) => if st.stagedSection < |song.sections| - 1 then st.(stagedSection := st.stagedSection + 1) else st
  }

  function PrevSection(st: Session): Session {
    if st.stagedSection > 0 then st.(stagedSection := st.stagedSection - 1) else st
  }

  function GoLive(st: Session): Session {
    st.(liveSection := Some(st.stagedSection))
  }

  function ClearProjection(st: Session): Session {
    st.(liveSection := None)
  }

  // ----- properties -----

  /** The song index points into the setlist (or is 0 for an empty one) whenever a stack is active. */
  predicate SongInRange(st: Session) {
    st.active.Some? ==>
      0 <= st.songIndex && (st.songIndex < |st.active.value.setlist| || st.songIndex == 0)
  }

  /** The staged section points into the current song's sections (or is 0 when it has none). */
  predicate SectionInRange(st: Session, library: map<string, Song>) {
    0 <= st.stagedSection
    && (CurrentSong(st, library).Some? ==>
          st.stagedSection < |CurrentSong(st, library).value.sections| || st.stagedSection == 0)
  }

  lemma LoadSpec(st: Session, w: WorshipStack, pick: int, library: map<string, Song>)
    requires w.backgroundMode == "auto-rotate" && |w.backgroundVideos| > 0 ==> 0 <= pick < |w.backgroundVideos|
    ensures var r := Load(st, w, pick, library);
      r.active == Some(w) && r.songIndex == 0 && r.stagedSection == 0 && r.liveSection.None?
      && r.nextVideo == st.nextVideo && SongInRange(r) && SectionInRange(r, library)
      && (w.backgroundMode == "auto-rotate" && |w.backgroundVideos| > 0 ==> r.currentVideo.Some? && r.currentVideo.value in w.backgroundVideos)
  {
  }

  lemma ExitSpec(st: Session, library: map<string, Song>)
    ensures var r := Exit(st);
      r.active.None? && r.songIndex == 0 && r.stagedSection == 0 && r.liveSection.None?
      && r.currentVideo.None? && r.nextVideo.None? && CurrentSong(r, library).None?
  {
  }

  /**
   * goToSong moves to exactly a valid index, at section 0, leaving the live
   * section as it was; an invalid index or no active stack changes nothing.
   */
  lemma GoToSongSpec(st: Session, i: int, library: map<string, Song>)
    ensures st.active.None? || !(0 <= i < |st.active.value.setlist|) ==> GoToSong(st, i, library) == st
    ensures st.active.Some? && 0 <= i < |st.active.value.setlist| ==>
      var r := GoToSong(st, i, library);
      r.songIndex == i && r.stagedSection == 0 && r.active == st.active && r.liveSection == st.liveSection
      && SongInRange(r) && SectionInRange(r, library)
  {
  }

  /** nextSong and prevSong move by exactly one song, only while their guard holds, and keep the index in range. */
  lemma SongSteps(st: Session, library: map<string, Song>)
    requires SongInRange(st)
    ensures var r := NextSong(st, library);
      SongInRange(r) && (CanGoNextSong(st) ==> r.songIndex == st.songIndex + 1) && (!CanGoNextSong(st) ==> r == st)
    ensures var r := PrevSong(st, library);
      SongInRange(r)
      && (st.active.Some? && CanGoPrevSong(st) ==> r.songIndex == st.songIndex - 1)
      && (st.active.None? || !CanGoPrevSong(st) ==> r == st)
  {
    if st.active.Some? && CanGoPrevSong(st) {
      GoToSongSpec(st, st.songIndex - 1, library);
    }
    if CanGoNextSong(st) {
      GoToSongSpec(st, st.songIndex + 1, library);
    }
  }

  /** Section navigation keeps the staged section in range; requests out of range change nothing. */
  lemma SectionSteps(st: Session, i: int, library: map<string, Song>)
    requires SectionInRange(st, library)
    ensures SectionInRange(StageSection(st, i, library), library)
    ensures SectionInRange(NextSection(st, library), library)
    ensures SectionInRange(PrevSection(st), library)
    ensures var song := CurrentSong(st, library);
      song.Some? && 0 <= i < |song.value.sections| ==> StageSection(st, i, library).stagedSection == i
    ensures var song := CurrentSong(st, library);
      song.None? || !(0 <= i < |song.value.sections|) ==> StageSection(st, i, library) == st
    ensures CanGoNextSection(st, library) <==> NextSection(st, library).stagedSection == st.stagedSection + 1
    ensures !CanGoNextSection(st, library) ==> NextSection(st, library) == st
  {
    assert CurrentSong(StageSection(st, i, library), library) == CurrentSong(st, library);
    assert CurrentSong(NextSection(st, library), library) == CurrentSong(st, library);
    assert CurrentSong(PrevSection(st), library) == CurrentSong(st, library);
  }

  /** goLive copies the staged section; clearProjection clears the live one in one step, and a second call does nothing. */
  lemma LiveSpec(st: Session)
    ensures GoLive(st).liveSection == Some(st.stagedSection) && GoLive(st).(liveSection := st.liveSection) == st
    ensures ClearProjection(st).liveSection.None? && ClearProjection(ClearProjection(st)) == ClearProjection(st)
  {
  }

  /**
   * The per-song background: the song's own video when it has one, else the
   * first rotation video; otherwise the current video is kept.
   */
  lemma LoadBackgroundSpec(st: Session, library: map<string, Song>)
    ensures var r := LoadBackground(st, library);
      var song := CurrentSong(st, library);
      r == st.(currentVideo := r.currentVideo)
      && (song.Some? && song.value.backgroundVideo.Some? && song.value.backgroundVideo.value != [] ==> r.currentVideo == song.value.backgroundVideo)
      && ((song.Some? && (song.value.backgroundVideo.None? || song.value.backgroundVideo.value == [])
           && |st.active.value.backgroundVideos| > 0)
          ==> r.currentVideo == Some(st.active.value.backgroundVideos[0]))
      && ((song.None? || ((song.value.backgroundVideo.None? || song.value.backgroundVideo.value == [])
                          && st.active.value.backgroundVideos == []))
          ==> r.currentVideo == st.currentVideo)
  {
  }

  /**
   * Two song changes within one crossfade leave no current video: the first
   * swap commits `next` and clears it, and the second then commits the
   * cleared value.
   */
  lemma OverlappingSwapsClearVideo(st: Session)
    requires st.active.Some? && |st.active.value.backgroundVideos| > 0
    ensures FireSwap(FireSwap(Rotate(Rotate(st)))).currentVideo.None?
  {
  }

  /** One entry of useSetlist. */
  datatype SetlistEntry = SetlistEntry(id: string, index: int, title: string, artist: string, isCurrent: bool)

  function Entry(st: Session, setlist: seq<string>, k: int, library: map<string, Song>): SetlistEntry
    requires 0 <= k < |setlist|
  {
    var song := if setlist[k] in library then Some(library[setlist[k]]) else None;
    SetlistEntry(setlist[k], k,
      if song.Some? && song.value.title != [] then song.value.title else "Unknown Song",
      if song.Some? then song.value.artist else "",
      k == st.songIndex)
  }

  /** useSetlist: one entry per setlist id, titled from the library. */
  function Setlist(st: Session, library: map<string, Song>): (r: seq<SetlistEntry>)
    ensures st.active.None? ==> r == []
    ensures st.active.Some? ==> |r| == |st.active.value.setlist|
  {
    if st.active.None? then []
    else
      var setlist := st.active.value.setlist;
      seq(|setlist|, k requires 0 <= k < |setlist| => Entry(st, setlist, k, library))
  }

  /** Exactly the entry at the song index is marked current, and an id missing from the library shows as "Unknown Song". */
  lemma SetlistMarksCurrent(st: Session, library: map<string, Song>)
    requires st.active.Some?
    ensures var r := Setlist(st, library);
      (forall k :: 0 <= k < |r| ==> (r[k].isCurrent <==> k == st.songIndex) && r[k].id == st.active.value.setlist[k])
      && (forall k :: 0 <= k < |r| && r[k].id !in library ==> r[k].title == "Unknown Song")
  {
  }
}
