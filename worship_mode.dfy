/**
 * The worship composable's module-level refs as the fields of one object.
 * Each method updates the fields as the source does and is proved to leave
 * the state the matching function of `Worship` describes.
 */
module WorshipMode {
  import opened Wrappers
  import opened Songs
  import opened Worship

  /** The worship refs, updated in place. */
  class Sequencer {
    var active: Option<WorshipStack>
    var songIndex: int
    var stagedSection: int
    var liveSection: Option<int>
    var currentVideo: Option<string>
    var nextVideo: Option<string>
    var swaps: nat

    function State(): Session
      reads this
    {
      Session(active, songIndex, stagedSection, liveSection, currentVideo, nextVideo, swaps)
    }

    constructor ()
      ensures State() == Initial()
    {
      active := None;
      songIndex, stagedSection := 0, 0;
      liveSection := None;
      currentVideo, nextVideo := None, None;
      swaps := 0;
    }

    method LoadBackgroundVideoForCurrentSong(library: map<string, Song>)
      modifies this
      ensures State() == LoadBackground(old(State()), library)
    {
      var song := CurrentSong(State(), library);
      if song.None? {
        return;
      }
      if song.value.backgroundVideo.Some? && song.value.backgroundVideo.value != [] {
        currentVideo := song.value.backgroundVideo;
      } else if active.Some? && |active.value.backgroundVideos| > 0 {
        currentVideo := Some(active.value.backgroundVideos[0]);
      }
    }

    method RotateBackgroundVideo()
      modifies this
      ensures State() == Rotate(old(State()))
    {
      if active.None? || |active.value.backgroundVideos| == 0 {
        return;
      }
      var videos := active.value.backgroundVideos;
      var currentIndex := VideoPosition(videos, currentVideo);
      var nextIndex := (currentIndex + 1) % |videos|;
      SuccessorIsModulo(currentIndex, |videos|);
      nextVideo := Some(videos[nextIndex]);
      swaps := swaps + 1;
    }

    /** The 3000 ms crossfade timer goes off. */
    method FireSwap()
      requires swaps > 0
      modifies this
      ensures State() == Worship.FireSwap(old(State()))
    {
      currentVideo := nextVideo;
      nextVideo := None;
      swaps := swaps - 1;
    }

    method LoadWorshipStack(w: WorshipStack, pick: int, library: map<string, Song>)
      requires w.backgroundMode == "auto-rotate" && |w.backgroundVideos| > 0 ==> 0 <= pick < |w.backgroundVideos|
      modifies this
      ensures State() == Load(old(State()), w, pick, library)
    {
      active := Some(w);
      songIndex := 0;
      stagedSection := 0;
      liveSection := None;
      if w.backgroundMode == "per-song" {
        LoadBackgroundVideoForCurrentSong(library);
      } else if w.backgroundMode == "auto-rotate" {
        if |w.backgroundVideos| > 0 {
          currentVideo := Some(w.backgroundVideos[pick]);
        }
      }
    }

    method ExitWorshipMode()
      modifies this
      ensures State() == Exit(old(State()))
    {
      active := None;
      songIndex := 0;
      stagedSection := 0;
      liveSection := None;
      currentVideo := None;
      nextVideo := None;
    }

    method GoToSong(i: int, library: map<string, Song>)
      modifies this
      ensures State() == Worship.GoToSong(old(State()), i, library)
    {
      if active.None? {
        return;
      }
      var setlist := active.value.setlist;
      if 0 <= i < |setlist| {
        songIndex := i;
        stagedSection := 0;
        if active.value.backgroundMode == "per-song" {
          LoadBackgroundVideoForCurrentSong(library);
        } else if active.value.backgroundMode == "auto-rotate" {
          RotateBackgroundVideo();
        }
      }
    }

    method NextSong(library: map<string, Song>)
      modifies this
      ensures State() == Worship.NextSong(old(State()), library)
    {
      if active.None? {
        return;
      }
      if songIndex < |active.value.setlist| - 1 {
        GoToSong(songIndex + 1, library);
      }
    }

    method PrevSong(library: map<string, Song>)
      modifies this
      ensures State() == Worship.PrevSong(old(State()), library)
    {
      if active.None? {
        return;
      }
      if songIndex > 0 {
        GoToSong(songIndex - 1, library);
      }
    }

    method StageSection(i: int, library: map<string, Song>)
      modifies this
      ensures State() == Worship.StageSection(old(State()), i, library)
    {
      var song := CurrentSong(State(), library);
      if song.None? {
        return;
      }
      if 0 <= i < |song.value.sections| {
        stagedSection := i;
      }
    }

    method NextSection(library: map<string, Song>)
      modifies this
      ensures State() == Worship.NextSection(old(State()), library)
    {
      var song := CurrentSong(State(), library);
      if song.None? {
        return;
      }
      if stagedSection < |song.value.sections| - 1 {
        stagedSection := stagedSection + 1;
      }
    }

    method PrevSection()
      modifies this
      ensures State() == Worship.PrevSection(old(State()))
    {
      if stagedSection > 0 {
        stagedSection := stagedSection - 1;
      }
    }

    method GoLive()
      modifies this
      ensures State() == Worship.GoLive(old(State()))
    {
      liveSection := Some(stagedSection);
    }

    method ClearProjection()
      modifies this
      ensures State() == Worship.ClearProjection(old(State()))
    {
      liveSection := None;
    }
  }
}
