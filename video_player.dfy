/**
 * The video player panel (client/src/components/VideoPlayerPanel.tsx): a
 * fixed playlist, three pieces of state and the three event handlers that
 * change them. `PlayerState` and its transition functions describe the
 * handlers; the class `Player` holds the state in fields, as the component's
 * state cells do.
 */
module VideoPlayer {
  import opened Optional

  datatype VideoSource = VideoSource(title: string, src: string, mime: string)

  const Playlist: seq<VideoSource> := [
    VideoSource("Video 1", "assets/Video1.mp4", "video/mp4"),
    VideoSource("Video 2", "assets/video2.mp4", "video/mp4"),
    VideoSource("Video 3", "assets/video3.mp4", "video/mp4"),
    VideoSource("Video 4", "assets/video4.mp4", "video/mp4"),
    VideoSource("Video 5", "assets/video5.mp4", "video/mp4"),
    VideoSource("Video 6", "assets/video6.mp4", "video/mp4")
  ]

  const DefaultErrorMessage := "Failed to load video"
  const ErrorSuffix := ". Please check if the video file exists."

  datatype PlayerState = PlayerState(playing: bool, index: nat, error: Option<string>)

  /** The index names a playlist entry and a recorded error is never the empty string. */
  predicate ValidState(s: PlayerState) {
    s.index < |Playlist| && (s.error.Some? ==> s.error.value != "")
  }

  const Initial := PlayerState(false, 0, None)

  /** `error?.message || "Failed to load video"` followed by the fixed advice; an empty message counts as absent. */
  function ErrorText(message: Option<string>): (t: string)
    ensures message.Some? && message.value != "" ==> t == message.value + ErrorSuffix
    ensures message.None? || message.value == "" ==> t == DefaultErrorMessage + ErrorSuffix
    ensures |t| > |ErrorSuffix| && t[|t| - |ErrorSuffix|..] == ErrorSuffix
  {
    var m := if message.Some? && message.value != "" then message.value else DefaultErrorMessage;
    assert (m + ErrorSuffix)[|m|..] == ErrorSuffix;
    m + ErrorSuffix
  }

  /** `handleError`: pauses, keeps the video and records the error text. */
  function Failed(s: PlayerState, message: Option<string>): (r: PlayerState)
    ensures !r.playing && r.index == s.index && r.error == Some(ErrorText(message))
    ensures ValidState(s) ==> ValidState(r)
  {
    s.(playing := false, error := Some(ErrorText(message)))
  }

  /** `handleEnded`: pauses and moves to the next video, the last one wrapping to the first. */
  function Ended(s: PlayerState): (r: PlayerState)
    ensures !r.playing && r.error == s.error
    ensures s.index < |Playlist| - 1 ==> r.index == s.index + 1
    ensures s.index == |Playlist| - 1 ==> r.index == 0
    ensures ValidState(s) ==> ValidState(r)
  {
    s.(playing := false, index := (s.index + 1) % |Playlist|)
  }

  /** `togglePlay`: clears the error, flips playing and keeps the video. */
  function Toggled(s: PlayerState): (r: PlayerState)
    ensures r.error.None? && r.playing == !s.playing && r.index == s.index
    ensures ValidState(s) ==> ValidState(r)
  {
    s.(error := None, playing := !s.playing)
  }

  /** The state after `n` consecutive `handleEnded` events. */
  function EndedTimes(s: PlayerState, n: nat): PlayerState {
    if n == 0 then s else Ended(EndedTimes(s, n - 1))
  }

  /** The button drawn over the video. */
  datatype Overlay = PlayButton | PauseButton

  /** `{!playing && <Play/>}{playing && <Pause/>}`: exactly one of the two buttons. */
  function OverlayButton(s: PlayerState): (b: Overlay)
    ensures b == PlayButton <==> !s.playing
    ensures b == PauseButton <==> s.playing
  {
    if s.playing then PauseButton else PlayButton
  }

  /** `{error && ...}`: the banner is drawn when the error is a non-empty string. */
  function ShowsErrorBanner(s: PlayerState): bool {
    s.error.Some? && s.error.value != ""
  }

  lemma InitialIsValid()
    ensures ValidState(Initial)
    ensures !Initial.playing && Initial.index == 0 && Initial.error.None?
  {
  }

  /** After n endings the index has advanced n places around the playlist. */
  lemma {:induction false} EndedTimesIndex(s: PlayerState, n: nat)
    requires ValidState(s)
    ensures EndedTimes(s, n).index == (s.index + n) % |Playlist|
    ensures ValidState(EndedTimes(s, n))
  {
    if n > 0 {
      EndedTimesIndex(s, n - 1);
      var k := s.index + n - 1;
      assert (k % 6 + 1) % 6 == (k + 1) % 6;
    }
  }

  /** Endings never touch the recorded error. */
  lemma {:induction false} EndedTimesKeepsError(s: PlayerState, n: nat)
    ensures EndedTimes(s, n).error == s.error
  {
    if n > 0 {
      EndedTimesKeepsError(s, n - 1);
    }
  }

  /** Six endings in a row come back to the video they started from. */
  lemma SixEndingsReturn(s: PlayerState)
    requires ValidState(s)
    ensures EndedTimes(s, |Playlist|).index == s.index
  {
    EndedTimesIndex(s, |Playlist|);
  }

  /** Toggling twice restores playing and the video, leaving the error cleared. */
  lemma ToggledTwice(s: PlayerState)
    ensures Toggled(Toggled(s)) == s.(error := None)
  {
  }

  /** In a valid state the banner is drawn exactly when an error is recorded. */
  lemma ErrorBannerIffError(s: PlayerState)
    requires ValidState(s)
    ensures ShowsErrorBanner(s) <==> s.error.Some?
  {
  }

  class Player {
    var playing: bool
    var currentVideoIndex: nat
    var error: Option<string>

    function State(): PlayerState
      reads this
    {
      PlayerState(playing, currentVideoIndex, error)
    }

    ghost predicate Valid()
      reads this
    {
      ValidState(State())
    }

    constructor ()
      ensures Valid() && State() == Initial
    {
      playing, currentVideoIndex, error := false, 0, None;
    }

    /** The source the player is loading. */
    function CurrentVideo(): (v: VideoSource)
      reads this
      requires Valid()
      ensures v in Playlist
    {
      Playlist[currentVideoIndex]
    }

    method HandleError(message: Option<string>)
      requires Valid()
      modifies this
      ensures Valid() && State() == Failed(old(State()), message)
    {
      var errorMessage := if message.Some? && message.value != "" then message.value else DefaultErrorMessage;
      error := Some(errorMessage + ErrorSuffix);
      playing := false;
    }

    method HandleEnded()
      requires Valid()
      modifies this
      ensures Valid() && State() == Ended(old(State()))
    {
      playing := false;
      currentVideoIndex := (currentVideoIndex + 1) % |Playlist|;
    }

    method TogglePlay()
      requires Valid()
      modifies this
      ensures Valid() && State() == Toggled(old(State()))
    {
      var wasPlaying := playing;
      error := None;
      playing := !wasPlaying;
    }
  }

  /**
   * A client of `Player`, not part of the component: it shows what the
   * handlers' contracts let a caller conclude when six videos end in a row.
   */
  method PlayThroughPlaylist(p: Player)
    requires p.Valid()
    modifies p
    ensures p.Valid() && p.currentVideoIndex == old(p.currentVideoIndex) && !p.playing
    ensures p.error == old(p.error)
  {
    ghost var start := p.State();
    var n := 0;
    while n < |Playlist|
      invariant 0 <= n <= |Playlist|
      invariant p.Valid() && p.State() == EndedTimes(start, n)
    {
      p.HandleEnded();
      n := n + 1;
    }
    SixEndingsReturn(start);
    EndedTimesKeepsError(start, |Playlist|);
  }
}
