/** The playback state of the video carousel and the pure functions over it:
  * the reducer behind `handleProcess`, the two media-driven updaters, the
  * readiness-gated play/pause command and the three-way control button.
  * Each updater of the component is a pure record-to-record function
  * (`prev => ({...prev, ...})`), so each is a function here.
  */
module Playback {

  /** The component's `video` state record. `videoId` is a JavaScript number
    * the code never clamps, so it is an unbounded `int`. */
  datatype VideoState = VideoState(
    isEnd: bool,
    startPlay: bool,
    videoId: int,
    isPlaying: bool,
    isLastVideo: bool)

  /** The value the state is created with on mount. */
  function Initial(): (s: VideoState)
    ensures !s.isEnd && !s.startPlay && !s.isPlaying && !s.isLastVideo
    ensures s.videoId == 0
  {
    VideoState(false, false, 0, false, false)
  }

  // ---------------------------------------------------------------------
  // The reducer `handleProcess(type, index)`
  // ---------------------------------------------------------------------

  /** The cases of the reducer's `switch`; `Other` is every unrecognised tag. */
  datatype Action =
    | VideoEnd(index: int)
    | VideoLast
    | VideoReset
    | Play
    | Pause
    | Other(tag: string)

  const VIDEO_END := "video-end"
  const VIDEO_LAST := "video-last"
  const VIDEO_RESET := "video-reset"
  const PLAY := "play"
  const PAUSE := "pause"

  /** The five tags the reducer recognises. */
  predicate IsKnownTag(tag: string) {
    tag == VIDEO_END || tag == VIDEO_LAST || tag == VIDEO_RESET || tag == PLAY || tag == PAUSE
  }

  /** The `switch (type)` of the reducer: which case a tag selects. Only
    * `video-end` uses `index`. */
  function ParseAction(tag: string, index: int): (a: Action)
    ensures a.Other? <==> !IsKnownTag(tag)
    ensures a.Other? ==> a.tag == tag
    ensures a.VideoEnd? <==> tag == VIDEO_END
    ensures a.VideoEnd? ==> a.index == index
    ensures !a.Other? ==> TagOf(a) == tag
  {
    if tag == VIDEO_END then VideoEnd(index)
    else if tag == VIDEO_LAST then VideoLast
    else if tag == VIDEO_RESET then VideoReset
    else if tag == PLAY then Play
    else if tag == PAUSE then Pause
    else Other(tag)
  }

  /** The tag that selects a recognised case (used by callers such as the
    * control button); `Other` keeps its own tag. */
  function TagOf(a: Action): string {
    match a
    case VideoEnd(_) => VIDEO_END
    case VideoLast => VIDEO_LAST
    case VideoReset => VIDEO_RESET
    case Play => PLAY
    case Pause => PAUSE
    case Other(tag) => tag
  }

  /** `video-end`: mark the slide ended and move to `index + 1`, unchecked. */
  function EndVideo(s: VideoState, index: int): (r: VideoState)
    ensures r.isEnd && r.videoId == index + 1
    ensures r.startPlay == s.startPlay && r.isPlaying == s.isPlaying
    ensures r.isLastVideo == s.isLastVideo
  {
    s.(isEnd := true, videoId := index + 1)
  }

  /** `video-last`: raise the terminal flag. */
  function MarkLast(s: VideoState): (r: VideoState)
    ensures r.isLastVideo
    ensures r.isEnd == s.isEnd && r.startPlay == s.startPlay
    ensures r.videoId == s.videoId && r.isPlaying == s.isPlaying
  {
    s.(isLastVideo := true)
  }

  /** `video-reset`: back to the first slide, clearing the end and terminal flags. */
  function Reset(s: VideoState): (r: VideoState)
    ensures r.videoId == 0 && !r.isEnd && !r.isLastVideo
    ensures r.startPlay == s.startPlay && r.isPlaying == s.isPlaying
  {
    s.(isEnd := false, isLastVideo := false, videoId := 0)
  }

  /** `play`: negate the playing flag (a toggle, not a set). */
  function TogglePlaying(s: VideoState): (r: VideoState)
    ensures r.isPlaying == !s.isPlaying
    ensures r.isEnd == s.isEnd && r.startPlay == s.startPlay
    ensures r.videoId == s.videoId && r.isLastVideo == s.isLastVideo
  {
    s.(isPlaying := !s.isPlaying)
  }

  /** `pause`: force the playing flag off. */
  function StopPlaying(s: VideoState): (r: VideoState)
    ensures !r.isPlaying
    ensures r.isEnd == s.isEnd && r.startPlay == s.startPlay
    ensures r.videoId == s.videoId && r.isLastVideo == s.isLastVideo
  {
    s.(isPlaying := false)
  }

  /** The reducer: the state after one dispatched action. The default case
    * returns without calling `setVideo`, so the state is unchanged. */
  function Reduce(s: VideoState, a: Action): (r: VideoState)
    ensures a.Other? ==> r == s
    ensures r.startPlay == s.startPlay
    ensures !a.Play? && !a.Pause? ==> r.isPlaying == s.isPlaying
    ensures a.VideoEnd? || a.VideoReset? || r.videoId == s.videoId
    ensures r.isLastVideo != s.isLastVideo ==> a.VideoLast? || a.VideoReset?
    ensures r.isEnd != s.isEnd ==> a.VideoEnd? || a.VideoReset?
  {
    match a
    case VideoEnd(index) => EndVideo(s, index)
    case VideoLast => MarkLast(s)
    case VideoReset => Reset(s)
    case Play => TogglePlaying(s)
    case Pause => StopPlaying(s)
    case Other(_) => s
  }

  /** `handleProcess(type, index)` as a state transition. */
  function HandleProcess(s: VideoState, tag: string, index: int): (r: VideoState)
    ensures !IsKnownTag(tag) ==> r == s
    ensures r.startPlay == s.startPlay
  {
    Reduce(s, ParseAction(tag, index))
  }

  // ---------------------------------------------------------------------
  // Updaters driven by the animation library and the media element
  // ---------------------------------------------------------------------

  /** The scroll-trigger tween's `onComplete`: start and mark playing. */
  function ScrollComplete(s: VideoState): (r: VideoState)
    ensures r.startPlay && r.isPlaying
    ensures r.videoId == s.videoId && r.isEnd == s.isEnd && r.isLastVideo == s.isLastVideo
  {
    s.(startPlay := true, isPlaying := true)
  }

  /** The media element's `onPlay`: mark playing, nothing else. */
  function MediaPlayed(s: VideoState): (r: VideoState)
    ensures r.isPlaying
    ensures r.startPlay == s.startPlay
    ensures r.videoId == s.videoId && r.isEnd == s.isEnd && r.isLastVideo == s.isLastVideo
  {
    s.(isPlaying := true)
  }

  // ---------------------------------------------------------------------
  // Outputs derived from the state
  // ---------------------------------------------------------------------

  /** What the play/pause effect asks of the video element at `videoId`. */
  datatype Cmd = PlayCmd(id: int) | PauseCmd(id: int) | NoOp

  /** Number of "metadata loaded" events the effect waits for beyond. */
  const READY_THRESHOLD := 3

  /** The play/pause effect: silent until more than three metadata events
    * have arrived; then pause when not playing, play when playing and
    * started, and nothing when playing but not started. */
  function Command(s: VideoState, loaded: nat): (c: Cmd)
    ensures loaded <= READY_THRESHOLD ==> c == NoOp
    ensures loaded > READY_THRESHOLD && !s.isPlaying ==> c == PauseCmd(s.videoId)
    ensures loaded > READY_THRESHOLD && s.isPlaying && s.startPlay ==> c == PlayCmd(s.videoId)
    ensures s.isPlaying && !s.startPlay ==> c == NoOp
  {
    if loaded > READY_THRESHOLD then
      if !s.isPlaying then PauseCmd(s.videoId)
      else if s.startPlay then PlayCmd(s.videoId)
      else NoOp
    else NoOp
  }

  /** The control button's image. */
  datatype Icon = ReplayIcon | PlayIcon | PauseIcon

  /** What the button shows and which tag its click hands to `handleProcess`. */
  datatype Control = Control(icon: Icon, alt: string, onClick: string)

  /** The button: replay takes priority, then play when not playing, else pause.
    * Icon, alternative text and click tag are chosen by the same two tests. */
  function ButtonControl(s: VideoState): (c: Control)
    ensures c.icon == ReplayIcon <==> s.isLastVideo
    ensures c.icon == PlayIcon <==> !s.isLastVideo && !s.isPlaying
    ensures c.icon == PauseIcon <==> !s.isLastVideo && s.isPlaying
    ensures c.icon == ReplayIcon ==> c.alt == "replay" && c.onClick == VIDEO_RESET
    ensures c.icon == PlayIcon ==> c.alt == "play" && c.onClick == PLAY
    ensures c.icon == PauseIcon ==> c.alt == "pause" && c.onClick == PAUSE
  {
    if s.isLastVideo then Control(ReplayIcon, "replay", VIDEO_RESET)
    else if !s.isPlaying then Control(PlayIcon, "play", PLAY)
    else Control(PauseIcon, "pause", PAUSE)
  }

  /** The state after a click on the control button (the click passes no
    * index; the tags it can pass ignore it). */
  function Click(s: VideoState): (r: VideoState)
    ensures s.isLastVideo ==> r == Reset(s)
    ensures !s.isLastVideo ==> r == s.(isPlaying := !s.isPlaying)
  {
    HandleProcess(s, ButtonControl(s).onClick, 0)
  }

  // ---------------------------------------------------------------------
  // Properties of single transitions
  // ---------------------------------------------------------------------

  /** Every recognised case is selected by its own tag, whatever the index. */
  lemma ParseTagOf(a: Action, index: int)
    requires !a.Other?
    ensures ParseAction(TagOf(a), if a.VideoEnd? then a.index else index) == a
  {
  }

  /** `video-end` keeps the slide index below `n` exactly when `index + 1 < n`. */
  lemma EndVideoInRange(s: VideoState, index: int, n: int)
    ensures EndVideo(s, index).videoId < n <==> index + 1 < n
  {
  }

  /** `video-reset` is idempotent. */
  lemma ResetIdempotent(s: VideoState)
    ensures Reduce(Reduce(s, VideoReset), VideoReset) == Reduce(s, VideoReset)
  {
  }

  /** `video-last` is idempotent. */
  lemma MarkLastIdempotent(s: VideoState)
    ensures Reduce(Reduce(s, VideoLast), VideoLast) == Reduce(s, VideoLast)
  {
  }

  /** `play` twice restores the state. */
  lemma PlayInvolution(s: VideoState)
    ensures Reduce(Reduce(s, Play), Play) == s
  {
  }

  /** `pause` is idempotent. */
  lemma PauseIdempotent(s: VideoState)
    ensures Reduce(Reduce(s, Pause), Pause) == Reduce(s, Pause)
  {
  }

  /** Two clicks away from the last video restore the state. */
  lemma ClickTwiceRestores(s: VideoState)
    requires !s.isLastVideo
    ensures Click(Click(s)) == s
  {
  }

  /** After a click on the replay button the button shows play or pause. */
  lemma ClickOnLastResets(s: VideoState)
    requires s.isLastVideo
    ensures ButtonControl(Click(s)).icon != ReplayIcon
  {
  }

  /** Once the gate is open, the command after the scroll trigger completes
    * plays the current slide, and after a pause it pauses it. */
  lemma CommandAfterScrollAndPause(s: VideoState, loaded: nat)
    requires loaded > READY_THRESHOLD
    ensures Command(ScrollComplete(s), loaded) == PlayCmd(s.videoId)
    ensures Command(Reduce(s, Pause), loaded) == PauseCmd(s.videoId)
  {
  }
}
