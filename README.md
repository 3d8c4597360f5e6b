# Video carousel playback state machine

A Dafny model of the playback logic of the `VideoCarousel` React component
(`src/components/VideoCarousel.jsx`). The component keeps two pieces of
state. The first is a `video` record with five fields: `isEnd`, `startPlay`,
`videoId`, `isPlaying` and `isLastVideo`. The second is `loadedData`, a
growing list of "metadata loaded" event objects. Discrete events change the
state:

- the reducer `handleProcess(type, index)`, with the cases `video-end`,
  `video-last`, `video-reset`, `play`, `pause` and a default;
- the completion callback of the scroll-triggered tween;
- the video element's `onPlay`;
- the video element's `onLoadedMetadata`;
- a click on the control button.

Two outputs are read from the state. One is the media command issued by the
play/pause effect, gated on readiness. The other is the three-way control
button (replay, play or pause).

Layout:

- `playback.dfy` (module `Playback`): the record, its initial value, the
  reducer's tags and cases, and each `setVideo(prev => ({...prev, ...}))`
  updater as a pure function. Also the effect's command
  `Cmd = PlayCmd(id) | PauseCmd(id) | NoOp`, the button, and lemmas about
  single transitions.
- `events.dfy` (module `Events`): both pieces of state together
  (`Snapshot`), one `Event` per handler, `Step` and `Run` over event
  sequences, and lemmas that hold over every run.
- `carousel.dfy` (module `Carousel`): class `VideoCarousel`. Its mutable
  fields `video` and `loadedData` are replaced by one method per handler.
  Each method is specified against `Events.Step`. A ghost `history` keeps the
  object equal to `Run(Mounted(), history)`, so the run lemmas apply to the
  live object.

Points where the code differs from what the carousel is meant to do; the
model follows the code:

- Ending the last slide is meant to raise the terminal flag instead of
  advancing. The code's `video-end` case has no bounds check: it always
  sets `videoId := index + 1` (`EndPastLastLeavesRange`). Raising the
  terminal flag is the separate `video-last` case, left to the caller.
- In this file nothing dispatches `video-end` or `video-last`; no `onEnded`
  handler is wired. `WiredRunStaysOnFirstSlide` shows the consequence: with
  only the wired events, the carousel never leaves slide 0 and the button
  never shows replay.
- In this code, `pause` always clears `isPlaying`, while `play` toggles it.

## Model

| member | source | states |
|---|---|---|
| `Playback.Initial` | src/components/VideoCarousel.jsx:17-23 | every flag starts false and `videoId` starts at 0 |
| `Playback.ParseAction` | src/components/VideoCarousel.jsx:82-122 | a tag selects a recognised case exactly when it is one of the five tags, and then the case whose own tag it is; only `video-end` carries the index; every other tag falls to the default |
| `Playback.ParseTagOf` | src/components/VideoCarousel.jsx:82-122 | each recognised case is selected by its own tag, whatever index comes with it |
| `Playback.EndVideo` | src/components/VideoCarousel.jsx:83-89 | `video-end` sets `isEnd` and `videoId = index + 1`; `startPlay`, `isPlaying` and `isLastVideo` are unchanged |
| `Playback.EndVideoInRange` | src/components/VideoCarousel.jsx:87 | after `video-end`, `videoId < n` holds exactly when `index + 1 < n` |
| `Playback.MarkLast` | src/components/VideoCarousel.jsx:91-96 | `video-last` sets `isLastVideo`; no other field changes |
| `Playback.MarkLastIdempotent` | src/components/VideoCarousel.jsx:91-96 | `video-last` applied twice equals applying it once |
| `Playback.Reset` | src/components/VideoCarousel.jsx:98-105 | `video-reset` sets `videoId = 0` and clears `isEnd` and `isLastVideo`; `startPlay` and `isPlaying` are kept |
| `Playback.ResetIdempotent` | src/components/VideoCarousel.jsx:98-105 | `video-reset` applied twice equals applying it once |
| `Playback.TogglePlaying` | src/components/VideoCarousel.jsx:107-112 | `play` negates `isPlaying`; no other field changes |
| `Playback.PlayInvolution` | src/components/VideoCarousel.jsx:107-112 | `play` applied twice restores the state |
| `Playback.StopPlaying` | src/components/VideoCarousel.jsx:114-119 | `pause` forces `isPlaying` false; no other field changes |
| `Playback.PauseIdempotent` | src/components/VideoCarousel.jsx:114-119 | `pause` applied twice equals applying it once |
| `Playback.Reduce` | src/components/VideoCarousel.jsx:81-124 | the default case changes nothing; no case touches `startPlay`; only `play`/`pause` change `isPlaying`; only `video-end`/`video-reset` change `videoId` or `isEnd`; only `video-last`/`video-reset` change `isLastVideo` |
| `Playback.HandleProcess` | src/components/VideoCarousel.jsx:81-124 | an unrecognised tag falls to the default case (lines 121-122) and leaves the state unchanged; no tag changes `startPlay` |
| `Playback.ScrollComplete` | src/components/VideoCarousel.jsx:38-44 | the scroll tween's completion sets `startPlay` and `isPlaying`; `videoId`, `isEnd` and `isLastVideo` are kept |
| `Playback.MediaPlayed` | src/components/VideoCarousel.jsx:139-144 | `onPlay` sets `isPlaying`; `startPlay`, `videoId`, `isEnd` and `isLastVideo` are kept |
| `Playback.Command` | src/components/VideoCarousel.jsx:49-57 | no command while at most 3 metadata events have arrived; past the gate it is `Pause(videoId)` when not playing, `Play(videoId)` when playing and started, and none when playing but not started |
| `Playback.CommandAfterScrollAndPause` | src/components/VideoCarousel.jsx:38-57 | once the gate is open, the command after the scroll completion plays the current slide, and the command after `pause` pauses it |
| `Playback.ButtonControl` | src/components/VideoCarousel.jsx:175-176 | replay exactly when `isLastVideo`; otherwise play exactly when not playing, else pause; icon, alt text and click tag always agree |
| `Playback.Click` | src/components/VideoCarousel.jsx:174-177 | a click on replay performs `video-reset`; a click when not on the last video flips `isPlaying` and changes nothing else |
| `Playback.ClickTwiceRestores` | src/components/VideoCarousel.jsx:174-177 | two clicks when not on the last video restore the state |
| `Playback.ClickOnLastResets` | src/components/VideoCarousel.jsx:174-177 | after a click on replay the button shows play or pause, never replay again |
| `Events.Mounted` | src/components/VideoCarousel.jsx:17-26 | the component mounts with the initial record and an empty `loadedData` |
| `Events.Step` | src/components/VideoCarousel.jsx:38-145 | after any event, `startPlay` is true exactly when it was already true or the event is the scroll completion; a metadata event appends its own event object and leaves the record alone; no other event touches `loadedData` |
| `Events.Effect` | src/components/VideoCarousel.jsx:49-57 | reading `loadedData.length` from the component state: no command while it is at most 3; past the gate, play exactly when playing and started, pause exactly when not playing, always aimed at the current `videoId` |
| `Events.RunGrowsLoadedData` | src/components/VideoCarousel.jsx:76-78 | over any run, `loadedData` only grows (the old list is a prefix), by exactly one per metadata event |
| `Events.NoCommandBeforeReady` | src/components/VideoCarousel.jsx:49-57 | from mount, no media command is issued while the run holds at most 3 metadata events, whatever else happened |
| `Events.RunKeepsVideoIdInRange` | src/components/VideoCarousel.jsx:83-89 | with `n` slides, `videoId` stays in `0..n-1` over any run in which every `video-end` index `i` has `0 <= i` and `i + 1 < n` |
| `Events.EndPastLastLeavesRange` | src/components/VideoCarousel.jsx:87 | `video-end` on the last slide `n - 1` moves `videoId` to `n`, outside the slide list |
| `Events.RunKeepsStarted` | src/components/VideoCarousel.jsx:38-124 | once `startPlay` is set, no event clears it |
| `Events.NotStartedWithoutScroll` | src/components/VideoCarousel.jsx:38-44 | without a scroll completion, `startPlay` stays false |
| `Events.WiredRunStaysOnFirstSlide` | src/components/VideoCarousel.jsx:139-176 | with only the handlers the component wires up (scroll, `onPlay`, metadata, button), `videoId` stays 0, `isEnd` and `isLastVideo` stay false, and the button never shows replay |
| `Events.PlaythroughAndReplay` | src/components/VideoCarousel.jsx:38-124 | a concrete run: three metadata events keep the effect silent and the fourth plays slide 0; three `video-end` and one `video-last` reach slide 3 in the terminal state; replay returns to slide 0 with the flags cleared |
| `Carousel.VideoCarousel.constructor` | src/components/VideoCarousel.jsx:17-26 | the object starts in the initial state with no metadata and an empty history |
| `Carousel.VideoCarousel.HandleProcess` | src/components/VideoCarousel.jsx:81-124 | replaces `video` by the reducer's result; `loadedData` is unchanged; `videoId` stays on a slide when the `video-end` index is below the last slide |
| `Carousel.VideoCarousel.OnScrollComplete` | src/components/VideoCarousel.jsx:38-44 | sets `startPlay` and `isPlaying`; nothing else changes |
| `Carousel.VideoCarousel.OnPlay` | src/components/VideoCarousel.jsx:139-144 | sets `isPlaying`; nothing else changes |
| `Carousel.VideoCarousel.HandleLoadedMetaData` | src/components/VideoCarousel.jsx:76-78 | appends the event object to `loadedData`; `video` is unchanged |
| `Carousel.VideoCarousel.OnControlClick` | src/components/VideoCarousel.jsx:176 | hands the button's tag to `handleProcess`: away from the last video it flips `isPlaying` only; on the last video it resets |
| `Carousel.VideoCarousel.PlaybackEffect` | src/components/VideoCarousel.jsx:49-57 | returns the gated command for the current state, and no command while the history holds at most 3 metadata events |
| `Carousel.VideoCarousel.ControlButton` | src/components/VideoCarousel.jsx:175-176 | returns replay, play or pause by the same priority as `ButtonControl` |
| `Carousel.Session` | src/components/VideoCarousel.jsx:38-78 | driving the object: after the scroll completion and three metadata events there is no command; the fourth yields `Play(0)`; a click then yields `Pause(0)` |

## Left out

- JSX rendering and styling (lines 126-181): only the button's icon, alt text and click choice are modelled.
- The GSAP tweens (lines 32-46, 60-73): the scroll-triggered tween is modelled only through its `onComplete` updater, as the `ScrollTriggered` event. When ScrollTrigger fires it, and how it re-arms (`toggleActions`), are decided inside the animation library, which is not part of this model. The progress-span tween's `onUpdate` and `onComplete` are empty in the code, so no progress-percentage behaviour is modelled.
- DOM refs and the browser's `play()`/`pause()` (lines 12-14, 52-54, 138, 167-169): these are foreign calls. The effect's output is the abstract `Cmd`. The JavaScript `TypeError` that `videoRef.current[videoId]` would raise for an out-of-range `videoId` is not modelled; `RunKeepsVideoIdInRange` gives the condition under which it cannot happen.
- React batching, effect scheduling and the effect's dependency list (line 57): `Command` is what the effect issues for a committed state. The model does not capture when React runs the effect, or that it re-runs only when `startPlay`, `videoId`, `isPlaying` or `loadedData` change.
- The slide list from `../constants` and the images from `../utils` are not part of this model. The slide count is the parameter `n` (the class's `slideCount`).
- The DOM event object stored in `loadedData` is opaque (`LoadedEvent(token)`). The `index` that `onLoadedMetadata` passes is recorded in the event but otherwise ignored, as in the code.
- The button's click calls `handleProcess` with no index, so the index is `undefined`. The model passes 0. None of the tags the button can pass reads the index.
- The default case's `return video` hands back the render-time state. No caller uses that value, so only "the state is unchanged" is modelled.
- `videoId` is a JavaScript number; the model uses an unbounded `int`. No value in the code gets anywhere near the range where floating point is inexact.
