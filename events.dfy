/** The component as a whole: the `video` record together with the
  * `loadedData` list, the discrete events that drive it, and what holds
  * over any sequence of them.
  */
module Events {
  import opened Playback

  /** The DOM event object a `loadedmetadata` notification carries; the
    * component stores it and never looks inside. */
  datatype LoadedEvent = LoadedEvent(token: nat)

  /** Both pieces of component state. */
  datatype Snapshot = Snapshot(video: VideoState, loadedData: seq<LoadedEvent>)

  function Mounted(): (c: Snapshot)
    ensures c.video == Initial() && c.loadedData == []
  {
    Snapshot(Initial(), [])
  }

  /** One discrete event. `Dispatch` is a direct call of `handleProcess`;
    * `ButtonClick` is a click on the control button, whatever it shows. */
  datatype Event =
    | Dispatch(tag: string, index: int)
    | ButtonClick
    | ScrollTriggered
    | MediaPlay
    | MetadataLoaded(slide: int, e: LoadedEvent)

  /** The component state after one event. */
  function Step(c: Snapshot, ev: Event): (r: Snapshot)
    ensures r.video.startPlay == (c.video.startPlay || ev.ScrollTriggered?)
    ensures ev.MetadataLoaded? ==> r.loadedData == c.loadedData + [ev.e] && r.video == c.video
    ensures !ev.MetadataLoaded? ==> r.loadedData == c.loadedData
  {
    match ev
    case Dispatch(tag, index) => c.(video := HandleProcess(c.video, tag, index))
    case ButtonClick => c.(video := Click(c.video))
    case ScrollTriggered => c.(video := ScrollComplete(c.video))
    case MediaPlay => c.(video := MediaPlayed(c.video))
    case MetadataLoaded(_, e) => c.(loadedData := c.loadedData + [e])
  }

  /** The component state after a sequence of events, first to last. */
  function Run(c: Snapshot, evs: seq<Event>): Snapshot
    decreases |evs|
  {
    if evs == [] then c else Run(Step(c, evs[0]), evs[1..])
  }

  /** The media command the effect issues for a component state. */
  function Effect(c: Snapshot): (cmd: Cmd)
    ensures |c.loadedData| <= READY_THRESHOLD ==> cmd == NoOp
    ensures cmd != NoOp ==> cmd.id == c.video.videoId
    ensures cmd.PlayCmd? <==> |c.loadedData| > READY_THRESHOLD && c.video.isPlaying && c.video.startPlay
    ensures cmd.PauseCmd? <==> |c.loadedData| > READY_THRESHOLD && !c.video.isPlaying
  {
    Command(c.video, |c.loadedData|)
  }

  /** How many metadata events a sequence holds. */
  function MetadataCount(evs: seq<Event>): (k: nat)
    ensures k <= |evs|
    decreases |evs|
  {
    if evs == [] then 0
    else (if evs[0].MetadataLoaded? then 1 else 0) + MetadataCount(evs[1..])
  }

  /** An event that cannot move `videoId` outside `0 .. n - 1`: anything but
    * a `video-end` whose index is not in `0 .. n - 2`. */
  predicate KeepsInRange(ev: Event, n: int) {
    ev.Dispatch? && ev.tag == VIDEO_END ==> 0 <= ev.index && ev.index + 1 < n
  }

  /** The events this component wires up itself: the scroll trigger, the
    * media `onPlay`, metadata and button clicks, but no direct dispatch. */
  predicate Wired(ev: Event) {
    !ev.Dispatch?
  }

  // ---------------------------------------------------------------------
  // Properties of runs
  // ---------------------------------------------------------------------

  lemma {:induction false} RunAppend(c: Snapshot, evs: seq<Event>, ev: Event)
    ensures Run(c, evs + [ev]) == Step(Run(c, evs), ev)
    decreases |evs|
  {
    if evs == [] {
      assert [ev][1..] == [];
    } else {
      assert (evs + [ev])[1..] == evs[1..] + [ev];
      RunAppend(Step(c, evs[0]), evs[1..], ev);
    }
  }

  /** Each metadata event appends exactly its own event object; the list
    * only grows, by one per metadata event in the run. */
  lemma {:induction false} RunGrowsLoadedData(c: Snapshot, evs: seq<Event>)
    ensures |Run(c, evs).loadedData| == |c.loadedData| + MetadataCount(evs)
    ensures c.loadedData <= Run(c, evs).loadedData
    decreases |evs|
  {
    if evs != [] {
      RunGrowsLoadedData(Step(c, evs[0]), evs[1..]);
    }
  }

  /** The effect issues no command until more than three metadata events
    * have been received, whatever else happened. */
  lemma NoCommandBeforeReady(evs: seq<Event>)
    requires MetadataCount(evs) <= READY_THRESHOLD
    ensures Effect(Run(Mounted(), evs)) == NoOp
  {
    RunGrowsLoadedData(Mounted(), evs);
  }

  /** With `n` slides, `videoId` stays in `0 .. n - 1` along any run whose
    * `video-end` dispatches all name a slide before the last. */
  lemma {:induction false} RunKeepsVideoIdInRange(c: Snapshot, evs: seq<Event>, n: int)
    requires 0 <= c.video.videoId < n
    requires forall i :: 0 <= i < |evs| ==> KeepsInRange(evs[i], n)
    ensures 0 <= Run(c, evs).video.videoId < n
    decreases |evs|
  {
    if evs != [] {
      assert KeepsInRange(evs[0], n);
      var next := Step(c, evs[0]);
      assert 0 <= next.video.videoId < n;
      forall i | 0 <= i < |evs[1..]|
        ensures KeepsInRange(evs[1..][i], n)
      {
        assert evs[1..][i] == evs[i + 1];
      }
      RunKeepsVideoIdInRange(next, evs[1..], n);
    }
  }

  /** One `video-end` past the last slide breaks the bound. */
  lemma EndPastLastLeavesRange(c: Snapshot, n: int)
    ensures Step(c, Dispatch(VIDEO_END, n - 1)).video.videoId == n
  {
  }

  /** Once started, the carousel stays started: no event clears `startPlay`. */
  lemma {:induction false} RunKeepsStarted(c: Snapshot, evs: seq<Event>)
    requires c.video.startPlay
    ensures Run(c, evs).video.startPlay
    decreases |evs|
  {
    if evs != [] {
      RunKeepsStarted(Step(c, evs[0]), evs[1..]);
    }
  }

  /** Only the scroll trigger starts the carousel. */
  lemma {:induction false} NotStartedWithoutScroll(c: Snapshot, evs: seq<Event>)
    requires !c.video.startPlay
    requires forall i :: 0 <= i < |evs| ==> !evs[i].ScrollTriggered?
    ensures !Run(c, evs).video.startPlay
    decreases |evs|
  {
    if evs != [] {
      assert !evs[0].ScrollTriggered?;
      forall i | 0 <= i < |evs[1..]|
        ensures !evs[1..][i].ScrollTriggered?
      {
        assert evs[1..][i] == evs[i + 1];
      }
      NotStartedWithoutScroll(Step(c, evs[0]), evs[1..]);
    }
  }

  /** With only the events the component wires up itself, the carousel never
    * leaves the first slide and never reaches the end or the terminal state,
    * so the button never shows replay. */
  lemma {:induction false} WiredRunStaysOnFirstSlide(c: Snapshot, evs: seq<Event>)
    requires c.video.videoId == 0 && !c.video.isEnd && !c.video.isLastVideo
    requires forall i :: 0 <= i < |evs| ==> Wired(evs[i])
    ensures Run(c, evs).video.videoId == 0
    ensures !Run(c, evs).video.isEnd && !Run(c, evs).video.isLastVideo
    ensures ButtonControl(Run(c, evs).video).icon != ReplayIcon
    decreases |evs|
  {
    if evs != [] {
      assert Wired(evs[0]);
      var next := Step(c, evs[0]);
      assert next.video.videoId == 0 && !next.video.isEnd && !next.video.isLastVideo;
      forall i | 0 <= i < |evs[1..]|
        ensures Wired(evs[1..][i])
      {
        assert evs[1..][i] == evs[i + 1];
      }
      WiredRunStaysOnFirstSlide(next, evs[1..]);
    }
  }

  /** Concrete runs over four slides: the scroll trigger starts playback and
    * the effect stays silent until the fourth metadata event; slide ends
    * dispatched up to the last slide, then `video-last`, reach the terminal
    * state; a click on replay goes back to the first slide. */
  lemma PlaythroughAndReplay()
    ensures Effect(Run(Mounted(), [ScrollTriggered, MetadataLoaded(0, LoadedEvent(0)),
      MetadataLoaded(1, LoadedEvent(1)), MetadataLoaded(2, LoadedEvent(2))])) == NoOp
    ensures Effect(Run(Mounted(), [ScrollTriggered, MetadataLoaded(0, LoadedEvent(0)),
      MetadataLoaded(1, LoadedEvent(1)), MetadataLoaded(2, LoadedEvent(2)),
      MetadataLoaded(3, LoadedEvent(3))])) == PlayCmd(0)
    ensures Run(Mounted(), [ScrollTriggered, Dispatch(VIDEO_END, 0), Dispatch(VIDEO_END, 1),
      Dispatch(VIDEO_END, 2), Dispatch(VIDEO_LAST, 3)]).video
      == VideoState(true, true, 3, true, true)
    ensures Run(Mounted(), [ScrollTriggered, Dispatch(VIDEO_END, 0), Dispatch(VIDEO_END, 1),
      Dispatch(VIDEO_END, 2), Dispatch(VIDEO_LAST, 3), ButtonClick]).video
      == VideoState(false, true, 0, true, false)
  {
    var s1 := Step(Mounted(), ScrollTriggered);
    var s2 := Step(s1, Dispatch(VIDEO_END, 0));
    var s3 := Step(s2, Dispatch(VIDEO_END, 1));
    var s4 := Step(s3, Dispatch(VIDEO_END, 2));
    var s5 := Step(s4, Dispatch(VIDEO_LAST, 3));
    assert s5.video == VideoState(true, true, 3, true, true);
    assert Run(s5, [ButtonClick]) == Step(s5, ButtonClick);
    assert Run(s4, [Dispatch(VIDEO_LAST, 3), ButtonClick]) == Run(s5, [ButtonClick]);
    assert Run(s3, [Dispatch(VIDEO_END, 2), Dispatch(VIDEO_LAST, 3), ButtonClick])
      == Run(s4, [Dispatch(VIDEO_LAST, 3), ButtonClick]);
    assert Run(s2, [Dispatch(VIDEO_END, 1), Dispatch(VIDEO_END, 2), Dispatch(VIDEO_LAST, 3), ButtonClick])
      == Run(s3, [Dispatch(VIDEO_END, 2), Dispatch(VIDEO_LAST, 3), ButtonClick]);
    assert Run(s1, [Dispatch(VIDEO_END, 0), Dispatch(VIDEO_END, 1), Dispatch(VIDEO_END, 2),
      Dispatch(VIDEO_LAST, 3), ButtonClick])
      == Run(s2, [Dispatch(VIDEO_END, 1), Dispatch(VIDEO_END, 2), Dispatch(VIDEO_LAST, 3), ButtonClick]);
    assert Run(s4, [Dispatch(VIDEO_LAST, 3)]) == s5;
    assert Run(s3, [Dispatch(VIDEO_END, 2), Dispatch(VIDEO_LAST, 3)]) == s5;
    assert Run(s2, [Dispatch(VIDEO_END, 1), Dispatch(VIDEO_END, 2), Dispatch(VIDEO_LAST, 3)]) == s5;
    assert Run(s1, [Dispatch(VIDEO_END, 0), Dispatch(VIDEO_END, 1), Dispatch(VIDEO_END, 2),
      Dispatch(VIDEO_LAST, 3)]) == s5;
  }
}
