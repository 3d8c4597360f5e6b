/** The mounted component: the two pieces of React state as mutable fields,
  * one method per handler that replaces them, and the two outputs read
  * from them. Each handler is specified by the event it stands for in
  * `Events.Step`, and a ghost history of those events keeps the object
  * equal to the run of that history from mount, so every property of
  * runs holds of the live object.
  */
module Carousel {
  import opened Playback
  import opened Events

  class VideoCarousel {
    /** The `video` state record. */
    var video: VideoState
    /** The `loadedData` list of metadata events. */
    var loadedData: seq<LoadedEvent>
    /** The number of slides rendered (the slide list itself is not modelled). */
    const slideCount: nat
    /** Every event handled since mount, oldest first. */
    ghost var history: seq<Event>

    function State(): Snapshot
      reads this
    {
      Snapshot(video, loadedData)
    }

    ghost predicate Valid()
      reads this
    {
      State() == Run(Mounted(), history)
    }

    /** `videoId` names one of the rendered slides. */
    predicate OnSlide()
      reads this
    {
      0 <= video.videoId < slideCount
    }

    constructor (slideCount: nat)
      ensures Valid() && history == []
      ensures video == Initial() && loadedData == []
      ensures this.slideCount == slideCount
    {
      video := Initial();
      loadedData := [];
      this.slideCount := slideCount;
      history := [];
    }

    /** `handleProcess(type, index)`. */
    method HandleProcess(tag: string, index: int)
      requires Valid()
      modifies this
      ensures Valid() && history == old(history) + [Dispatch(tag, index)]
      ensures video == Playback.HandleProcess(old(video), tag, index)
      ensures loadedData == old(loadedData)
      ensures old(OnSlide()) && KeepsInRange(Dispatch(tag, index), slideCount) ==> OnSlide()
    {
      RunAppend(Mounted(), history, Dispatch(tag, index));
      video := Playback.HandleProcess(video, tag, index);
      history := history + [Dispatch(tag, index)];
    }

    /** The scroll-trigger tween's `onComplete`. */
    method OnScrollComplete()
      requires Valid()
      modifies this
      ensures Valid() && history == old(history) + [ScrollTriggered]
      ensures video == old(video).(startPlay := true, isPlaying := true)
      ensures loadedData == old(loadedData)
    {
      RunAppend(Mounted(), history, ScrollTriggered);
      video := ScrollComplete(video);
      history := history + [ScrollTriggered];
    }

    /** The media element's `onPlay`. */
    method OnPlay()
      requires Valid()
      modifies this
      ensures Valid() && history == old(history) + [MediaPlay]
      ensures video == old(video).(isPlaying := true)
      ensures loadedData == old(loadedData)
    {
      RunAppend(Mounted(), history, MediaPlay);
      video := MediaPlayed(video);
      history := history + [MediaPlay];
    }

    /** `handleLoadedMetaData(index, event)`: append the event object. */
    method HandleLoadedMetaData(index: int, event: LoadedEvent)
      requires Valid()
      modifies this
      ensures Valid() && history == old(history) + [MetadataLoaded(index, event)]
      ensures loadedData == old(loadedData) + [event]
      ensures video == old(video)
    {
      RunAppend(Mounted(), history, MetadataLoaded(index, event));
      loadedData := loadedData + [event];
      history := history + [MetadataLoaded(index, event)];
    }

    /** A click on the control button: whatever tag the button currently
      * carries is handed to `handleProcess`. */
    method OnControlClick()
      requires Valid()
      modifies this
      ensures Valid() && history == old(history) + [ButtonClick]
      ensures video == Playback.HandleProcess(old(video), ButtonControl(old(video)).onClick, 0)
      ensures !old(video).isLastVideo ==> video == old(video).(isPlaying := !old(video).isPlaying)
      ensures old(video).isLastVideo ==> video == Reset(old(video))
      ensures loadedData == old(loadedData)
    {
      RunAppend(Mounted(), history, ButtonClick);
      var control := ButtonControl(video);
      video := Playback.HandleProcess(video, control.onClick, 0);
      history := history + [ButtonClick];
    }

    /** The play/pause effect: the command it issues on the current state.
      * Before the fourth metadata event of the history it issues none. */
    method PlaybackEffect() returns (cmd: Cmd)
      requires Valid()
      ensures cmd == Command(video, |loadedData|)
      ensures MetadataCount(history) <= READY_THRESHOLD ==> cmd == NoOp
    {
      RunGrowsLoadedData(Mounted(), history);
      if |loadedData| > READY_THRESHOLD {
        if !video.isPlaying {
          cmd := PauseCmd(video.videoId);
        } else if video.startPlay {
          cmd := PlayCmd(video.videoId);
        } else {
          cmd := NoOp;
        }
      } else {
        cmd := NoOp;
      }
    }

    /** The control button as currently shown. */
    method ControlButton() returns (control: Control)
      ensures control == ButtonControl(video)
    {
      control := ButtonControl(video);
    }
  }

  /** A session driven through the object: after mount and the scroll
    * trigger, three metadata events leave the effect silent, the fourth
    * opens the gate and plays the first slide; a click pauses it and the
    * effect then pauses the same slide. */
  method Session() returns (first: Cmd, second: Cmd)
    ensures first == PlayCmd(0) && second == PauseCmd(0)
  {
    var carousel := new VideoCarousel(4);
    carousel.OnScrollComplete();
    carousel.HandleLoadedMetaData(0, LoadedEvent(0));
    carousel.HandleLoadedMetaData(1, LoadedEvent(1));
    carousel.HandleLoadedMetaData(2, LoadedEvent(2));
    var early := carousel.PlaybackEffect();
    assert early == NoOp;
    carousel.HandleLoadedMetaData(3, LoadedEvent(3));
    first := carousel.PlaybackEffect();
    carousel.OnControlClick();
    second := carousel.PlaybackEffect();
  }
}
