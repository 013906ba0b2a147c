/** `ClipPreviewModal`: trimming a clip with a five-second minimum span, and the
    playback rules that keep the preview inside the trimmed range. The video
    element is represented by its `currentTime`, `videoTime`. */
module ClipPreviewModal {
  import opened Js
  import opened ClipTypes

  /** The shortest span the trim buttons leave */
  const MinSpan: real := 5.0

  class TrimModal {
    const clip: Clip
    var startTime: real
    var endTime: real
    var currentTime: real
    var hasChanges: bool
    var isPlaying: bool
    /** The video element's own `currentTime` */
    var videoTime: real

    /** The mount: the range is the clip's, and the video is put at its start */
    constructor (clip: Clip)
      ensures this.clip == clip && startTime == clip.startTime && endTime == clip.endTime
      ensures currentTime == clip.startTime && videoTime == clip.startTime
      ensures !hasChanges && !isPlaying
    {
      this.clip := clip;
      startTime := clip.startTime;
      endTime := clip.endTime;
      currentTime := clip.startTime;
      hasChanges := false;
      isPlaying := false;
      videoTime := clip.startTime;
    }

    /** `timeupdate` with the video at `t`: the shown time follows the video, and on
        reaching the end the video jumps back to the start and stops */
    method TimeUpdate(t: real)
      modifies this`currentTime, this`videoTime, this`isPlaying
      ensures currentTime == t
      ensures t >= endTime ==> videoTime == startTime && !isPlaying
      ensures t < endTime ==> videoTime == t && isPlaying == old(isPlaying)
    {
      videoTime := t;
      currentTime := t;
      if videoTime >= endTime {
        videoTime := startTime;
        isPlaying := false;
      }
    }

    /** `togglePlay`: playing from outside [start, end) first snaps to the start */
    method TogglePlay()
      modifies this`videoTime, this`isPlaying
      ensures isPlaying == !old(isPlaying)
      ensures old(isPlaying) ==> videoTime == old(videoTime)
      ensures !old(isPlaying) && startTime <= old(videoTime) < endTime ==> videoTime == old(videoTime)
      ensures !old(isPlaying) && !(startTime <= old(videoTime) < endTime) ==> videoTime == startTime
    {
      if !isPlaying {
        if videoTime < startTime || videoTime >= endTime {
          videoTime := startTime;
        }
      }
      isPlaying := !isPlaying;
    }

    /** `adjustStartTime`: the start moves by `delta`, but not below 0 and not to
        within five seconds of the end; a video before the new start follows it */
    method AdjustStartTime(delta: real)
      modifies this`startTime, this`hasChanges, this`videoTime
      ensures startTime == NewStart(old(startTime), endTime, delta)
      ensures hasChanges
      ensures videoTime == (if old(videoTime) < startTime then startTime else old(videoTime))
    {
      var newStart := NewStart(startTime, endTime, delta);
      startTime := newStart;
      hasChanges := true;
      if videoTime < newStart {
        videoTime := newStart;
      }
    }

    /** `adjustEndTime`: the end moves by `delta` but stays five seconds after the
        start; nothing bounds it by the video's length */
    method AdjustEndTime(delta: real)
      modifies this`endTime, this`hasChanges
      ensures endTime == NewEnd(startTime, old(endTime), delta)
      ensures hasChanges
    {
      endTime := NewEnd(startTime, endTime, delta);
      hasChanges := true;
    }

    /** `resetTrim` */
    method ResetTrim()
      modifies this`startTime, this`endTime, this`hasChanges, this`videoTime
      ensures startTime == clip.startTime && endTime == clip.endTime && !hasChanges
      ensures videoTime == clip.startTime
    {
      startTime := clip.startTime;
      endTime := clip.endTime;
      hasChanges := false;
      videoTime := clip.startTime;
    }

    /** What `handleSave` passes to `onSave` */
    function Saved(): (c: Clip)
      reads this
      ensures c.startTime == startTime && c.endTime == endTime
      ensures c.id == clip.id && c.title == clip.title && c.score == clip.score
      ensures c.selected == clip.selected && c.thumbnail == clip.thumbnail
    {
      clip.(startTime := startTime, endTime := endTime)
    }

    /** `handleSeek`: the slider's value becomes the time */
    method HandleSeek(time: real)
      modifies this`videoTime, this`currentTime
      ensures videoTime == time && currentTime == time
    {
      videoTime := time;
      currentTime := time;
    }
  }

  /** `Math.max(0, Math.min(endTime - 5, startTime + delta))` */
  function NewStart(startTime: real, endTime: real, delta: real): (r: real)
    ensures 0.0 <= r
    ensures endTime >= MinSpan ==> endTime - r >= MinSpan
    ensures 0.0 <= startTime + delta <= endTime - MinSpan ==> r == startTime + delta
  {
    Max(0.0, Min(endTime - MinSpan, startTime + delta))
  }

  /** `Math.max(startTime + 5, endTime + delta)` */
  function NewEnd(startTime: real, endTime: real, delta: real): (r: real)
    ensures r - startTime >= MinSpan
    ensures r >= endTime + delta
    ensures endTime + delta >= startTime + MinSpan ==> r == endTime + delta
  {
    Max(startTime + MinSpan, endTime + delta)
  }

  /** Saving an untouched trim gives back the clip itself */
  lemma SaveUntouched(m: TrimModal)
    requires m.startTime == m.clip.startTime && m.endTime == m.clip.endTime
    ensures m.Saved() == m.clip
  {
  }

  /** Moving the start and moving it back restores it, as long as neither move
      meets a bound */
  lemma StartMovesBack(startTime: real, endTime: real, delta: real)
    requires 0.0 <= startTime + delta <= endTime - MinSpan && 0.0 <= startTime <= endTime - MinSpan
    ensures NewStart(NewStart(startTime, endTime, delta), endTime, -delta) == startTime
  {
  }
}
