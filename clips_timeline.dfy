/** The timeline of the clip results page: seeking by click, shift-drag to mark a
    custom clip of at least five seconds, and zoom in half steps between 1x and 4x */
module ClipsTimeline {
  import opened Js
  import opened Timeline

  /** A custom range handed to `onAddCustomClip` */
  datatype Range = Range(start: real, end: real)

  /** 60 s markers above five minutes, 15 s above one minute, otherwise 5 s */
  function MarkerInterval(duration: real): (k: nat)
    ensures k == 60 <==> duration > 300.0
    ensures k == 15 <==> 60.0 < duration <= 300.0
    ensures k == 5 <==> duration <= 60.0
  {
    if duration > 300.0 then 60 else if duration > 60.0 then 15 else 5
  }

  /** `zoom` is a whole number of half steps */
  predicate HalfStep(zoom: real)
  {
    Floor(zoom * 2.0) as real == zoom * 2.0
  }

  function ZoomIn(zoom: real): (r: real)
    ensures r <= 4.0
    ensures zoom <= 3.5 ==> r == zoom + 0.5
    ensures 1.0 <= zoom <= 4.0 && HalfStep(zoom) ==> 1.0 <= r <= 4.0 && HalfStep(r)
  {
    Min(4.0, zoom + 0.5)
  }

  function ZoomOut(zoom: real): (r: real)
    ensures r >= 1.0
    ensures zoom >= 1.5 ==> r == zoom - 0.5
    ensures 1.0 <= zoom <= 4.0 && HalfStep(zoom) ==> 1.0 <= r <= 4.0 && HalfStep(r)
  {
    Max(1.0, zoom - 0.5)
  }

  /** Zooming in and back out returns to the same zoom below the top, and out and
      back in returns to it above the bottom */
  lemma ZoomRoundTrip(zoom: real)
    ensures 1.0 <= zoom <= 3.5 ==> ZoomOut(ZoomIn(zoom)) == zoom
    ensures 1.5 <= zoom <= 4.0 ==> ZoomIn(ZoomOut(zoom)) == zoom
  {
  }

  /** The span between two drag ends, as the mouse-up handler orders them */
  function Normalised(a: real, b: real): (r: Range)
    ensures r.start <= r.end
    ensures {r.start, r.end} == {a, b}
  {
    Range(Min(a, b), Max(a, b))
  }

  class ClipsTimeline {
    const duration: real
    var zoom: real
    var isDragging: bool
    var dragStart: Option<real>
    var dragEnd: Option<real>

    /** Zoom in range and on a half step; a drag in progress has both ends, and
        both lie on the timeline */
    ghost predicate Valid()
      reads this
    {
      1.0 <= zoom <= 4.0 && HalfStep(zoom) &&
      (isDragging <==> dragStart.Some?) && (dragStart.Some? <==> dragEnd.Some?) &&
      (dragStart.Some? ==> OnTimeline(dragStart.value)) &&
      (dragEnd.Some? ==> OnTimeline(dragEnd.value))
    }

    predicate OnTimeline(t: real)
    {
      0.0 <= t && (0.0 <= duration ==> t <= duration)
    }

    constructor (duration: real)
      ensures this.duration == duration && zoom == 1.0 && !isDragging
      ensures dragStart == None && dragEnd == None && Valid()
    {
      this.duration := duration;
      zoom := 1.0;
      isDragging := false;
      dragStart := None;
      dragEnd := None;
    }

    /** `handleTimelineClick`: seeks unless a drag is in progress */
    method Click(p: Cursor) returns (seek: Option<real>)
      requires Valid() && p.width != 0.0
      ensures isDragging ==> seek == None
      ensures !isDragging ==> seek == Some(TimeFromPosition(p, zoom, duration))
      ensures seek.Some? ==> OnTimeline(seek.value)
    {
      NonZeroWidth(p.width, zoom);
      if isDragging {
        return None;
      }
      seek := Some(TimeFromPosition(p, zoom, duration));
    }

    /** `handleMouseDown`: only with shift held does a drag start, at one point */
    method MouseDown(p: Cursor, shiftKey: bool)
      requires Valid() && p.width != 0.0
      modifies this`isDragging, this`dragStart, this`dragEnd
      ensures Valid()
      ensures shiftKey ==> isDragging && dragStart == dragEnd == Some(TimeFromPosition(p, zoom, duration))
      ensures !shiftKey ==> unchanged(this)
    {
      NonZeroWidth(p.width, zoom);
      if shiftKey {
        isDragging := true;
        var time := TimeFromPosition(p, zoom, duration);
        dragStart := Some(time);
        dragEnd := Some(time);
      }
    }

    /** `handleMouseMove`: a drag follows the cursor with its far end */
    method MouseMove(p: Cursor)
      requires Valid() && p.width != 0.0
      modifies this`dragEnd
      ensures Valid()
      ensures isDragging ==> dragEnd == Some(TimeFromPosition(p, zoom, duration))
      ensures !isDragging ==> dragEnd == old(dragEnd)
    {
      NonZeroWidth(p.width, zoom);
      if isDragging && dragStart.Some? {
        dragEnd := Some(TimeFromPosition(p, zoom, duration));
      }
    }

    /** `handleMouseUp`: a drag of five seconds or more becomes a custom clip, and
        the drag ends whatever its span */
    method MouseUp() returns (custom: Option<Range>)
      requires Valid()
      modifies this`isDragging, this`dragStart, this`dragEnd
      ensures Valid() && !isDragging && dragStart == None && dragEnd == None
      ensures custom.Some? <==>
        old(isDragging) && Normalised(old(dragStart).value, old(dragEnd).value).end -
                           Normalised(old(dragStart).value, old(dragEnd).value).start >= 5.0
      ensures custom.Some? ==> custom.value == Normalised(old(dragStart).value, old(dragEnd).value)
    {
      custom := None;
      if isDragging && dragStart.Some? && dragEnd.Some? {
        var range := Normalised(dragStart.value, dragEnd.value);
        if range.end - range.start >= 5.0 {
          custom := Some(range);
        }
      }
      isDragging := false;
      dragStart := None;
      dragEnd := None;
    }

    method ZoomInClick()
      requires Valid()
      modifies this`zoom
      ensures zoom == ZoomIn(old(zoom)) && Valid()
    {
      zoom := ZoomIn(zoom);
    }

    method ZoomOutClick()
      requires Valid()
      modifies this`zoom
      ensures zoom == ZoomOut(old(zoom)) && Valid()
    {
      zoom := ZoomOut(zoom);
    }
  }
}
