/** The editor's timeline: a plain press seeks and scrubs, a shift press selects
    a range that becomes a clip when longer than five seconds, and zoom scales by
    1.5 between 1x and 4x */
module EditorTimeline {
  import opened Js
  import opened Timeline

  /** 60 s markers above five minutes, 30 s above one minute, otherwise 10 s */
  function MarkerInterval(duration: real): (k: nat)
    ensures k == 60 <==> duration > 300.0
    ensures k == 30 <==> 60.0 < duration <= 300.0
    ensures k == 10 <==> duration <= 60.0
  {
    if duration > 300.0 then 60 else if duration > 60.0 then 30 else 10
  }

  function ZoomIn(zoom: real): (r: real)
    ensures r <= 4.0
    ensures zoom * 1.5 <= 4.0 ==> r == zoom * 1.5
    ensures 1.0 <= zoom ==> 1.0 <= r
  {
    Min(zoom * 1.5, 4.0)
  }

  function ZoomOut(zoom: real): (r: real)
    ensures 1.0 <= r
    ensures zoom / 1.5 >= 1.0 ==> r == zoom / 1.5
    ensures zoom <= 4.0 ==> r <= 4.0
  {
    Max(zoom / 1.5, 1.0)
  }

  /** Zooming in and back out returns to the same zoom while the top is not hit */
  lemma ZoomRoundTrip(zoom: real)
    requires 1.0 <= zoom && zoom * 1.5 <= 4.0
    ensures ZoomOut(ZoomIn(zoom)) == zoom
  {
    assert zoom * 1.5 / 1.5 == zoom;
  }

  /** A range handed to `onClipCreate` */
  datatype Range = Range(start: real, end: real)

  class EditorTimeline {
    const duration: real
    /** Whether an `onClipCreate` callback was passed */
    const canCreate: bool
    var zoom: real
    var isDragging: bool
    var isSelecting: bool
    var selectionStart: Option<real>
    var selectionEnd: Option<real>
    var hoverTime: Option<real>

    ghost predicate Valid()
      reads this
    {
      1.0 <= zoom <= 4.0 && (selectionStart.Some? <==> selectionEnd.Some?)
    }

    constructor (duration: real, canCreate: bool)
      ensures this.duration == duration && this.canCreate == canCreate && zoom == 1.0
      ensures !isDragging && !isSelecting && selectionStart == None && selectionEnd == None
      ensures hoverTime == None && Valid()
    {
      this.duration := duration;
      this.canCreate := canCreate;
      zoom := 1.0;
      isDragging := false;
      isSelecting := false;
      selectionStart := None;
      selectionEnd := None;
      hoverTime := None;
    }

    /** `handleMouseDown`: shift starts a selection at the cursor; a plain press
        seeks there and starts scrubbing */
    method MouseDown(p: Cursor, shiftKey: bool) returns (seek: Option<real>)
      requires Valid() && p.width != 0.0
      modifies this`isDragging, this`isSelecting, this`selectionStart, this`selectionEnd
      ensures Valid()
      ensures shiftKey ==> (isSelecting && seek == None &&
                            selectionStart == selectionEnd == Some(TimeFromPosition(p, zoom, duration)) &&
                            isDragging == old(isDragging))
      ensures !shiftKey ==> (isDragging && seek == Some(TimeFromPosition(p, zoom, duration)) &&
                             isSelecting == old(isSelecting) && selectionStart == old(selectionStart) &&
                             selectionEnd == old(selectionEnd))
    {
      NonZeroWidth(p.width, zoom);
      var time := TimeFromPosition(p, zoom, duration);
      if shiftKey {
        isSelecting := true;
        selectionStart := Some(time);
        selectionEnd := Some(time);
        seek := None;
      } else {
        isDragging := true;
        seek := Some(time);
      }
    }

    /** `handleMouseMove`: the hover follows the cursor; scrubbing seeks, and
        otherwise a selection follows with its far end */
    method MouseMove(p: Cursor) returns (seek: Option<real>)
      requires Valid() && p.width != 0.0
      modifies this`hoverTime, this`selectionEnd
      ensures Valid()
      ensures hoverTime == Some(TimeFromPosition(p, zoom, duration))
      ensures isDragging ==> seek == Some(TimeFromPosition(p, zoom, duration)) && selectionEnd == old(selectionEnd)
      ensures !isDragging ==> seek == None
      ensures !isDragging && isSelecting && selectionStart.Some? ==>
        selectionEnd == Some(TimeFromPosition(p, zoom, duration))
      ensures !isDragging && !(isSelecting && selectionStart.Some?) ==> selectionEnd == old(selectionEnd)
    {
      NonZeroWidth(p.width, zoom);
      var time := TimeFromPosition(p, zoom, duration);
      hoverTime := Some(time);
      seek := None;
      if isDragging {
        seek := Some(time);
      } else if isSelecting && selectionStart.Some? {
        selectionEnd := Some(time);
      }
    }

    /** `handleMouseUp`: a selection longer than five seconds becomes a clip when
        there is a callback; scrubbing and selecting both end */
    method MouseUp() returns (created: Option<Range>)
      requires Valid()
      modifies this`isDragging, this`isSelecting, this`selectionStart, this`selectionEnd
      ensures Valid() && !isDragging && !isSelecting && selectionStart == None && selectionEnd == None
      ensures created.Some? ==> (old(isSelecting) && canCreate && old(selectionStart).Some? &&
                                 created.value.start == Min(old(selectionStart).value, old(selectionEnd).value) &&
                                 created.value.end == Max(old(selectionStart).value, old(selectionEnd).value) &&
                                 created.value.end - created.value.start > 5.0)
      ensures created.None? && old(isSelecting) && canCreate && old(selectionStart).Some? ==>
        Max(old(selectionStart).value, old(selectionEnd).value) -
        Min(old(selectionStart).value, old(selectionEnd).value) <= 5.0
    {
      created := None;
      if isSelecting && selectionStart.Some? && selectionEnd.Some? {
        var start := Min(selectionStart.value, selectionEnd.value);
        var end := Max(selectionStart.value, selectionEnd.value);
        if end - start > 5.0 && canCreate {
          created := Some(Range(start, end));
        }
      }
      isDragging := false;
      isSelecting := false;
      selectionStart := None;
      selectionEnd := None;
    }

    /** `handleMouseLeave`: the hover goes and scrubbing stops; a selection stays */
    method MouseLeave()
      requires Valid()
      modifies this`hoverTime, this`isDragging
      ensures Valid() && hoverTime == None && !isDragging
    {
      hoverTime := None;
      if isDragging {
        isDragging := false;
      }
    }

    method ZoomInClick()
      requires Valid()
      modifies this`zoom
      ensures zoom == ZoomIn(old(zoom)) && Valid()
    {
      zoom := ZoomIn(zoom);
    }

    method ZoomOutClick()
      requires Valid()
      modifies this`zoom
      ensures zoom == ZoomOut(old(zoom)) && Valid()
    {
      zoom := ZoomOut(zoom);
    }
  }
}
