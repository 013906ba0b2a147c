/** What the two timeline components share: the cursor-to-time mapping and the
    loop that lays out time markers */
module Timeline {
  import opened Js

  /** A cursor position and the timeline element's box: `clientX`, the box's left
      edge and width, and how far the element is scrolled */
  datatype Cursor = Cursor(clientX: real, left: real, scrollLeft: real, width: real)

  /** The cursor's offset into the content as a share of the zoomed width,
      scaled to the duration */
  function RawTime(p: Cursor, zoom: real, duration: real): real
    requires p.width * zoom != 0.0
  {
    (p.clientX - p.left + p.scrollLeft) / (p.width * zoom) * duration
  }

  /** `getTimeFromPosition`: the cursor's share of the zoomed width, as a time
      clamped to [0, duration] */
  function TimeFromPosition(p: Cursor, zoom: real, duration: real): (r: real)
    requires p.width * zoom != 0.0
    ensures 0.0 <= r
    ensures 0.0 <= duration ==> r <= duration
    ensures 0.0 <= RawTime(p, zoom, duration) <= duration ==> r == RawTime(p, zoom, duration)
  {
    Clamp(0.0, duration, RawTime(p, zoom, duration))
  }

  /** A laid-out timeline has a width, and the zoom is at least 1 */
  lemma NonZeroWidth(width: real, zoom: real)
    requires width != 0.0 && 1.0 <= zoom
    ensures width * zoom != 0.0
  {
  }

  /** Equally spaced from 0: the shape of every marker list */
  predicate Progression(markers: seq<int>, interval: int)
  {
    (|markers| > 0 ==> markers[0] == 0) &&
    forall j :: 0 <= j < |markers| - 1 ==> markers[j + 1] == markers[j] + interval
  }

  /** The marker loop: `for (t = 0; t <= duration; t += interval) markers.push(t)` */
  method Markers(duration: real, interval: nat) returns (markers: seq<int>)
    requires 0 < interval
    ensures Progression(markers, interval)
    ensures forall j :: 0 <= j < |markers| ==> 0 <= markers[j] && markers[j] as real <= duration
    ensures 0.0 <= duration <==> |markers| >= 1
    ensures |markers| > 0 ==> (markers[|markers| - 1] + interval) as real > duration
  {
    markers := [];
    var t := 0;
    while t as real <= duration
      invariant Progression(markers, interval) && 0 <= t
      invariant forall j :: 0 <= j < |markers| ==> 0 <= markers[j] && markers[j] as real <= duration
      invariant |markers| > 0 ==> markers[|markers| - 1] + interval == t
      invariant |markers| == 0 ==> t == 0
      decreases Floor(duration) + interval - t
    {
      markers := markers + [t];
      t := t + interval;
    }
  }

  /** The `j`-th marker is `j * interval` */
  lemma {:induction false} ProgressionAt(markers: seq<int>, interval: int, j: nat)
    requires Progression(markers, interval) && j < |markers|
    ensures markers[j] == j * interval
  {
    if j > 0 {
      ProgressionAt(markers, interval, j - 1);
    }
  }
}
