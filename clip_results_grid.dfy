/** `ClipResultsGrid`: the selected-clip counter and the select-all / deselect-all buttons */
module ClipResultsGrid {
  import opened Js
  import opened ClipTypes

  /** The ids of a clip list, in order */
  function Ids(clips: seq<Clip>): (r: seq<string>)
    ensures |r| == |clips| && forall i :: 0 <= i < |clips| ==> r[i] == clips[i].id
  {
    seq(|clips|, i requires 0 <= i < |clips| => clips[i].id)
  }

  predicate IsSelected(c: Clip) { c.selected }

  /** `selectedCount`: the number of clips marked selected */
  function SelectedCount(clips: seq<Clip>): (r: nat)
    ensures r <= |clips|
    ensures r == |clips| <==> forall i :: 0 <= i < |clips| ==> clips[i].selected
    ensures r == 0 <==> forall i :: 0 <= i < |clips| ==> !clips[i].selected
  {
    CountExtremes(clips);
    Count(clips, IsSelected)
  }

  lemma {:induction false} CountExtremes(clips: seq<Clip>)
    ensures Count(clips, IsSelected) == |clips| <==> forall i :: 0 <= i < |clips| ==> clips[i].selected
    ensures Count(clips, IsSelected) == 0 <==> forall i :: 0 <= i < |clips| ==> !clips[i].selected
    decreases |clips|
  {
    if clips != [] {
      CountExtremes(clips[1..]);
      assert forall i :: 1 <= i < |clips| ==> clips[i] == clips[1..][i - 1];
      if !clips[0].selected {
        assert Count(clips, IsSelected) <= |clips[1..]|;
      }
    }
  }

  /** The parent's `onSelectClip` under toggle semantics: every clip with that id flips */
  function ToggleSelect(clips: seq<Clip>, id: string): (r: seq<Clip>)
    ensures |r| == |clips|
    ensures forall i :: 0 <= i < |clips| ==>
      r[i] == if clips[i].id == id then clips[i].(selected := !clips[i].selected) else clips[i]
  {
    seq(|clips|, i requires 0 <= i < |clips| =>
      if clips[i].id == id then clips[i].(selected := !clips[i].selected) else clips[i])
  }

  /** The toggle calls applied one after another, each to the result of the last */
  function ApplyCalls(clips: seq<Clip>, calls: seq<string>): (r: seq<Clip>)
    decreases |calls|
  {
    if calls == [] then clips else ApplyCalls(ToggleSelect(clips, calls[0]), calls[1..])
  }

  /** Distinct calls flip exactly the clips whose id was called, and touch nothing else */
  lemma {:induction false} ApplyFlips(clips: seq<Clip>, calls: seq<string>)
    requires NoDup(calls)
    ensures |ApplyCalls(clips, calls)| == |clips|
    ensures forall i :: 0 <= i < |clips| ==>
      ApplyCalls(clips, calls)[i] ==
        if clips[i].id in calls then clips[i].(selected := !clips[i].selected) else clips[i]
    decreases |calls|
  {
    if calls != [] {
      var next := ToggleSelect(clips, calls[0]);
      ApplyFlips(next, calls[1..]);
      forall i | 0 <= i < |clips|
        ensures ApplyCalls(clips, calls)[i] ==
          if clips[i].id in calls then clips[i].(selected := !clips[i].selected) else clips[i]
      {
        assert calls[0] !in calls[1..];
        assert clips[i].id in calls <==> clips[i].id == calls[0] || clips[i].id in calls[1..];
      }
    }
  }

  /** The `forEach` of both buttons: one call per clip whose flag equals `want`, in list order */
  method ToggleCalls(clips: seq<Clip>, want: bool) returns (calls: seq<string>)
    ensures calls == Ids(Filter(clips, (c: Clip) => c.selected == want))
  {
    calls := [];
    var i := 0;
    while i < |clips|
      invariant 0 <= i <= |clips|
      invariant calls == Ids(Filter(clips[..i], (c: Clip) => c.selected == want))
    {
      assert clips[..i + 1] == clips[..i] + [clips[i]];
      FilterAppend(clips[..i], [clips[i]], (c: Clip) => c.selected == want);
      if clips[i].selected == want {
        calls := calls + [clips[i].id];
      }
      i := i + 1;
    }
    assert clips[..i] == clips;
  }

  /** `selectAll`: toggle each clip that is not selected */
  method SelectAll(clips: seq<Clip>) returns (calls: seq<string>)
    ensures calls == Ids(Filter(clips, (c: Clip) => c.selected == false))
  {
    calls := ToggleCalls(clips, false);
  }

  /** `deselectAll`: toggle each clip that is selected */
  method DeselectAll(clips: seq<Clip>) returns (calls: seq<string>)
    ensures calls == Ids(Filter(clips, (c: Clip) => c.selected == true))
  {
    calls := ToggleCalls(clips, true);
  }

  /** With distinct clip ids, the calls name exactly the clips whose flag equals `want`,
      once each */
  lemma {:induction false} CallsAreExactly(clips: seq<Clip>, want: bool)
    requires NoDup(Ids(clips))
    ensures NoDup(Ids(Filter(clips, (c: Clip) => c.selected == want)))
    ensures forall i :: 0 <= i < |clips| ==>
      (clips[i].id in Ids(Filter(clips, (c: Clip) => c.selected == want)) <==> clips[i].selected == want)
    decreases |clips|
  {
    var p := (c: Clip) => c.selected == want;
    if clips != [] {
      var tail := clips[1..];
      assert Ids(tail) == Ids(clips)[1..];
      CallsAreExactly(tail, want);
      var ft := Filter(tail, p);
      assert clips[0].id !in Ids(tail);
      assert clips[0].id !in Ids(ft) by {
        forall k | 0 <= k < |ft| ensures ft[k].id != clips[0].id {
          assert ft[k] in tail;
        }
      }
      if p(clips[0]) {
        assert Filter(clips, p) == [clips[0]] + ft;
        assert Ids(Filter(clips, p)) == [clips[0].id] + Ids(ft);
      } else {
        assert Filter(clips, p) == ft;
      }
      forall i | 1 <= i < |clips|
        ensures clips[i].id in Ids(Filter(clips, p)) <==> clips[i].selected == want
      {
        assert clips[i] == tail[i - 1];
        assert clips[i].id != clips[0].id;
      }
    }
  }

  /** Under toggle semantics, select-all leaves every clip selected and changes no other field */
  lemma SelectAllSelectsEvery(clips: seq<Clip>)
    requires NoDup(Ids(clips))
    ensures var r := ApplyCalls(clips, Ids(Filter(clips, (c: Clip) => c.selected == false)));
      |r| == |clips| && (forall i :: 0 <= i < |clips| ==> r[i] == clips[i].(selected := true)) &&
      SelectedCount(r) == |clips|
  {
    CallsAreExactly(clips, false);
    ApplyFlips(clips, Ids(Filter(clips, (c: Clip) => c.selected == false)));
  }

  /** Under toggle semantics, deselect-all leaves every clip unselected and changes no other field */
  lemma DeselectAllClearsEvery(clips: seq<Clip>)
    requires NoDup(Ids(clips))
    ensures var r := ApplyCalls(clips, Ids(Filter(clips, (c: Clip) => c.selected == true)));
      |r| == |clips| && (forall i :: 0 <= i < |clips| ==> r[i] == clips[i].(selected := false)) &&
      SelectedCount(r) == 0
  {
    CallsAreExactly(clips, true);
    ApplyFlips(clips, Ids(Filter(clips, (c: Clip) => c.selected == true)));
  }

  /** Select-all on a fully selected list makes no call at all, so it is idempotent */
  lemma SelectAllWhenAllSelected(clips: seq<Clip>)
    requires SelectedCount(clips) == |clips|
    ensures Filter(clips, (c: Clip) => c.selected == false) == []
  {
    FilterNone(clips, (c: Clip) => c.selected == false);
  }
}
