/** `clipUtils`: the second mock clip generator and its formatters. The random
    draws of each clip are parameters; the title retry loop is replaced by the
    index it stops at. */
module ClipUtils {
  import opened Js
  import opened ClipTypes
  import opened Sorting
  import opened ClipDraws
  import opened TimeText

  /** `formatTimestamp`: minutes as they come, a colon, two-digit seconds */
  function FormatTimestamp(seconds: real): (r: string)
    ensures 0.0 <= seconds ==> ReadsAs(r, Floor(seconds / 60.0), Floor(Rem(seconds, 60.0)))
    ensures 0.0 <= seconds ==> r[..|r| - 3] == Decimal(Floor(seconds / 60.0))
  {
    var mins := Floor(seconds / 60.0);
    var secs := Floor(Rem(seconds, 60.0));
    if seconds >= 0.0 then
      MinutesSeconds(seconds);
      var m, s := Decimal(mins), PadStart(Decimal(secs), 2, '0');
      ParseToRadix(mins, 10);
      TwoDigits(secs);
      ClockReads(m, s, mins, secs);
      m + ":" + s
    else
      IntString(mins) + ":" + PadStart(IntString(secs), 2, '0')
  }

  /** `formatDuration`: the rounded length in seconds below a minute, whole
      minutes with the plural from two on, and otherwise minutes and seconds */
  function FormatDuration(startTime: real, endTime: real): (r: string)
    ensures var d := Round(endTime - startTime);
      d < 60 ==> r == IntString(d) + " seconds"
    ensures var d := Round(endTime - startTime);
      d >= 60 ==> exists m: nat, s: nat :: ShowsMinutes(r, m, s) && m * 60 + s == d && s < 60 && 1 <= m
  {
    var duration := Round(endTime - startTime);
    if duration < 60 then IntString(duration) + " seconds"
    else
      var mins, secs := duration / 60, duration % 60;
      var r := if secs > 0 then Decimal(mins) + "m " + Decimal(secs) + "s"
               else Decimal(mins) + " minute" + (if mins > 1 then "s" else "");
      assert ShowsMinutes(r, mins, secs) && mins * 60 + secs == duration;
      r
  }

  /** `r` shows `m` whole minutes and `s` seconds: `M minute(s)` when `s` is zero,
      `Mm Ss` otherwise */
  predicate ShowsMinutes(r: string, m: nat, s: nat)
  {
    (s == 0 ==> r == Decimal(m) + (if m > 1 then " minutes" else " minute")) &&
    (s > 0 ==> r == Decimal(m) + "m " + Decimal(s) + "s")
  }

  const ClipTitleTemplates: seq<string> := [
    "Epic Moment", "Viral Hook", "Key Insight", "Emotional Peak", "Trending Clip",
    "Must-See Moment", "Highlight Reel", "Engagement Gold", "Scroll Stopper", "Share-Worthy"]

  /** The default of `count` */
  const DefaultCount: nat := 6

  /** The template followed by ` #` and the clip's number */
  function NumberedTitle(template: string, number: nat): string
  {
    template + " #" + Decimal(number)
  }

  /** The text after the last `mark` in `s` */
  function AfterLast(s: string, mark: char): (r: string)
    ensures |r| <= |s| && r == s[|s| - |r|..]
    ensures forall i :: 0 <= i < |r| ==> r[i] != mark
  {
    if s == [] || s[|s| - 1] == mark then []
    else AfterLast(s[..|s| - 1], mark) + [s[|s| - 1]]
  }

  /** Text without `mark` after a `mark` is what `AfterLast` recovers */
  lemma {:induction false} AfterLastMark(a: string, p: string, mark: char)
    requires forall i :: 0 <= i < |p| ==> p[i] != mark
    ensures AfterLast(a + [mark] + p, mark) == p
    decreases |p|
  {
    var s := a + [mark] + p;
    if p != [] {
      var init := p[..|p| - 1];
      assert s[..|s| - 1] == a + [mark] + init;
      AfterLastMark(a, init, mark);
      assert init + [p[|p| - 1]] == p;
    }
  }

  /** Titles with different numbers differ, whatever their templates */
  lemma NumberedTitlesDistinct(t1: string, t2: string, m: nat, n: nat)
    requires NumberedTitle(t1, m) == NumberedTitle(t2, n)
    ensures m == n
  {
    var p, q := Decimal(m), Decimal(n);
    assert NumberedTitle(t1, m) == (t1 + " ") + ['#'] + p;
    assert NumberedTitle(t2, n) == (t2 + " ") + ['#'] + q;
    assert forall i :: 0 <= i < |p| ==> IsDigitIn(p[i], 10);
    assert forall i :: 0 <= i < |q| ==> IsDigitIn(q[i], 10);
    AfterLastMark(t1 + " ", p, '#');
    AfterLastMark(t2 + " ", q, '#');
    DecimalInjective(m, n);
  }

  /** 15 to 60 seconds */
  function ClipDuration(draw: real): real { draw * 45.0 + 15.0 }

  /** The latest start that leaves the clip and ten seconds of margin in the video */
  function MaxStart(d: real, clipDuration: real): (m: real)
    ensures 0.0 <= m
  {
    Max(0.0, d - clipDuration - 10.0)
  }

  function RawScore(d: real, startTime: real, clipDuration: real, randomDraw: real): int
    requires d != 0.0
  {
    var positionFactor := 1.0 - Abs(startTime / d - 0.3);
    var durationFactor := if 30.0 <= clipDuration <= 45.0 then 1.0 else 0.8;
    var randomFactor := 0.7 + randomDraw * 0.3;
    Round(positionFactor * durationFactor * randomFactor * 100.0)
  }

  /** The start of a clip: the `offset` draw scaled to [0, maxStart] */
  function StartTime(d: real, clipDuration: real, offsetDraw: real): (t: real)
    requires Unit(offsetDraw)
    ensures 0.0 <= t <= MaxStart(d, clipDuration)
  {
    Scale(offsetDraw, MaxStart(d, clipDuration))
  }

  /** Clip `i` as the loop body pushes it: `length` draws the duration, `offset`
      the start, `boost` the random factor of the score */
  function GeneratedClip(d: real, i: nat, dr: ClipDraws): Clip
    requires d != 0.0 && dr.title < |ClipTitleTemplates| && ValidDraws(dr)
  {
    var clipDuration := ClipDuration(dr.length);
    var startTime := StartTime(d, clipDuration, dr.offset);
    var endTime := Min(startTime + clipDuration, d);
    var score := RawScore(d, startTime, clipDuration, dr.boost);
    Clip("clip-" + Decimal(i + 1), startTime, endTime,
         NumberedTitle(ClipTitleTemplates[dr.title], i + 1),
         Clamp(score), score > 70, None)
  }

  /** `Math.min(99, Math.max(45, score))` */
  function Clamp(score: int): (r: int)
    ensures 45 <= r <= 99
    ensures r > 70 <==> score > 70
    ensures 45 <= score <= 99 ==> r == score
  {
    MinInt(99, MaxInt(45, score))
  }

  /** Each clip starts in [0, max(0, d - duration - 10)] and ends at the earlier
      of its drawn end and the video's end; when the video has room for the clip
      and the margin it has exactly the drawn duration and ends ten seconds or
      more before the video does. The stored score is clamped to [45, 99] and
      `selected`, computed from the unclamped score, holds exactly when the
      stored score exceeds 70. */
  lemma GeneratedClipFacts(d: real, i: nat, dr: ClipDraws)
    requires d != 0.0 && dr.title < |ClipTitleTemplates| && ValidDraws(dr)
    ensures var c, dur := GeneratedClip(d, i, dr), ClipDuration(dr.length);
      c.id == "clip-" + Decimal(i + 1) &&
      c.title == NumberedTitle(ClipTitleTemplates[dr.title], i + 1) &&
      15.0 <= dur < 60.0 &&
      0.0 <= c.startTime <= MaxStart(d, dur) && c.endTime == Min(c.startTime + dur, d) &&
      c.endTime <= d &&
      (d >= dur + 10.0 ==> c.endTime == c.startTime + dur <= d - 10.0) &&
      45 <= c.score <= 99 && (c.selected <==> c.score > 70)
  {
  }

  /** What the draws must satisfy for the first `count` clips */
  predicate DrawsFor(draws: seq<ClipDraws>, count: nat)
  {
    count <= |draws| &&
    (forall i :: 0 <= i < |draws| ==> ValidDraws(draws[i]) && draws[i].title < |ClipTitleTemplates|) &&
    RetriesEnd(draws, count, |ClipTitleTemplates|)
  }

  /** The clips in generation order */
  function Generated(d: real, count: nat, draws: seq<ClipDraws>): (cs: seq<Clip>)
    requires d != 0.0 && DrawsFor(draws, count)
    ensures |cs| == count
  {
    seq(count, i requires 0 <= i < count => GeneratedClip(d, i, draws[i]))
  }

  /** The facts every generated clip satisfies */
  predicate WellPlaced(c: Clip, d: real)
  {
    0.0 <= c.startTime <= Max(0.0, d - 25.0) && c.endTime <= d &&
    (d >= 70.0 ==> 15.0 <= c.endTime - c.startTime < 60.0 && c.endTime <= d - 10.0) &&
    45 <= c.score <= 99 && (c.selected <==> c.score > 70)
  }

  lemma GeneratedPlaced(d: real, count: nat, draws: seq<ClipDraws>)
    requires d != 0.0 && DrawsFor(draws, count)
    ensures forall c :: c in Generated(d, count, draws) ==> WellPlaced(c, d)
  {
    var built := Generated(d, count, draws);
    forall k | 0 <= k < |built|
      ensures WellPlaced(built[k], d)
    {
      GeneratedClipFacts(d, k, draws[k]);
    }
  }

  /** Ids and titles differ because both carry the clip's number; unlike the
      other generator this does not depend on the retry finding an unused
      template, which it stops doing once all ten are taken */
  lemma GeneratedDistinct(d: real, count: nat, draws: seq<ClipDraws>)
    requires d != 0.0 && DrawsFor(draws, count)
    ensures DistinctIdsAndTitles(Generated(d, count, draws))
  {
    var cs := Generated(d, count, draws);
    forall a, b | 0 <= a < b < |cs|
      ensures cs[a].id != cs[b].id && cs[a].title != cs[b].title
    {
      GeneratedClipFacts(d, a, draws[a]);
      GeneratedClipFacts(d, b, draws[b]);
      if cs[a].id == cs[b].id {
        assert Decimal(a + 1) == cs[a].id[5..] && Decimal(b + 1) == cs[b].id[5..];
        DecimalInjective(a + 1, b + 1);
      }
      if cs[a].title == cs[b].title {
        NumberedTitlesDistinct(ClipTitleTemplates[draws[a].title], ClipTitleTemplates[draws[b].title], a + 1, b + 1);
      }
    }
  }

  /** `generateClips`: the loop pushes one clip per index, then the list is
      sorted by start time */
  method GenerateClips(d: real, count: nat, draws: seq<ClipDraws>) returns (clips: seq<Clip>)
    requires d != 0.0 && DrawsFor(draws, count)
    ensures |clips| == count
    ensures multiset(clips) == multiset(Generated(d, count, draws)) && Sorted(clips, ByStart)
    ensures forall c :: c in clips ==> WellPlaced(c, d)
    ensures DistinctIdsAndTitles(clips)
  {
    var built: seq<Clip> := [];
    var usedTitles: set<nat> := {};
    var i := 0;
    while i < count
      invariant 0 <= i <= count && |built| == i
      invariant forall k :: 0 <= k < i ==> built[k] == GeneratedClip(d, k, draws[k])
      invariant usedTitles == TitlesBefore(draws, i)
    {
      var titleIndex := draws[i].title;
      assert TitlesBefore(draws, i + 1) == usedTitles + {titleIndex};
      usedTitles := usedTitles + {titleIndex};
      built := built + [GeneratedClip(d, i, draws[i])];
      i := i + 1;
    }
    assert built == Generated(d, count, draws);
    clips := Sort(built, ByStart);
    SortedClips(d, count, draws);
  }

  /** What sorting the generated clips keeps */
  lemma SortedClips(d: real, count: nat, draws: seq<ClipDraws>)
    requires d != 0.0 && DrawsFor(draws, count)
    ensures var clips := Sort(Generated(d, count, draws), ByStart);
      |clips| == count && Sorted(clips, ByStart) &&
      (forall c :: c in clips ==> WellPlaced(c, d)) && DistinctIdsAndTitles(clips)
  {
    var built := Generated(d, count, draws);
    ByStartTotal();
    SortSorted(built, ByStart);
    GeneratedPlaced(d, count, draws);
    forall c | c in Sort(built, ByStart)
      ensures WellPlaced(c, d)
    {
      assert c in multiset(built);
    }
    GeneratedDistinct(d, count, draws);
    SortKeepsDistinct(built);
  }
}
