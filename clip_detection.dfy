/** `clipDetection`: the mock clip detector and its formatters. The random draws
    of each clip are parameters; the title retry loop is replaced by the index it
    stops at. */
module ClipDetection {
  import opened Js
  import opened ClipTypes
  import opened Sorting
  import opened ClipDraws
  import opened TimeText

  const TitleSuggestions: seq<string> := [
    "The Big Reveal Moment", "Unexpected Plot Twist", "Viral-Worthy Reaction",
    "Key Insight Highlight", "Emotional Peak", "Hilarious Moment", "Expert Tip Segment",
    "Behind The Scenes", "Hot Take Alert", "Must-See Moment", "Game-Changing Advice",
    "Shocking Discovery"]

  lemma TitleSuggestionsDistinct()
    ensures |TitleSuggestions| == 12
    ensures forall a, b :: 0 <= a < b < 12 ==> TitleSuggestions[a] != TitleSuggestions[b]
  {
  }

  /** Between five and eight clips, one per 30 s of video in between */
  function NumClips(d: real): (n: nat)
    ensures 5 <= n <= 8
    ensures 5 < n < 8 ==> n == Floor(d / 30.0)
  {
    MinInt(8, MaxInt(5, Floor(d / 30.0)))
  }

  /** The start of clip `i` of `n`: a jittered even spread, kept in [0, d - 60] */
  function StartTime(d: real, n: nat, i: nat, offsetDraw: real): real
  {
    var segment := d / (n + 1) as real;
    var base := segment * (i + 1) as real;
    var offset := (offsetDraw - 0.5) * segment * 0.6;
    Max(0.0, Min(d - 60.0, base + offset))
  }

  /** 15 to 60 seconds */
  function ClipLength(draw: real): real { draw * 45.0 + 15.0 }

  function RawScore(d: real, startTime: real, endTime: real, boostDraw: real): int
    requires d != 0.0
  {
    var positionScore := 1.0 - Abs(startTime / d - 0.5) * 0.4;
    var durationScore := 1.0 - ((endTime - startTime) / 60.0) * 0.3;
    Round((positionScore + durationScore + boostDraw * 0.2) * 50.0 + 25.0)
  }

  /** Clip `i` as the loop body pushes it */
  function MockClip(d: real, n: nat, i: nat, dr: ClipDraws): Clip
    requires d != 0.0 && dr.title < |TitleSuggestions|
  {
    var startTime := StartTime(d, n, i, dr.offset);
    var endTime := Min(d, startTime + ClipLength(dr.length));
    var score := RawScore(d, startTime, endTime, dr.boost);
    Clip("clip-" + Decimal(i + 1), startTime, endTime, TitleSuggestions[dr.title],
         MinInt(98, MaxInt(45, score)), score > 70, None)
  }

  /** Each clip starts in [0, max(0, d - 60)] and ends at the earlier of the video's
      end and its drawn length; for a positive duration it ends after it starts and
      within the video, and from a minute of video on it has exactly the drawn
      length. The clamped score is in [45, 98], and `selected`, computed from the
      unclamped score, holds exactly when the stored score exceeds 70. */
  lemma MockClipFacts(d: real, n: nat, i: nat, dr: ClipDraws)
    requires d != 0.0 && dr.title < |TitleSuggestions| && Unit(dr.length)
    ensures var c := MockClip(d, n, i, dr);
      c.id == "clip-" + Decimal(i + 1) && c.title == TitleSuggestions[dr.title] &&
      0.0 <= c.startTime <= Max(0.0, d - 60.0) &&
      c.endTime == Min(d, c.startTime + ClipLength(dr.length)) &&
      (d > 0.0 ==> c.startTime < c.endTime <= d) &&
      (d >= 60.0 ==> c.endTime - c.startTime == ClipLength(dr.length)) &&
      45 <= c.score <= 98 && (c.selected <==> c.score > 70)
  {
  }

  /** What the draws must satisfy for the first `n` clips */
  predicate DrawsFor(draws: seq<ClipDraws>, n: nat)
  {
    n <= |draws| &&
    (forall i :: 0 <= i < |draws| ==> ValidDraws(draws[i]) && draws[i].title < |TitleSuggestions|) &&
    RetriesEnd(draws, n, |TitleSuggestions|)
  }

  /** The clips in generation order */
  function Generated(d: real, draws: seq<ClipDraws>): (cs: seq<Clip>)
    requires d != 0.0 && DrawsFor(draws, NumClips(d))
    ensures |cs| == NumClips(d)
  {
    var n := NumClips(d);
    seq(n, i requires 0 <= i < n => MockClip(d, n, i, draws[i]))
  }

  /** Ids and titles of the generated clips are pairwise distinct: `clip-<i+1>`
      numbers differ, and at most eight of twelve titles are ever taken, so the
      retry always ends on an unused one */
  lemma {:induction false} GeneratedDistinct(d: real, draws: seq<ClipDraws>)
    requires d != 0.0 && DrawsFor(draws, NumClips(d))
    ensures DistinctIdsAndTitles(Generated(d, draws))
  {
    var cs := Generated(d, draws);
    TitleSuggestionsDistinct();
    forall a, b | 0 <= a < b < |cs|
      ensures cs[a].id != cs[b].id && cs[a].title != cs[b].title
    {
      MockClipFacts(d, |cs|, a, draws[a]);
      MockClipFacts(d, |cs|, b, draws[b]);
      if cs[a].id == cs[b].id {
        var pa, pb := Decimal(a + 1), Decimal(b + 1);
        assert pa == cs[a].id[5..] && pb == cs[b].id[5..];
        DecimalInjective(a + 1, b + 1);
      }
      TitlesBeforeSize(draws, b);
      RetryEndsAt(draws, |cs|, b, |TitleSuggestions|);
      assert draws[a].title in TitlesBefore(draws, b);
      assert draws[b].title != draws[a].title;
    }
  }

  /** The facts every generated clip satisfies */
  predicate WellPlaced(c: Clip, d: real)
  {
    0.0 <= c.startTime <= Max(0.0, d - 60.0) && (d > 0.0 ==> c.startTime < c.endTime <= d) &&
    45 <= c.score <= 98 && (c.selected <==> c.score > 70)
  }

  /** `generateMockClips`: the loop pushes one clip per index, then the list is
      sorted by start time */
  method GenerateMockClips(d: real, draws: seq<ClipDraws>) returns (clips: seq<Clip>)
    requires d != 0.0 && DrawsFor(draws, NumClips(d))
    ensures |clips| == NumClips(d) && 5 <= |clips| <= 8
    ensures multiset(clips) == multiset(Generated(d, draws)) && Sorted(clips, ByStart)
    ensures forall c :: c in clips ==> WellPlaced(c, d)
    ensures DistinctIdsAndTitles(clips)
  {
    var n := NumClips(d);
    var built: seq<Clip> := [];
    var usedTitles: set<nat> := {};
    var i := 0;
    while i < n
      invariant 0 <= i <= n && |built| == i
      invariant forall k :: 0 <= k < i ==> built[k] == MockClip(d, n, k, draws[k])
      invariant usedTitles == TitlesBefore(draws, i)
    {
      var titleIndex := draws[i].title;
      assert TitlesBefore(draws, i + 1) == usedTitles + {titleIndex};
      usedTitles := usedTitles + {titleIndex};
      built := built + [MockClip(d, n, i, draws[i])];
      i := i + 1;
    }
    assert built == Generated(d, draws);
    clips := Sort(built, ByStart);
    SortedClips(d, draws);
  }

  /** What sorting the generated clips keeps: their number, their facts, and the
      distinctness of ids and titles */
  lemma SortedClips(d: real, draws: seq<ClipDraws>)
    requires d != 0.0 && DrawsFor(draws, NumClips(d))
    ensures var clips := Sort(Generated(d, draws), ByStart);
      |clips| == NumClips(d) && Sorted(clips, ByStart) &&
      (forall c :: c in clips ==> WellPlaced(c, d)) && DistinctIdsAndTitles(clips)
  {
    var built := Generated(d, draws);
    ByStartTotal();
    SortSorted(built, ByStart);
    SortedClipsPlaced(d, draws);
    SortedClipsDistinct(d, draws);
  }

  lemma SortedClipsPlaced(d: real, draws: seq<ClipDraws>)
    requires d != 0.0 && DrawsFor(draws, NumClips(d))
    ensures forall c :: c in Sort(Generated(d, draws), ByStart) ==> WellPlaced(c, d)
  {
    var built := Generated(d, draws);
    GeneratedPlaced(d, draws);
    forall c | c in Sort(built, ByStart)
      ensures WellPlaced(c, d)
    {
      assert c in multiset(built);
    }
  }

  lemma GeneratedPlaced(d: real, draws: seq<ClipDraws>)
    requires d != 0.0 && DrawsFor(draws, NumClips(d))
    ensures forall c :: c in Generated(d, draws) ==> WellPlaced(c, d)
  {
    var built := Generated(d, draws);
    forall k | 0 <= k < |built|
      ensures WellPlaced(built[k], d)
    {
      MockClipFacts(d, |built|, k, draws[k]);
    }
  }

  lemma SortedClipsDistinct(d: real, draws: seq<ClipDraws>)
    requires d != 0.0 && DrawsFor(draws, NumClips(d))
    ensures DistinctIdsAndTitles(Sort(Generated(d, draws), ByStart))
  {
    GeneratedDistinct(d, draws);
    SortKeepsDistinct(Generated(d, draws));
  }

  // ---------------------------------------------------------------- formatters

  /** `formatTimestamp`: two-digit minutes, a colon, two-digit seconds */
  function FormatTimestamp(seconds: real): (r: string)
    ensures 0.0 <= seconds < 6000.0 ==> |r| == 5 && r[2] == ':'
    ensures 0.0 <= seconds ==> ReadsAs(r, Floor(seconds / 60.0), Floor(Rem(seconds, 60.0)))
  {
    var mins := Floor(seconds / 60.0);
    var secs := Floor(Rem(seconds, 60.0));
    if seconds >= 0.0 then
      MinutesSeconds(seconds);
      PaddedClock(mins, secs)
    else
      PadStart(IntString(mins), 2, '0') + ":" + PadStart(IntString(secs), 2, '0')
  }

  /** `formatDuration`: the rounded length in seconds below a minute, and from a
      minute on its whole minutes and the seconds left over, as "Xm Ys" */
  function FormatDuration(startTime: real, endTime: real): (r: string)
    ensures var d := Round(endTime - startTime);
      d < 60 ==> r == IntString(d) + " seconds"
    ensures var d := Round(endTime - startTime);
      d >= 60 ==> exists m: nat, s: nat ::
        (r == Decimal(m) + "m " + Decimal(s) + "s" && m * 60 + s == d && s < 60 && 1 <= m)
  {
    var secs := Round(endTime - startTime);
    if secs >= 60 then
      var mins, rest := secs / 60, secs % 60;
      assert mins * 60 + rest == secs && 1 <= mins;
      Decimal(mins) + "m " + Decimal(rest) + "s"
    else IntString(secs) + " seconds"
  }

  /** `getScoreColor`: a step function with thresholds 80 and 60 */
  function ScoreColor(score: real): (r: string)
    ensures r == "text-primary" <==> score >= 80.0
    ensures r == "text-secondary" <==> 60.0 <= score < 80.0
    ensures r == "text-muted-foreground" <==> score < 60.0
  {
    if score >= 80.0 then "text-primary"
    else if score >= 60.0 then "text-secondary"
    else "text-muted-foreground"
  }

  /** `getScoreLabel`: a step function with thresholds 85, 70 and 55 */
  function ScoreLabel(score: real): (r: string)
    ensures r == "\U{1F525} Hot" <==> score >= 85.0
    ensures r == "\U{2728} Good" <==> 70.0 <= score < 85.0
    ensures r == "\U{1F44D} Fair" <==> 55.0 <= score < 70.0
    ensures r == "\U{1F4CA} Low" <==> score < 55.0
  {
    if score >= 85.0 then "\U{1F525} Hot"
    else if score >= 70.0 then "\U{2728} Good"
    else if score >= 55.0 then "\U{1F44D} Fair"
    else "\U{1F4CA} Low"
  }

  /** A higher score never gets a lower label or colour */
  lemma ScoreStepsMonotone(a: real, b: real)
    requires a <= b
    ensures ScoreLabel(a) == "\U{1F525} Hot" ==> ScoreLabel(b) == "\U{1F525} Hot"
    ensures ScoreColor(a) == "text-primary" ==> ScoreColor(b) == "text-primary"
    ensures ScoreColor(b) == "text-muted-foreground" ==> ScoreColor(a) == "text-muted-foreground"
  {
  }
}
