/** `VisualTab`: adding and removing emoji reactions and zoom effects, and the
    progress-bar choice */
module VisualTab {
  import opened Js
  import opened EditorTypes

  /** The id of an emoji added at clock time `now` */
  function EmojiId(now: nat): (id: string)
    ensures StartsWith(id, "emoji-") && id[6..] == Decimal(now)
  {
    "emoji-" + Decimal(now)
  }

  /** The id of a zoom effect added at clock time `now` */
  function ZoomId(now: nat): (id: string)
    ensures StartsWith(id, "zoom-") && id[5..] == Decimal(now)
  {
    "zoom-" + Decimal(now)
  }

  /** A screen position in percent from two draws in [0, 1) */
  function EmojiPosition(drawX: real, drawY: real): (p: Point)
    ensures 0.0 <= drawX < 1.0 ==> 20.0 <= p.x < 80.0
    ensures 0.0 <= drawY < 1.0 ==> 20.0 <= p.y < 80.0
  {
    Point(20.0 + drawX * 60.0, 20.0 + drawY * 60.0)
  }

  /** `addEmoji`: one reaction with the chosen emoji at the current time is
      appended; nothing else changes */
  function AddEmoji(s: VisualSettings, selectedEmoji: string, currentTime: real, now: nat,
                    drawX: real, drawY: real): (r: VisualSettings)
    ensures |r.emojis| == |s.emojis| + 1 && r.emojis[..|s.emojis|] == s.emojis
    ensures var e := r.emojis[|s.emojis|];
      e.id == EmojiId(now) && e.emoji == selectedEmoji && e.timestamp == currentTime &&
      (0.0 <= drawX < 1.0 && 0.0 <= drawY < 1.0 ==> 20.0 <= e.position.x < 80.0 && 20.0 <= e.position.y < 80.0)
    ensures r.(emojis := s.emojis) == s
  {
    var e := EmojiReaction(EmojiId(now), selectedEmoji, currentTime, EmojiPosition(drawX, drawY));
    s.(emojis := s.emojis + [e])
  }

  /** `removeEmoji`: every reaction with that id goes */
  function RemoveEmoji(s: VisualSettings, id: string): (r: VisualSettings)
    ensures forall e :: e in r.emojis <==> e in s.emojis && e.id != id
    ensures r.(emojis := s.emojis) == s
  {
    s.(emojis := Filter(s.emojis, (e: EmojiReaction) => e.id != id))
  }

  /** Removing an emoji just added under a fresh id undoes the addition */
  lemma RemoveUndoesAddEmoji(s: VisualSettings, emoji: string, t: real, now: nat, dx: real, dy: real)
    requires forall e :: e in s.emojis ==> e.id != EmojiId(now)
    ensures RemoveEmoji(AddEmoji(s, emoji, t, now, dx, dy), EmojiId(now)) == s
  {
    var keep := (e: EmojiReaction) => e.id != EmojiId(now);
    var added := AddEmoji(s, emoji, t, now, dx, dy).emojis;
    assert added == s.emojis + [added[|s.emojis|]];
    FilterAppend(s.emojis, [added[|s.emojis|]], keep);
    FilterAll(s.emojis, keep);
    assert Filter([added[|s.emojis|]], keep) == [];
  }

  /** Two reactions added in the same millisecond share an id, so removing one
      removes both */
  lemma SameMillisecondRemovesBoth(s: VisualSettings, a: string, b: string, t: real, u: real, now: nat,
                                   dx: real, dy: real)
    ensures var twice := AddEmoji(AddEmoji(s, a, t, now, dx, dy), b, u, now, dx, dy);
      twice.emojis[|s.emojis|].id == twice.emojis[|s.emojis| + 1].id &&
      twice.emojis[|s.emojis|] !in RemoveEmoji(twice, EmojiId(now)).emojis &&
      twice.emojis[|s.emojis| + 1] !in RemoveEmoji(twice, EmojiId(now)).emojis
  {
  }

  /** `addZoomEffect`: a 1.3x zoom from the current time for two seconds, cut
      at the end of the clip */
  function AddZoomEffect(s: VisualSettings, currentTime: real, clipDuration: real, now: nat): (r: VisualSettings)
    ensures |r.zoomEffects| == |s.zoomEffects| + 1 && r.zoomEffects[..|s.zoomEffects|] == s.zoomEffects
    ensures var z := r.zoomEffects[|s.zoomEffects|];
      z.id == ZoomId(now) && z.startTime == currentTime && z.zoomLevel == 1.3 &&
      z.endTime <= clipDuration && z.endTime <= currentTime + 2.0 &&
      (currentTime + 2.0 <= clipDuration ==> z.endTime == currentTime + 2.0) &&
      (currentTime + 2.0 > clipDuration ==> z.endTime == clipDuration)
    ensures r.(zoomEffects := s.zoomEffects) == s
  {
    var z := ZoomEffect(ZoomId(now), currentTime, Min(currentTime + 2.0, clipDuration), 1.3);
    s.(zoomEffects := s.zoomEffects + [z])
  }

  /** The remove button on a zoom effect: every effect with that id goes */
  function RemoveZoomEffect(s: VisualSettings, id: string): (r: VisualSettings)
    ensures forall z :: z in r.zoomEffects <==> z in s.zoomEffects && z.id != id
    ensures r.(zoomEffects := s.zoomEffects) == s
  {
    s.(zoomEffects := Filter(s.zoomEffects, (z: ZoomEffect) => z.id != id))
  }

  /** A zoom effect added inside the clip ends after it starts */
  lemma ZoomInsideClip(s: VisualSettings, currentTime: real, clipDuration: real, now: nat)
    requires 0.0 <= currentTime < clipDuration
    ensures var z := AddZoomEffect(s, currentTime, clipDuration, now).zoomEffects[|s.zoomEffects|];
      currentTime < z.endTime <= clipDuration
  {
  }

  /** The progress-bar buttons */
  function SetProgressBar(s: VisualSettings, position: ProgressBarPosition): (r: VisualSettings)
    ensures r.progressBar == position
    ensures r.(progressBar := s.progressBar) == s
  {
    s.(progressBar := position)
  }
}
