/** `EditorVideoPreview`: the editor's player confined to the clip's range, and
    the rules that decide which overlays show at a given time */
module EditorVideoPreview {
  import opened Js
  import opened EditorTypes

  /** `progress`: the share of the clip played, in percent; 0 for an empty range */
  function Progress(startTime: real, endTime: real, currentTime: real): (r: real)
    ensures endTime - startTime <= 0.0 ==> r == 0.0
    ensures endTime - startTime > 0.0 && startTime <= currentTime <= endTime ==> 0.0 <= r <= 100.0
    ensures endTime - startTime > 0.0 && currentTime == startTime ==> r == 0.0
    ensures endTime - startTime > 0.0 && currentTime == endTime ==> r == 100.0
  {
    var clipDuration := endTime - startTime;
    if clipDuration > 0.0 then
      ProgressBounds(currentTime - startTime, clipDuration);
      (currentTime - startTime) / clipDuration * 100.0
    else 0.0
  }

  lemma ProgressBounds(rel: real, d: real)
    requires 0.0 < d
    ensures 0.0 <= rel <= d ==> 0.0 <= rel / d * 100.0 <= 100.0
  {
    if 0.0 <= rel <= d {
      DivMonotone(0.0, rel, d);
      DivMonotone(rel, d, d);
    }
  }

  /** `handleSeek`: a slider percentage as a time inside the clip */
  function SeekTime(startTime: real, endTime: real, percent: real): (t: real)
    ensures startTime <= endTime && 0.0 <= percent <= 100.0 ==> startTime <= t <= endTime
  {
    var clipDuration := endTime - startTime;
    if startTime <= endTime && 0.0 <= percent <= 100.0 then
      Scale100(percent, clipDuration);
      startTime + (percent / 100.0) * clipDuration
    else startTime + (percent / 100.0) * clipDuration
  }

  lemma Scale100(percent: real, d: real)
    requires 0.0 <= percent <= 100.0 && 0.0 <= d
    ensures 0.0 <= (percent / 100.0) * d <= d
  {
    assert d - (percent / 100.0) * d == (1.0 - percent / 100.0) * d;
  }

  /** Seeking to a percentage shows that percentage: the slider and the progress
      bar agree */
  lemma SeekThenProgress(startTime: real, endTime: real, percent: real)
    requires endTime - startTime > 0.0
    ensures Progress(startTime, endTime, SeekTime(startTime, endTime, percent)) == percent
  {
    var d := endTime - startTime;
    var t := SeekTime(startTime, endTime, percent);
    assert t - startTime == (percent / 100.0) * d;
    assert (percent / 100.0) * d / d == percent / 100.0;
  }

  /** `skip`: the time moves by `seconds`, clamped to the clip */
  function SkipTime(startTime: real, endTime: real, time: real, seconds: real): (t: real)
    ensures startTime <= t
    ensures startTime <= endTime ==> t <= endTime
    ensures startTime <= time + seconds <= endTime ==> t == time + seconds
  {
    Clamp(startTime, endTime, time + seconds)
  }

  /** `showHook`: in the first three seconds, if the hook is on */
  predicate ShowHook(hookEnabled: bool, relativeTime: real)
  {
    hookEnabled && relativeTime <= 3.0
  }

  /** The title overlay: a non-empty title, no hook, strictly inside the first five seconds */
  predicate ShowTitle(t: TitleSettings, relativeTime: real)
  {
    t.text != "" && !ShowHook(t.hookEnabled, relativeTime) && 0.0 < relativeTime < 5.0
  }

  /** The hook and the title never show together, and with the hook on the title
      only shows between three and five seconds */
  lemma OverlaysExclusive(t: TitleSettings, relativeTime: real)
    ensures !(ShowHook(t.hookEnabled, relativeTime) && ShowTitle(t, relativeTime))
    ensures t.hookEnabled && ShowTitle(t, relativeTime) ==> 3.0 < relativeTime < 5.0
  {
  }

  /** An emoji shows for two seconds from its timestamp */
  predicate EmojiVisible(e: EmojiReaction, relativeTime: real)
  {
    e.timestamp <= relativeTime < e.timestamp + 2.0
  }

  /** The emojis shown at a time */
  function VisibleEmojis(emojis: seq<EmojiReaction>, relativeTime: real): (r: seq<EmojiReaction>)
    ensures forall e :: e in r <==> e in emojis && e.timestamp <= relativeTime < e.timestamp + 2.0
  {
    Filter(emojis, (e: EmojiReaction) => EmojiVisible(e, relativeTime))
  }

  /** `n.toString(16)` for any integer */
  function HexString(n: int): string
  {
    if n < 0 then "-" + ToRadix(-n, 16) else ToRadix(n, 16)
  }

  /** The alpha suffix of the caption background: `round(opacity * 255)` in
      lower-case hex, padded to two digits. For an opacity in [0, 1] it is two hex
      digits that read back as that byte. */
  function AlphaSuffix(opacity: real): (r: string)
    ensures 0.0 <= opacity <= 1.0 ==>
      |r| == 2 && AllDigitsIn(r, 16) && ParseRadix(r, 16) == Round(opacity * 255.0) &&
      0 <= Round(opacity * 255.0) <= 255
  {
    var byte := Round(opacity * 255.0);
    if 0.0 <= opacity <= 1.0 then
      HexByte(byte);
      PadStart(HexString(byte), 2, '0')
    else PadStart(HexString(byte), 2, '0')
  }

  lemma HexByte(n: int)
    requires 0 <= n <= 255
    ensures var p := PadStart(ToRadix(n, 16), 2, '0');
      |p| == 2 && AllDigitsIn(p, 16) && ParseRadix(p, 16) == n
  {
    ParsePadded(ToRadix(n, 16), 2, 16);
    ParseToRadix(n, 16);
    PaddedDigits(ToRadix(n, 16), 2, 16);
    if n >= 16 {
      assert ToRadix(n, 16) == ToRadix(n / 16, 16) + [DigitChar(n % 16)];
      assert n / 16 < 16;
    }
  }

  /** The caption background: the colour with the alpha suffix appended */
  function BackgroundColor(c: CaptionSettings): (r: string)
    ensures 0.0 <= c.backgroundOpacity <= 1.0 ==>
      |r| == |c.backgroundColor| + 2 && r[..|c.backgroundColor|] == c.backgroundColor
  {
    c.backgroundColor + AlphaSuffix(c.backgroundOpacity)
  }

  /** The player: the shown time, the play and mute flags, and the video
      element's own time and mute flag */
  class Player {
    const startTime: real
    const endTime: real
    var currentTime: real
    var isPlaying: bool
    var isMuted: bool
    var videoTime: real
    var videoMuted: bool

    /** The mount: the video goes to the clip's start */
    constructor (startTime: real, endTime: real)
      ensures this.startTime == startTime && this.endTime == endTime
      ensures currentTime == startTime && videoTime == startTime
      ensures !isPlaying && !isMuted && !videoMuted
    {
      this.startTime := startTime;
      this.endTime := endTime;
      currentTime := startTime;
      isPlaying := false;
      isMuted := false;
      videoTime := startTime;
      videoMuted := false;
    }

    /** `timeupdate` at `t`: the shown time follows, and reaching the end wraps the
        video back to the start, still playing if it was */
    method TimeUpdate(t: real)
      modifies this`currentTime, this`videoTime
      ensures currentTime == t
      ensures t >= endTime ==> videoTime == startTime
      ensures t < endTime ==> videoTime == t
    {
      videoTime := t;
      currentTime := t;
      if t >= endTime {
        videoTime := startTime;
      }
    }

    /** `togglePlay`: playing from outside [start, end) first goes to the start */
    method TogglePlay()
      modifies this`videoTime, this`isPlaying
      ensures isPlaying == !old(isPlaying)
      ensures !old(isPlaying) && !(startTime <= old(videoTime) < endTime) ==> videoTime == startTime
      ensures old(isPlaying) || startTime <= old(videoTime) < endTime ==> videoTime == old(videoTime)
    {
      if !isPlaying {
        if videoTime >= endTime || videoTime < startTime {
          videoTime := startTime;
        }
      }
      isPlaying := !isPlaying;
    }

    method Skip(seconds: real)
      modifies this`videoTime
      ensures videoTime == SkipTime(startTime, endTime, old(videoTime), seconds)
    {
      videoTime := SkipTime(startTime, endTime, videoTime, seconds);
    }

    method HandleSeek(percent: real)
      modifies this`videoTime
      ensures videoTime == SeekTime(startTime, endTime, percent)
    {
      videoTime := SeekTime(startTime, endTime, percent);
    }

    /** `toggleMute`: the video takes the negation of the shown flag */
    method ToggleMute()
      modifies this`isMuted, this`videoMuted
      ensures isMuted == !old(isMuted) && videoMuted == isMuted
    {
      videoMuted := !isMuted;
      isMuted := !isMuted;
    }
  }

  /** The controls never take the video out of the clip's range */
  lemma ControlsStayInRange(startTime: real, endTime: real, time: real, seconds: real, percent: real)
    requires startTime <= endTime && 0.0 <= percent <= 100.0
    ensures startTime <= SkipTime(startTime, endTime, time, seconds) <= endTime
    ensures startTime <= SeekTime(startTime, endTime, percent) <= endTime
  {
  }
}
