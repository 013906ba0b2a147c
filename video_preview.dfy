/** `VideoPreview`: the uploaded video's metadata texts and its player */
module VideoPreview {
  import opened Js
  import opened TimeText
  import VideoUploadZone

  /** Hours, minutes below 60 and seconds below 60 of a non-negative time */
  function Hms(seconds: real): (r: (int, int, int))
    requires 0.0 <= seconds
    ensures 0 <= r.0 && 0 <= r.1 < 60 && 0 <= r.2 < 60
    ensures r.0 * 3600 + r.1 * 60 + r.2 == Floor(seconds)
  {
    var h, f := Floor(seconds / 3600.0), Floor(seconds / 60.0);
    MinuteParts(seconds, h, f);
    (h, Floor(Rem(seconds, 3600.0) / 60.0), Floor(Rem(seconds, 60.0)))
  }

  lemma MinuteParts(seconds: real, h: int, f: int)
    requires 0.0 <= seconds && h == Floor(seconds / 3600.0) && f == Floor(seconds / 60.0)
    ensures 0 <= h && 0 <= Floor(Rem(seconds, 3600.0) / 60.0) < 60 && 0 <= Floor(Rem(seconds, 60.0)) < 60
    ensures Floor(Rem(seconds, 3600.0) / 60.0) == f - 60 * h
    ensures Floor(Rem(seconds, 60.0)) == Floor(seconds) - 60 * f
  {
    assert (seconds - 3600.0 * h as real) / 60.0 == seconds / 60.0 - (60 * h) as real;
    DivMonotone(0.0, Rem(seconds, 3600.0), 60.0);
    DivMonotone(Rem(seconds, 3600.0), 3600.0, 60.0);
  }

  /** `r` is `h:mm:ss` whose groups read back as the three numbers */
  ghost predicate ReadsAsHms(r: string, h: int, m: int, s: int)
  {
    7 <= |r| && r[|r| - 6] == ':' && AllDigitsIn(r[..|r| - 6], 10) &&
    ParseRadix(r[..|r| - 6], 10) == h && ReadsAs(r[|r| - 5..], m, s)
  }

  /** `formatDuration`: `h:mm:ss` from one hour on, `m:ss` (minutes unpadded)
      below; for a non-negative time the groups read back as its hours, minutes
      and seconds */
  function FormatDuration(seconds: real): (r: string)
    ensures 0.0 <= seconds && seconds >= 3600.0 ==>
      var t := Hms(seconds); ReadsAsHms(r, t.0, t.1, t.2)
    ensures 0.0 <= seconds && seconds < 3600.0 ==>
      var t := Hms(seconds); t.0 == 0 && ReadsAs(r, t.1, t.2)
  {
    var mins := Floor(Rem(seconds, 3600.0) / 60.0);
    var secs := Floor(Rem(seconds, 60.0));
    if 0.0 <= seconds then
      var t := Hms(seconds);
      if t.0 > 0 then HoursText(t.0, t.1, t.2) else MinutesText(t.1, t.2)
    else
      // a negative time has negative hours, so only the `m:ss` form is reachable
      IntString(mins) + ":" + PadStart(IntString(secs), 2, '0')
  }

  /** `h:mm:ss` of non-negative numbers */
  function HoursText(h: nat, m: nat, s: nat): (r: string)
    requires m < 60 && s < 60
    ensures ReadsAsHms(r, h, m, s)
  {
    var c := PaddedClock(m, s);
    ParseToRadix(h, 10);
    HoursReads(Decimal(h), c, h, m, s);
    Decimal(h) + ":" + c
  }

  lemma HoursReads(d: string, c: string, h: int, m: int, s: int)
    requires 1 <= |d| && AllDigitsIn(d, 10) && ParseRadix(d, 10) == h
    requires |c| == 5 && ReadsAs(c, m, s)
    ensures ReadsAsHms(d + ":" + c, h, m, s)
  {
    var r := d + ":" + c;
    assert r[..|r| - 6] == d;
    assert r[|r| - 5..] == c;
  }

  /** `m:ss` of non-negative numbers, the minutes unpadded */
  function MinutesText(m: nat, s: nat): (r: string)
    requires s < 60
    ensures ReadsAs(r, m, s)
  {
    TwoDigits(s);
    ParseToRadix(m, 10);
    ClockReads(Decimal(m), PadStart(Decimal(s), 2, '0'), m, s);
    Decimal(m) + ":" + PadStart(Decimal(s), 2, '0')
  }

  /** A number of tenths shown as `I.D` */
  ghost predicate ShowsTenths(text: string, tenths: int)
  {
    3 <= |text| && text[|text| - 2] == '.' && AllDigitsIn(Unpoint(text), 10) &&
    ParseRadix(Unpoint(text), 10) == tenths
  }

  /** `formatFileSize`: kilobytes below one mebibyte, megabytes from there on,
      to one decimal */
  function FormatFileSize(bytes: nat): (r: string)
    ensures bytes < 1048576 ==>
      |r| > 3 && r[|r| - 3..] == " KB" && ShowsTenths(r[..|r| - 3], Round(bytes as real / 1024.0 * 10.0))
    ensures bytes >= 1048576 ==>
      |r| > 3 && r[|r| - 3..] == " MB" && ShowsTenths(r[..|r| - 3], Round(bytes as real / 1048576.0 * 10.0))
  {
    var text := if bytes < 1024 * 1024 then Fixed1(bytes as real / 1024.0) + " KB"
                else Fixed1(bytes as real / (1024.0 * 1024.0)) + " MB";
    assert text[..|text| - 3] == (if bytes < 1048576 then Fixed1(bytes as real / 1024.0)
                                  else Fixed1(bytes as real / 1048576.0));
    text
  }

  /** `getFileFormat` */
  function FileFormat(mimeType: string): (r: string)
    ensures mimeType == "video/mp4" ==> r == "MP4"
    ensures mimeType == "video/quicktime" ==> r == "MOV"
    ensures mimeType == "video/x-msvideo" ==> r == "AVI"
    ensures r == "Unknown" <==> mimeType !in VideoUploadZone.AcceptedFormats
  {
    if mimeType == "video/mp4" then "MP4"
    else if mimeType == "video/quicktime" then "MOV"
    else if mimeType == "video/x-msvideo" then "AVI"
    else "Unknown"
  }

  /** Every file the upload zone lets through is shown with a known format */
  lemma AcceptedFilesHaveFormat(f: VideoUploadZone.File)
    requires VideoUploadZone.ValidateFile(f).None?
    ensures FileFormat(f.mimeType) in ["MP4", "MOV", "AVI"]
  {
  }

  /** The player: the shown state and the video element's own time and mute flag */
  class Player {
    var isPlaying: bool
    var isMuted: bool
    var currentTime: real
    var videoTime: real
    var videoMuted: bool

    constructor ()
      ensures !isPlaying && !isMuted && currentTime == 0.0 && videoTime == 0.0 && !videoMuted
    {
      isPlaying, isMuted, currentTime, videoTime, videoMuted := false, false, 0.0, 0.0, false;
    }

    method TimeUpdate()
      modifies this`currentTime
      ensures currentTime == videoTime
    {
      currentTime := videoTime;
    }

    method TogglePlay()
      modifies this`isPlaying
      ensures isPlaying == !old(isPlaying)
    {
      isPlaying := !isPlaying;
    }

    /** `toggleMute`: the video takes the negation of the shown flag */
    method ToggleMute()
      modifies this`isMuted, this`videoMuted
      ensures isMuted == !old(isMuted) && videoMuted == isMuted
    {
      videoMuted := !isMuted;
      isMuted := !isMuted;
    }

    /** `handleSeek`: both the video and the shown time take the slider value */
    method HandleSeek(value: real)
      modifies this`currentTime, this`videoTime
      ensures currentTime == value && videoTime == value
    {
      videoTime := value;
      currentTime := value;
    }
  }

  /** Two mute presses bring back the shown flag, and leave the video in step
      with it */
  method MuteTwice(p: Player)
    modifies p
    ensures p.isMuted == old(p.isMuted) && p.videoMuted == p.isMuted
    ensures p.currentTime == old(p.currentTime) && p.isPlaying == old(p.isPlaying)
  {
    p.ToggleMute();
    p.ToggleMute();
  }
}
