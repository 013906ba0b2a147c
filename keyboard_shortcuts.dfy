/** `useKeyboardShortcuts` and `useVideoKeyboardShortcuts`: a key event runs the
    first shortcut whose key and modifiers match, and the video shortcuts seek,
    change the volume or mute with clamping. */
module KeyboardShortcuts {
  import opened Js

  /** What a shortcut's `action` does to the video */
  datatype Action = PlayPause | SeekForward | SeekBackward | VolumeUp | VolumeDown | ToggleMute | Fullscreen

  /** A shortcut; an omitted modifier flag is `false` */
  datatype Shortcut = Shortcut(key: string, ctrl: bool, shift: bool, alt: bool, description: string, action: Action)

  /** The parts of a `KeyboardEvent` the handler reads; `inTextField` is whether its
      target is an input or a text area */
  datatype KeyEvent = KeyEvent(key: string, ctrlKey: bool, metaKey: bool, shiftKey: bool, altKey: bool, inTextField: bool)

  /** The four tests of the loop body */
  predicate Matches(e: KeyEvent, s: Shortcut)
  {
    var keyMatch := Lower(e.key) == Lower(s.key);
    var ctrlMatch := if s.ctrl then e.ctrlKey || e.metaKey else !e.ctrlKey && !e.metaKey;
    var shiftMatch := if s.shift then e.shiftKey else !e.shiftKey;
    var altMatch := if s.alt then e.altKey else !e.altKey;
    keyMatch && ctrlMatch && shiftMatch && altMatch
  }

  lemma LowerIdempotent(s: string)
    ensures Lower(Lower(s)) == Lower(s)
  {
  }

  /** Keys compare case-insensitively, and every modifier must be as the shortcut
      says: a ctrl shortcut wants ctrl or meta, any other shortcut wants neither,
      and shift and alt are wanted exactly when the shortcut names them */
  lemma MatchesExactly(e: KeyEvent, s: Shortcut)
    ensures Matches(e, s) <==>
      Lower(e.key) == Lower(s.key) &&
      (s.ctrl <==> e.ctrlKey || e.metaKey) && (s.shift <==> e.shiftKey) && (s.alt <==> e.altKey)
    ensures Matches(e, s) <==> Matches(e.(key := Lower(e.key)), s)
  {
    LowerIdempotent(e.key);
  }

  /** `handleKeyDown`: the index of the shortcut whose action runs, if any */
  method HandleKeyDown(shortcuts: seq<Shortcut>, e: KeyEvent) returns (fired: Option<nat>)
    ensures e.inTextField ==> fired == None
    ensures fired.Some? ==> fired.value < |shortcuts| && !e.inTextField && Matches(e, shortcuts[fired.value])
    ensures fired.Some? ==> forall j :: 0 <= j < fired.value ==> !Matches(e, shortcuts[j])
    ensures fired.None? && !e.inTextField ==> forall j :: 0 <= j < |shortcuts| ==> !Matches(e, shortcuts[j])
  {
    if e.inTextField {
      return None;
    }
    fired := None;
    var i := 0;
    while i < |shortcuts|
      invariant 0 <= i <= |shortcuts|
      invariant forall j :: 0 <= j < i ==> !Matches(e, shortcuts[j])
    {
      if Matches(e, shortcuts[i]) {
        fired := Some(i);
        break;
      }
      i := i + 1;
    }
  }

  /** The shortcuts `useVideoKeyboardShortcuts` registers, in order */
  const VideoShortcuts: seq<Shortcut> := [
    Shortcut(" ", false, false, false, "Play/Pause", PlayPause),
    Shortcut("ArrowRight", false, false, false, "Skip forward 5s", SeekForward),
    Shortcut("ArrowLeft", false, false, false, "Skip backward 5s", SeekBackward),
    Shortcut("ArrowUp", false, false, false, "Volume up", VolumeUp),
    Shortcut("ArrowDown", false, false, false, "Volume down", VolumeDown),
    Shortcut("m", false, false, false, "Mute/Unmute", ToggleMute),
    Shortcut("f", false, false, false, "Fullscreen", Fullscreen)]

  /** No event matches two video shortcuts: their lowered keys differ */
  lemma VideoShortcutsUnambiguous(e: KeyEvent, i: nat, j: nat)
    requires i < j < |VideoShortcuts|
    ensures !(Matches(e, VideoShortcuts[i]) && Matches(e, VideoShortcuts[j]))
  {
    var a, b := VideoShortcuts[i].key, VideoShortcuts[j].key;
    var la, lb := Lower(a), Lower(b);
    if |a| == |b| && |a| > 5 {
      assert la[5] != lb[5];
    } else if |a| == |b| {
      assert la[0] != lb[0];
    }
    assert la != lb;
  }

  /** The fields of the video element the actions change */
  class Video {
    var currentTime: real
    var duration: real
    var volume: real
    var muted: bool
    var paused: bool

    constructor (duration: real)
      ensures this.duration == duration && currentTime == 0.0 && volume == 1.0 && !muted && paused
    {
      this.duration := duration;
      currentTime := 0.0;
      volume := 1.0;
      muted := false;
      paused := true;
    }

    ghost predicate Valid()
      reads this
    {
      0.0 <= currentTime <= duration && 0.0 <= volume <= 1.0
    }
  }

  /** One action on the video behind `videoRef`; nothing happens while the ref is
      empty. Fullscreen changes nothing the model tracks. */
  method Perform(video: Video?, action: Action)
    modifies video
    ensures video != null ==> video.duration == old(video.duration)
    ensures video != null && action == PlayPause ==>
      video.paused == !old(video.paused) && unchanged(video`currentTime, video`volume, video`muted)
    ensures video != null && action == SeekForward ==>
      video.currentTime == Min(video.duration, old(video.currentTime) + 5.0) &&
      unchanged(video`volume, video`muted, video`paused)
    ensures video != null && action == SeekBackward ==>
      video.currentTime == Max(0.0, old(video.currentTime) - 5.0) &&
      unchanged(video`volume, video`muted, video`paused)
    ensures video != null && action == VolumeUp ==>
      video.volume == Min(1.0, old(video.volume) + 0.1) && unchanged(video`currentTime, video`muted, video`paused)
    ensures video != null && action == VolumeDown ==>
      video.volume == Max(0.0, old(video.volume) - 0.1) && unchanged(video`currentTime, video`muted, video`paused)
    ensures video != null && action == ToggleMute ==>
      video.muted == !old(video.muted) && unchanged(video`currentTime, video`volume, video`paused)
    ensures video != null && action == Fullscreen ==> unchanged(video)
    ensures video != null && old(video.Valid()) ==> video.Valid()
  {
    if video == null {
      return;
    }
    match action {
      case PlayPause => video.paused := !video.paused;
      case SeekForward => video.currentTime := Min(video.duration, video.currentTime + 5.0);
      case SeekBackward => video.currentTime := Max(0.0, video.currentTime - 5.0);
      case VolumeUp => video.volume := Min(1.0, video.volume + 0.1);
      case VolumeDown => video.volume := Max(0.0, video.volume - 0.1);
      case ToggleMute => video.muted := !video.muted;
      case Fullscreen =>
    }
  }

  /** The seek actions keep the time in [0, duration] and the volume actions keep
      the volume in [0, 1], from any starting point in range */
  lemma ActionsClamp(t: real, v: real, d: real)
    requires 0.0 <= t <= d && 0.0 <= v <= 1.0
    ensures 0.0 <= Min(d, t + 5.0) <= d && 0.0 <= Max(0.0, t - 5.0) <= d
    ensures 0.0 <= Min(1.0, v + 0.1) <= 1.0 && 0.0 <= Max(0.0, v - 0.1) <= 1.0
  {
  }

  /** Muting twice restores the mute flag */
  method MuteTwice(video: Video)
    modifies video
    ensures video.muted == old(video.muted) && unchanged(video`currentTime, video`volume, video`paused)
  {
    Perform(video, ToggleMute);
    Perform(video, ToggleMute);
  }
}
