/** The clip editor's settings records and its constant tables:
    `platformSpecs`, `captionStylePresets` and `defaultClipEdits`. */
module EditorTypes {
  import opened Js

  datatype CaptionStyle = Minimal | Bold | Podcast | MrBeast
  datatype TitleAnimation = FadeIn | SlideUp | Typewriter
  datatype CaptionPosition = Top | Center | Bottom
  datatype Platform = Instagram | YouTube | TikTok | LinkedIn
  datatype ProgressBarPosition = BarTop | BarBottom | NoBar

  datatype CaptionSettings = CaptionSettings(
    enabled: bool,
    style: CaptionStyle,
    fontFamily: string,
    fontSize: real,
    textColor: string,
    backgroundColor: string,
    backgroundOpacity: real,
    position: CaptionPosition,
    text: string)

  datatype TitleSettings = TitleSettings(
    text: string, animation: TitleAnimation, hookText: string, hookEnabled: bool)

  datatype Point = Point(x: real, y: real)

  datatype EmojiReaction = EmojiReaction(id: string, emoji: string, timestamp: real, position: Point)

  datatype ZoomEffect = ZoomEffect(id: string, startTime: real, endTime: real, zoomLevel: real)

  datatype VisualSettings = VisualSettings(
    emojis: seq<EmojiReaction>,
    progressBar: ProgressBarPosition,
    zoomEffects: seq<ZoomEffect>,
    brollSuggestions: seq<string>)

  datatype PlatformSettings = PlatformSettings(
    platform: Platform, aspectRatio: string, maxDuration: real, hashtags: seq<string>)

  datatype ClipEdits = ClipEdits(
    captions: CaptionSettings,
    title: TitleSettings,
    visual: VisualSettings,
    platform: PlatformSettings)

  /** The key of each platform in the tables, as the application spells it */
  function PlatformKey(p: Platform): string
  {
    match p
    case Instagram => "instagram"
    case YouTube => "youtube"
    case TikTok => "tiktok"
    case LinkedIn => "linkedin"
  }

  /** The platform named by `key`, if it is one of the four */
  function PlatformOfKey(key: string): (r: Option<Platform>)
    ensures r.Some? ==> PlatformKey(r.value) == key
    ensures r.None? ==> forall p :: PlatformKey(p) != key
  {
    if key == "instagram" then Some(Instagram)
    else if key == "youtube" then Some(YouTube)
    else if key == "tiktok" then Some(TikTok)
    else if key == "linkedin" then Some(LinkedIn)
    else
      assert forall p :: PlatformKey(p) != key;
      None
  }

  /** Each platform has its own key, and reading a key back gives the platform */
  lemma PlatformKeyRoundTrip(p: Platform, q: Platform)
    ensures PlatformOfKey(PlatformKey(p)) == Some(p)
    ensures PlatformKey(p) == PlatformKey(q) ==> p == q
  {
  }

  datatype PlatformSpec = PlatformSpec(aspectRatio: string, maxDuration: real, name: string)

  /** `platformSpecs`: every limit is positive and only LinkedIn is square */
  function PlatformSpecs(p: Platform): (spec: PlatformSpec)
    ensures spec.maxDuration > 0.0
    ensures spec.aspectRatio == (if p == LinkedIn then "1:1" else "9:16")
  {
    match p
    case Instagram => PlatformSpec("9:16", 90.0, "Instagram Reels")
    case YouTube => PlatformSpec("9:16", 60.0, "YouTube Shorts")
    case TikTok => PlatformSpec("9:16", 180.0, "TikTok")
    case LinkedIn => PlatformSpec("1:1", 120.0, "LinkedIn")
  }

  datatype CaptionPreset = CaptionPreset(
    fontFamily: string, fontSize: real, textColor: string, backgroundColor: string, backgroundOpacity: real)

  /** `captionStylePresets`: each preset is reachable with the caption sliders
      (font size in [12, 48], opacity in [0, 1]) */
  function CaptionStylePresets(s: CaptionStyle): (preset: CaptionPreset)
    ensures 12.0 <= preset.fontSize <= 48.0
    ensures 0.0 <= preset.backgroundOpacity <= 1.0
  {
    match s
    case Minimal => CaptionPreset("Inter", 18.0, "#FFFFFF", "#000000", 0.5)
    case Bold => CaptionPreset("Impact", 24.0, "#FFFF00", "#000000", 0.8)
    case Podcast => CaptionPreset("Georgia", 20.0, "#FFFFFF", "#1a1a2e", 0.9)
    case MrBeast => CaptionPreset("Arial Black", 28.0, "#FFFFFF", "#FF0000", 1.0)
  }

  /** The five preset fields of a caption record */
  function PresetOf(c: CaptionSettings): CaptionPreset
  {
    CaptionPreset(c.fontFamily, c.fontSize, c.textColor, c.backgroundColor, c.backgroundOpacity)
  }

  const DefaultClipEdits: ClipEdits :=
    ClipEdits(
      CaptionSettings(false, Minimal, "Inter", 18.0, "#FFFFFF", "#000000", 0.5, Bottom,
                      "Your caption text here..."),
      TitleSettings("", FadeIn, "", false),
      VisualSettings([], NoBar, [], ["Product shot", "Reaction clip", "Behind the scenes"]),
      PlatformSettings(TikTok, "9:16", 180.0, []))

  /** The defaults agree with the tables: TikTok's spec with no hashtags, and the
      minimal caption preset, with captions switched off */
  lemma DefaultsMatchTables()
    ensures var p := DefaultClipEdits.platform;
      p.aspectRatio == PlatformSpecs(p.platform).aspectRatio &&
      p.maxDuration == PlatformSpecs(p.platform).maxDuration &&
      p.platform == TikTok && p.hashtags == []
    ensures var c := DefaultClipEdits.captions;
      c.style == Minimal && PresetOf(c) == CaptionStylePresets(c.style) && !c.enabled
  {
  }
}
