/** Export settings, jobs and exported records, and the `PLATFORM_PRESETS` table */
module ExportTypes {
  import opened Js
  import opened EditorTypes

  datatype ExportQuality = High | Medium | Low
  datatype ExportFormat = Mp4 | Mov
  datatype CaptionOption = BurnedIn | Srt | NoCaptions

  /** A job is in exactly one of these four states */
  datatype ExportStatus = Queued | Processing | Complete | Failed
  {
    predicate Terminal() { this == Complete || this == Failed }
    predicate Active() { this == Queued || this == Processing }
  }

  /** `platform` is `string | null` in the source */
  datatype ExportConfig = ExportConfig(
    quality: ExportQuality,
    format: ExportFormat,
    captionOption: CaptionOption,
    platform: Option<string>)

  /** Dates are millisecond timestamps */
  type Date = int

  datatype ExportJob = ExportJob(
    id: string,
    clipId: string,
    clipTitle: string,
    thumbnail: Option<string>,
    status: ExportStatus,
    progress: int,
    estimatedTimeRemaining: int,
    config: ExportConfig,
    createdAt: Date,
    completedAt: Option<Date>,
    fileSize: Option<string>,
    downloadUrl: Option<string>,
    error: Option<string>)

  /** An exported record; `D` is the type of its date, a `Date` in memory and
      its text form once written to storage */
  datatype ExportedClipOf<D> = ExportedClip(
    id: string,
    title: string,
    thumbnail: Option<string>,
    platform: string,
    platformBadges: seq<string>,
    fileSize: string,
    exportDate: D,
    downloadUrl: string,
    shareLink: string,
    hashtags: seq<string>)

  type ExportedClip = ExportedClipOf<Date>

  datatype PlatformPreset = PlatformPreset(
    quality: ExportQuality, format: ExportFormat, aspectRatio: string, maxDuration: real)

  /** `PLATFORM_PRESETS`: all MP4, LinkedIn at medium quality and square, the
      others high and 9:16, with the editor's duration limits */
  function PlatformPresets(p: Platform): (preset: PlatformPreset)
    ensures preset.format == Mp4
    ensures preset.quality == (if p == LinkedIn then Medium else High)
    ensures preset.aspectRatio == PlatformSpecs(p).aspectRatio
    ensures preset.maxDuration == PlatformSpecs(p).maxDuration
  {
    match p
    case TikTok => PlatformPreset(High, Mp4, "9:16", 180.0)
    case Instagram => PlatformPreset(High, Mp4, "9:16", 90.0)
    case YouTube => PlatformPreset(High, Mp4, "9:16", 60.0)
    case LinkedIn => PlatformPreset(Medium, Mp4, "1:1", 120.0)
  }
}
