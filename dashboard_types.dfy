/** Projects, usage statistics and user settings shown on the dashboard */
module DashboardTypes {
  import opened Js
  import opened ExportTypes

  datatype ProjectStatus = ProjectProcessing | Ready | ProjectFailed

  /** A project; `D` is the type of its upload date (see `ExportTypes.ExportedClipOf`) */
  datatype ProjectOf<D> = Project(
    id: string,
    title: string,
    videoUrl: string,
    thumbnail: Option<string>,
    uploadDate: D,
    clipCount: int,
    duration: real,
    status: ProjectStatus)

  type Project = ProjectOf<Date>

  datatype DayActivity = DayActivity(day: string, clips: int)

  datatype UserStats = UserStats(
    totalVideosProcessed: int,
    clipsCreated: real,
    hoursSaved: real,
    weeklyActivity: seq<DayActivity>)

  datatype Notifications = Notifications(exportComplete: bool, weeklyReport: bool, tips: bool)

  datatype UserSettings = UserSettings(
    defaultQuality: ExportQuality,
    defaultFormat: ExportFormat,
    favoriteCaptionStyles: seq<string>,
    platformPreferences: seq<string>,
    notifications: Notifications)

  const DefaultUserSettings: UserSettings :=
    UserSettings(High, Mp4, ["bold"], ["tiktok", "instagram"], Notifications(true, true, true))

  /** `Partial<UserSettings>`: the fields an update supplies */
  datatype SettingsUpdate = SettingsUpdate(
    defaultQuality: Option<ExportQuality>,
    defaultFormat: Option<ExportFormat>,
    favoriteCaptionStyles: Option<seq<string>>,
    platformPreferences: Option<seq<string>>,
    notifications: Option<Notifications>)

  function Pick<T>(update: Option<T>, old_: T): T
  {
    if update.Some? then update.value else old_
  }

  /** `{ ...settings, ...update }`: each supplied field wins, the rest are kept */
  function MergeSettings(s: UserSettings, u: SettingsUpdate): (r: UserSettings)
    ensures u.defaultQuality.Some? ==> r.defaultQuality == u.defaultQuality.value
    ensures u.defaultQuality.None? ==> r.defaultQuality == s.defaultQuality
    ensures u.defaultFormat.Some? ==> r.defaultFormat == u.defaultFormat.value
    ensures u.defaultFormat.None? ==> r.defaultFormat == s.defaultFormat
    ensures u.favoriteCaptionStyles.Some? ==> r.favoriteCaptionStyles == u.favoriteCaptionStyles.value
    ensures u.favoriteCaptionStyles.None? ==> r.favoriteCaptionStyles == s.favoriteCaptionStyles
    ensures u.platformPreferences.Some? ==> r.platformPreferences == u.platformPreferences.value
    ensures u.platformPreferences.None? ==> r.platformPreferences == s.platformPreferences
    ensures u.notifications.Some? ==> r.notifications == u.notifications.value
    ensures u.notifications.None? ==> r.notifications == s.notifications
  {
    UserSettings(
      Pick(u.defaultQuality, s.defaultQuality),
      Pick(u.defaultFormat, s.defaultFormat),
      Pick(u.favoriteCaptionStyles, s.favoriteCaptionStyles),
      Pick(u.platformPreferences, s.platformPreferences),
      Pick(u.notifications, s.notifications))
  }

  /** The update that supplies every field of `s` */
  function FullUpdate(s: UserSettings): SettingsUpdate
  {
    SettingsUpdate(Some(s.defaultQuality), Some(s.defaultFormat), Some(s.favoriteCaptionStyles),
                   Some(s.platformPreferences), Some(s.notifications))
  }

  /** Merging is idempotent, an empty update changes nothing, and a full update replaces */
  lemma MergeLaws(s: UserSettings, t: UserSettings, u: SettingsUpdate)
    ensures MergeSettings(MergeSettings(s, u), u) == MergeSettings(s, u)
    ensures MergeSettings(s, SettingsUpdate(None, None, None, None, None)) == s
    ensures MergeSettings(s, FullUpdate(t)) == t
  {
  }

  /** `Partial<Project>` as `updateProject` receives it */
  datatype ProjectUpdate = ProjectUpdate(
    id: Option<string>,
    title: Option<string>,
    videoUrl: Option<string>,
    thumbnail: Option<Option<string>>,
    uploadDate: Option<Date>,
    clipCount: Option<int>,
    duration: Option<real>,
    status: Option<ProjectStatus>)

  /** `{ ...p, ...update }` */
  function MergeProject(p: Project, u: ProjectUpdate): (r: Project)
    ensures u.id.Some? ==> r.id == u.id.value
    ensures u.id.None? ==> r.id == p.id
    ensures u.title.Some? ==> r.title == u.title.value
    ensures u.title.None? ==> r.title == p.title
    ensures u.videoUrl.Some? ==> r.videoUrl == u.videoUrl.value
    ensures u.videoUrl.None? ==> r.videoUrl == p.videoUrl
    ensures u.thumbnail.Some? ==> r.thumbnail == u.thumbnail.value
    ensures u.thumbnail.None? ==> r.thumbnail == p.thumbnail
    ensures u.uploadDate.Some? ==> r.uploadDate == u.uploadDate.value
    ensures u.uploadDate.None? ==> r.uploadDate == p.uploadDate
    ensures u.clipCount.Some? ==> r.clipCount == u.clipCount.value
    ensures u.clipCount.None? ==> r.clipCount == p.clipCount
    ensures u.duration.Some? ==> r.duration == u.duration.value
    ensures u.duration.None? ==> r.duration == p.duration
    ensures u.status.Some? ==> r.status == u.status.value
    ensures u.status.None? ==> r.status == p.status
    ensures u == ProjectUpdate(None, None, None, None, None, None, None, None) ==> r == p
  {
    Project(
      Pick(u.id, p.id), Pick(u.title, p.title), Pick(u.videoUrl, p.videoUrl),
      Pick(u.thumbnail, p.thumbnail), Pick(u.uploadDate, p.uploadDate),
      Pick(u.clipCount, p.clipCount), Pick(u.duration, p.duration), Pick(u.status, p.status))
  }

  /** Merging the same update twice is merging it once */
  lemma MergeProjectIdempotent(p: Project, u: ProjectUpdate)
    ensures MergeProject(MergeProject(p, u), u) == MergeProject(p, u)
  {
  }
}
