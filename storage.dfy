/** The browser's `localStorage`: one map from key to stored text. JSON is kept
    abstract: a stored value is either a recognised JSON document, with its dates
    in text form, or some other text. */
module Storage {
  import opened Js
  import opened ExportTypes
  import opened DashboardTypes

  /** A date as `JSON.stringify` writes it (an ISO string), kept as its instant */
  datatype DateText = IsoText(ms: int)

  function DateToText(d: Date): DateText { IsoText(d) }

  /** `new Date(text)` */
  function DateFromText(t: DateText): Date { t.ms }

  datatype Stored =
    | Text(text: string)
    | ExportList(exports: seq<ExportedClipOf<DateText>>)
    | ProjectList(projects: seq<ProjectOf<DateText>>)
    | SettingsJson(settings: UserSettings)
    | StatsJson(stats: UserStats)

  /** `if (stored)`: only the empty string is falsy; JSON text is never empty */
  predicate Truthy(v: Stored)
  {
    v != Text("")
  }

  class LocalStorage {
    var data: map<string, Stored>

    constructor ()
      ensures data == map[]
    {
      data := map[];
    }

    /** `getItem`: `null` for a missing key */
    function GetItem(key: string): (r: Option<Stored>)
      reads this
      ensures r.Some? <==> key in data
      ensures r.Some? ==> r.value == data[key]
    {
      if key in data then Some(data[key]) else None
    }

    method SetItem(key: string, value: Stored)
      modifies this
      ensures data == old(data)[key := value]
    {
      data := data[key := value];
    }

    method RemoveItem(key: string)
      modifies this
      ensures data == old(data) - {key}
    {
      data := data - {key};
    }
  }

  // ---------------------------------------------------------------- date round trips

  function ClipToJson(c: ExportedClip): ExportedClipOf<DateText>
  {
    ExportedClip(c.id, c.title, c.thumbnail, c.platform, c.platformBadges, c.fileSize,
                 DateToText(c.exportDate), c.downloadUrl, c.shareLink, c.hashtags)
  }

  /** `{ ...clip, exportDate: new Date(clip.exportDate) }` */
  function ClipFromJson(c: ExportedClipOf<DateText>): ExportedClip
  {
    ExportedClip(c.id, c.title, c.thumbnail, c.platform, c.platformBadges, c.fileSize,
                 DateFromText(c.exportDate), c.downloadUrl, c.shareLink, c.hashtags)
  }

  function ClipsToJson(cs: seq<ExportedClip>): (r: seq<ExportedClipOf<DateText>>)
    ensures |r| == |cs| && forall i :: 0 <= i < |cs| ==> r[i] == ClipToJson(cs[i])
  {
    seq(|cs|, i requires 0 <= i < |cs| => ClipToJson(cs[i]))
  }

  function ClipsFromJson(cs: seq<ExportedClipOf<DateText>>): (r: seq<ExportedClip>)
    ensures |r| == |cs| && forall i :: 0 <= i < |cs| ==> r[i] == ClipFromJson(cs[i])
  {
    seq(|cs|, i requires 0 <= i < |cs| => ClipFromJson(cs[i]))
  }

  /** Writing records and reading them back gives the same records */
  lemma ClipsRoundTrip(cs: seq<ExportedClip>)
    ensures ClipsFromJson(ClipsToJson(cs)) == cs
  {
    var back := ClipsFromJson(ClipsToJson(cs));
    assert forall i :: 0 <= i < |cs| ==> back[i] == cs[i];
  }

  function ProjectToJson(p: Project): ProjectOf<DateText>
  {
    Project(p.id, p.title, p.videoUrl, p.thumbnail, DateToText(p.uploadDate), p.clipCount,
            p.duration, p.status)
  }

  function ProjectFromJson(p: ProjectOf<DateText>): Project
  {
    Project(p.id, p.title, p.videoUrl, p.thumbnail, DateFromText(p.uploadDate), p.clipCount,
            p.duration, p.status)
  }

  function ProjectsToJson(ps: seq<Project>): (r: seq<ProjectOf<DateText>>)
    ensures |r| == |ps| && forall i :: 0 <= i < |ps| ==> r[i] == ProjectToJson(ps[i])
  {
    seq(|ps|, i requires 0 <= i < |ps| => ProjectToJson(ps[i]))
  }

  function ProjectsFromJson(ps: seq<ProjectOf<DateText>>): (r: seq<Project>)
    ensures |r| == |ps| && forall i :: 0 <= i < |ps| ==> r[i] == ProjectFromJson(ps[i])
  {
    seq(|ps|, i requires 0 <= i < |ps| => ProjectFromJson(ps[i]))
  }

  lemma ProjectsRoundTrip(ps: seq<Project>)
    ensures ProjectsFromJson(ProjectsToJson(ps)) == ps
  {
    var back := ProjectsFromJson(ProjectsToJson(ps));
    assert forall i :: 0 <= i < |ps| ==> back[i] == ps[i];
  }
}
