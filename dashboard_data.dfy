/** `useDashboardData`: projects, usage statistics, settings and the onboarding
    flag, each written to its own storage key whenever it changes. Random draws
    and the clock are parameters. */
module DashboardData {
  import opened Js
  import opened ExportTypes
  import opened DashboardTypes
  import opened Storage

  const ProjectsKey: string := "contentrepurpose_projects"
  const SettingsKey: string := "contentrepurpose_settings"
  const StatsKey: string := "contentrepurpose_stats"
  const OnboardingKey: string := "contentrepurpose_onboarding_complete"

  const Days: seq<string> := ["Mon", "Tue", "Wed", "Thu", "Fri", "Sat", "Sun"]

  /** `generateWeeklyActivity`: one entry per weekday, each with `floor(draw * 8)` clips */
  function WeeklyActivity(draws: seq<real>): (r: seq<DayActivity>)
    requires |draws| == 7 && forall i :: 0 <= i < 7 ==> 0.0 <= draws[i] < 1.0
    ensures |r| == 7
    ensures forall i :: 0 <= i < 7 ==> r[i].day == Days[i] && 0 <= r[i].clips < 8
  {
    seq(7, i requires 0 <= i < 7 => DayActivity(Days[i], Floor(draws[i] * 8.0)))
  }

  /** The hook's state: everything the dashboard shows except the storage estimate */
  datatype Dashboard = Dashboard(
    projects: seq<Project>,
    stats: UserStats,
    settings: UserSettings,
    onboarded: bool)

  /** The state before the mount effect: no projects, zero counters, the default
      settings, and onboarding taken as done so the tour does not flash */
  function Initial(weekly: seq<DayActivity>): (r: Dashboard)
    ensures r.projects == [] && r.settings == DefaultUserSettings && r.onboarded
    ensures r.stats == UserStats(0, 0.0, 0.0, weekly)
  {
    Dashboard([], UserStats(0, 0.0, 0.0, weekly), DefaultUserSettings, true)
  }

  function Lookup(data: map<string, Stored>, key: string): Option<Stored>
  {
    if key in data then Some(data[key]) else None
  }

  /** A non-empty stored value that is not the document the key should hold:
      `JSON.parse` (or the `.map` after it) throws */
  predicate Corrupt(v: Option<Stored>, expected: Stored -> bool)
  {
    v.Some? && Truthy(v.value) && !expected(v.value)
  }

  predicate IsProjectList(v: Stored) { v.ProjectList? }
  predicate IsSettings(v: Stored) { v.SettingsJson? }
  predicate IsStats(v: Stored) { v.StatsJson? }

  /** The mount effect, one `try` block: projects, then settings, then stats, then
      the onboarding flag. A parse error stops the block, so what comes after it
      keeps its previous value while what came before is already set. */
  function LoadState(data: map<string, Stored>, s: Dashboard, weekly: seq<DayActivity>): (r: Dashboard)
    ensures Corrupt(Lookup(data, ProjectsKey), IsProjectList) ==> r == s
    ensures r.onboarded != s.onboarded ==> Parses(data)
    ensures r.settings != s.settings ==> SettingsKey in data && data[SettingsKey].SettingsJson? && r.settings == data[SettingsKey].settings
    ensures r.stats != s.stats ==> StatsKey in data && data[StatsKey].StatsJson? && r.stats == data[StatsKey].stats.(weeklyActivity := weekly)
  {
    var p := Lookup(data, ProjectsKey);
    if Corrupt(p, IsProjectList) then s
    else
      var s1 := if p.Some? && p.value.ProjectList? then s.(projects := ProjectsFromJson(p.value.projects)) else s;
      var st := Lookup(data, SettingsKey);
      if Corrupt(st, IsSettings) then s1
      else
        var s2 := if st.Some? && st.value.SettingsJson? then s1.(settings := st.value.settings) else s1;
        var sx := Lookup(data, StatsKey);
        if Corrupt(sx, IsStats) then s2
        else
          var s3 := if sx.Some? && sx.value.StatsJson? then s2.(stats := sx.value.stats.(weeklyActivity := weekly)) else s2;
          s3.(onboarded := Lookup(data, OnboardingKey) == Some(Text("true")))
  }

  /** No key holds a value its parse would reject */
  predicate Parses(data: map<string, Stored>)
  {
    !Corrupt(Lookup(data, ProjectsKey), IsProjectList) &&
    !Corrupt(Lookup(data, SettingsKey), IsSettings) &&
    !Corrupt(Lookup(data, StatsKey), IsStats)
  }

  /** When every value parses, the flag is set exactly when the stored text is
      "true", the stored projects come back with their dates, and the stored
      counters come back with fresh weekly activity */
  lemma LoadParsed(data: map<string, Stored>, s: Dashboard, weekly: seq<DayActivity>)
    requires Parses(data)
    ensures var r := LoadState(data, s, weekly);
      (r.onboarded <==> OnboardingKey in data && data[OnboardingKey] == Text("true")) &&
      (ProjectsKey in data && data[ProjectsKey].ProjectList? ==>
         r.projects == ProjectsFromJson(data[ProjectsKey].projects)) &&
      (ProjectsKey !in data || !data[ProjectsKey].ProjectList? ==> r.projects == s.projects) &&
      (StatsKey in data && data[StatsKey].StatsJson? ==>
         r.stats == data[StatsKey].stats.(weeklyActivity := weekly)) &&
      (SettingsKey in data && data[SettingsKey].SettingsJson? ==>
         r.settings == data[SettingsKey].settings)
  {
  }

  /** A corrupt project list stops the load before anything is set: in particular
      the onboarding flag keeps its initial `true` whatever its key holds */
  lemma CorruptProjectsLoadNothing(data: map<string, Stored>, weekly: seq<DayActivity>)
    requires ProjectsKey in data && data[ProjectsKey] == Text("{")
    ensures LoadState(data, Initial(weekly), weekly) == Initial(weekly)
    ensures LoadState(data, Initial(weekly), weekly).onboarded
  {
  }

  /** A saved project list is what the next mount loads */
  lemma SaveThenLoadProjects(data: map<string, Stored>, ps: seq<Project>, s: Dashboard, weekly: seq<DayActivity>)
    ensures LoadState(data[ProjectsKey := ProjectList(ProjectsToJson(ps))], s, weekly).projects == ps
  {
    ProjectsRoundTrip(ps);
  }

  /** `Omit<Project, "id" | "uploadDate">` */
  datatype ProjectDraft = ProjectDraft(
    title: string,
    videoUrl: string,
    thumbnail: Option<string>,
    clipCount: int,
    duration: real,
    status: ProjectStatus)

  /** The project `addProject` creates from its two clock readings: `Date.now()`
      for the id and `new Date()` for the upload date */
  function NewProject(draft: ProjectDraft, idMs: nat, uploadDate: nat): (p: Project)
    ensures p.id == "project-" + Decimal(idMs) && p.uploadDate == uploadDate
    ensures p.title == draft.title && p.videoUrl == draft.videoUrl && p.thumbnail == draft.thumbnail
    ensures p.clipCount == draft.clipCount && p.duration == draft.duration && p.status == draft.status
  {
    Project("project-" + Decimal(idMs), draft.title, draft.videoUrl, draft.thumbnail, uploadDate,
            draft.clipCount, draft.duration, draft.status)
  }

  /** Projects created at different milliseconds get different ids */
  lemma NewProjectIdsDiffer(a: ProjectDraft, b: ProjectDraft, m: nat, n: nat, da: nat, db: nat)
    requires m != n
    ensures NewProject(a, m, da).id != NewProject(b, n, db).id
  {
    if NewProject(a, m, da).id == NewProject(b, n, db).id {
      assert Decimal(m) == NewProject(a, m, da).id[8..];
      assert Decimal(n) == NewProject(b, n, db).id[8..];
      DecimalInjective(m, n);
    }
  }

  /** `projects.map(p => p.id === projectId ? { ...p, ...updates } : p)` */
  function UpdateProjects(ps: seq<Project>, projectId: string, u: ProjectUpdate): (r: seq<Project>)
    ensures |r| == |ps|
    ensures forall i :: 0 <= i < |ps| && ps[i].id == projectId ==> r[i] == MergeProject(ps[i], u)
    ensures forall i :: 0 <= i < |ps| && ps[i].id != projectId ==> r[i] == ps[i]
  {
    seq(|ps|, i requires 0 <= i < |ps| => if ps[i].id == projectId then MergeProject(ps[i], u) else ps[i])
  }

  /** An update for an id no project has changes nothing */
  lemma UpdateMissingId(ps: seq<Project>, projectId: string, u: ProjectUpdate)
    requires forall p :: p in ps ==> p.id != projectId
    ensures UpdateProjects(ps, projectId, u) == ps
  {
    var r := UpdateProjects(ps, projectId, u);
    assert forall i :: 0 <= i < |ps| ==> r[i] == ps[i];
  }

  /** `projects.filter(p => p.id !== projectId)` */
  function DeleteProjects(ps: seq<Project>, projectId: string): (r: seq<Project>)
    ensures forall p :: p in r <==> p in ps && p.id != projectId
    ensures |r| <= |ps|
  {
    Filter(ps, (p: Project) => p.id != projectId)
  }

  /** Deleting twice is deleting once */
  lemma DeleteIdempotent(ps: seq<Project>, projectId: string)
    ensures DeleteProjects(DeleteProjects(ps, projectId), projectId) == DeleteProjects(ps, projectId)
  {
    var once := DeleteProjects(ps, projectId);
    FilterAll(once, (p: Project) => p.id != projectId);
  }

  /** `incrementClipsCreated`: a quarter of an hour saved per clip */
  function Increment(st: UserStats, count: real): (r: UserStats)
    ensures r.clipsCreated == st.clipsCreated + count
    ensures r.hoursSaved == st.hoursSaved + count * 0.25
    ensures r.totalVideosProcessed == st.totalVideosProcessed && r.weeklyActivity == st.weeklyActivity
  {
    st.(clipsCreated := st.clipsCreated + count, hoursSaved := st.hoursSaved + count * 0.25)
  }

  /** Two increments add up */
  lemma IncrementAdds(st: UserStats, a: real, b: real)
    ensures Increment(Increment(st, a), b) == Increment(st, a + b)
  {
  }

  const DefaultIncrement: real := 1.0

  class DashboardData {
    var projects: seq<Project>
    var stats: UserStats
    var settings: UserSettings
    var hasCompletedOnboarding: bool
    const storage: LocalStorage

    function State(): Dashboard
      reads this
    {
      Dashboard(projects, stats, settings, hasCompletedOnboarding)
    }

    constructor (storage: LocalStorage, weeklyDraws: seq<real>)
      requires |weeklyDraws| == 7 && forall i :: 0 <= i < 7 ==> 0.0 <= weeklyDraws[i] < 1.0
      ensures this.storage == storage && State() == Initial(WeeklyActivity(weeklyDraws))
    {
      this.storage := storage;
      projects := [];
      stats := UserStats(0, 0.0, 0.0, WeeklyActivity(weeklyDraws));
      settings := DefaultUserSettings;
      hasCompletedOnboarding := true;
    }

    /** The mount effect; `weeklyDraws` feed the fresh weekly activity */
    method Load(weeklyDraws: seq<real>)
      requires |weeklyDraws| == 7 && forall i :: 0 <= i < 7 ==> 0.0 <= weeklyDraws[i] < 1.0
      modifies this
      ensures State() == LoadState(storage.data, old(State()), WeeklyActivity(weeklyDraws))
    {
      var storedProjects := storage.GetItem(ProjectsKey);
      if Corrupt(storedProjects, IsProjectList) { return; }
      if storedProjects.Some? && storedProjects.value.ProjectList? {
        projects := ProjectsFromJson(storedProjects.value.projects);
      }
      var storedSettings := storage.GetItem(SettingsKey);
      if Corrupt(storedSettings, IsSettings) { return; }
      if storedSettings.Some? && storedSettings.value.SettingsJson? {
        settings := storedSettings.value.settings;
      }
      var storedStats := storage.GetItem(StatsKey);
      if Corrupt(storedStats, IsStats) { return; }
      if storedStats.Some? && storedStats.value.StatsJson? {
        stats := storedStats.value.stats.(weeklyActivity := WeeklyActivity(weeklyDraws));
      }
      var onboardingComplete := storage.GetItem(OnboardingKey);
      hasCompletedOnboarding := onboardingComplete == Some(Text("true"));
    }

    /** `saveProjects`: the whole list is written, then becomes the state */
    method SaveProjects(updated: seq<Project>)
      modifies this, storage
      ensures projects == updated
      ensures storage.data == old(storage.data)[ProjectsKey := ProjectList(ProjectsToJson(updated))]
      ensures stats == old(stats) && settings == old(settings)
      ensures hasCompletedOnboarding == old(hasCompletedOnboarding)
    {
      storage.SetItem(ProjectsKey, ProjectList(ProjectsToJson(updated)));
      projects := updated;
    }

    /** `addProject`: the new project goes first and one more video is counted */
    method AddProject(draft: ProjectDraft, idMs: nat, uploadDate: nat) returns (newProject: Project)
      modifies this, storage
      ensures newProject == NewProject(draft, idMs, uploadDate)
      ensures projects == [newProject] + old(projects)
      ensures stats == old(stats).(totalVideosProcessed := old(stats).totalVideosProcessed + 1)
      ensures settings == old(settings) && hasCompletedOnboarding == old(hasCompletedOnboarding)
      ensures storage.data == old(storage.data)[ProjectsKey := ProjectList(ProjectsToJson(projects))]
                                              [StatsKey := StatsJson(stats)]
    {
      newProject := NewProject(draft, idMs, uploadDate);
      SaveProjects([newProject] + projects);
      var newStats := stats.(totalVideosProcessed := stats.totalVideosProcessed + 1);
      stats := newStats;
      storage.SetItem(StatsKey, StatsJson(newStats));
    }

    /** `updateProject` */
    method UpdateProject(projectId: string, updates: ProjectUpdate)
      modifies this, storage
      ensures projects == UpdateProjects(old(projects), projectId, updates)
      ensures stats == old(stats) && settings == old(settings)
      ensures hasCompletedOnboarding == old(hasCompletedOnboarding)
      ensures storage.data == old(storage.data)[ProjectsKey := ProjectList(ProjectsToJson(projects))]
    {
      SaveProjects(UpdateProjects(projects, projectId, updates));
    }

    /** `deleteProject` */
    method DeleteProject(projectId: string)
      modifies this, storage
      ensures projects == DeleteProjects(old(projects), projectId)
      ensures stats == old(stats) && settings == old(settings)
      ensures hasCompletedOnboarding == old(hasCompletedOnboarding)
      ensures storage.data == old(storage.data)[ProjectsKey := ProjectList(ProjectsToJson(projects))]
    {
      SaveProjects(DeleteProjects(projects, projectId));
    }

    /** `incrementClipsCreated(count = 1)` */
    method IncrementClipsCreated(count: real)
      modifies this, storage
      ensures stats == Increment(old(stats), count)
      ensures projects == old(projects) && settings == old(settings)
      ensures hasCompletedOnboarding == old(hasCompletedOnboarding)
      ensures storage.data == old(storage.data)[StatsKey := StatsJson(stats)]
    {
      var newStats := Increment(stats, count);
      stats := newStats;
      storage.SetItem(StatsKey, StatsJson(newStats));
    }

    /** `updateSettings`: a shallow merge, then written */
    method UpdateSettings(newSettings: SettingsUpdate)
      modifies this, storage
      ensures settings == MergeSettings(old(settings), newSettings)
      ensures projects == old(projects) && stats == old(stats)
      ensures hasCompletedOnboarding == old(hasCompletedOnboarding)
      ensures storage.data == old(storage.data)[SettingsKey := SettingsJson(settings)]
    {
      var updated := MergeSettings(settings, newSettings);
      settings := updated;
      storage.SetItem(SettingsKey, SettingsJson(updated));
    }

    method CompleteOnboarding()
      modifies this, storage
      ensures hasCompletedOnboarding
      ensures projects == old(projects) && stats == old(stats) && settings == old(settings)
      ensures storage.data == old(storage.data)[OnboardingKey := Text("true")]
    {
      hasCompletedOnboarding := true;
      storage.SetItem(OnboardingKey, Text("true"));
    }

    method ResetOnboarding()
      modifies this, storage
      ensures !hasCompletedOnboarding
      ensures projects == old(projects) && stats == old(stats) && settings == old(settings)
      ensures storage.data == old(storage.data) - {OnboardingKey}
    {
      hasCompletedOnboarding := false;
      storage.RemoveItem(OnboardingKey);
    }
  }

  /** Completing onboarding survives a reload, and resetting it does too, as long
      as the other keys parse */
  lemma OnboardingPersists(data: map<string, Stored>, s: Dashboard, weekly: seq<DayActivity>)
    requires Parses(data)
    ensures LoadState(data[OnboardingKey := Text("true")], s, weekly).onboarded
    ensures !LoadState(data - {OnboardingKey}, s, weekly).onboarded
  {
    LoadParsed(data[OnboardingKey := Text("true")], s, weekly);
    LoadParsed(data - {OnboardingKey}, s, weekly);
  }
}
