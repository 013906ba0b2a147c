/** The settings page: a local copy of the user's settings edited by toggles and
    written back on save */
module SettingsPage {
  import opened Js
  import opened ExportTypes
  import opened DashboardTypes
  import opened Storage
  import opened DashboardData

  /** A caption style ticked or unticked; nothing else changes */
  function ToggleCaptionStyle(s: UserSettings, styleId: string): (r: UserSettings)
    ensures r.favoriteCaptionStyles == Toggle(s.favoriteCaptionStyles, styleId)
    ensures r.(favoriteCaptionStyles := s.favoriteCaptionStyles) == s
  {
    s.(favoriteCaptionStyles := Toggle(s.favoriteCaptionStyles, styleId))
  }

  /** A platform ticked or unticked; nothing else changes */
  function TogglePlatform(s: UserSettings, platformId: string): (r: UserSettings)
    ensures r.platformPreferences == Toggle(s.platformPreferences, platformId)
    ensures r.(platformPreferences := s.platformPreferences) == s
  {
    s.(platformPreferences := Toggle(s.platformPreferences, platformId))
  }

  /** Ticking a style twice gives back the same favourites when it was unticked,
      and the same set of favourites in any case */
  lemma ToggleStyleTwice(s: UserSettings, styleId: string)
    requires NoDup(s.favoriteCaptionStyles)
    ensures var t := ToggleCaptionStyle(ToggleCaptionStyle(s, styleId), styleId);
      (forall x :: x in t.favoriteCaptionStyles <==> x in s.favoriteCaptionStyles) &&
      (styleId !in s.favoriteCaptionStyles ==> t == s)
  {
    ToggleTwice(s.favoriteCaptionStyles, styleId);
  }

  /** `storagePercentage`: the share of a 50 MB budget, never above 100 */
  function StoragePercentage(usedMb: real): (r: real)
    ensures r <= 100.0
    ensures 0.0 <= usedMb ==> 0.0 <= r
    ensures usedMb <= 50.0 ==> r == usedMb * 2.0
    ensures usedMb >= 50.0 ==> r == 100.0
  {
    Min(usedMb / 50.0 * 100.0, 100.0)
  }

  /** The page's local copy starts as the hook's settings at the first render
      and is only written back by `handleSave` */
  class Page {
    const data: DashboardData
    var localSettings: UserSettings

    constructor (data: DashboardData)
      ensures this.data == data && localSettings == data.settings
    {
      this.data := data;
      localSettings := data.settings;
    }

    method ToggleStyle(styleId: string)
      modifies this`localSettings
      ensures localSettings == ToggleCaptionStyle(old(localSettings), styleId)
    {
      localSettings := ToggleCaptionStyle(localSettings, styleId);
    }

    method TogglePlatformPreference(platformId: string)
      modifies this`localSettings
      ensures localSettings == TogglePlatform(old(localSettings), platformId)
    {
      localSettings := TogglePlatform(localSettings, platformId);
    }

    /** `handleSave`: every field of the local copy replaces the stored one */
    method HandleSave()
      modifies data, data.storage
      ensures data.settings == localSettings
      ensures data.projects == old(data.projects) && data.stats == old(data.stats)
      ensures data.hasCompletedOnboarding == old(data.hasCompletedOnboarding)
      ensures data.storage.data == old(data.storage.data)[SettingsKey := SettingsJson(localSettings)]
    {
      MergeLaws(data.settings, localSettings, FullUpdate(localSettings));
      data.UpdateSettings(FullUpdate(localSettings));
    }

    /** Bringing the local copy up to date with the hook's settings */
    method Sync()
      modifies this`localSettings
      ensures localSettings == data.settings
    {
      localSettings := data.settings;
    }
  }

  /** Opening the page as written: the local copy is taken at the first render,
      before the mount effect has loaded the stored settings */
  method OpenAsWritten(storage: LocalStorage, weeklyDraws: seq<real>) returns (page: Page)
    requires |weeklyDraws| == 7 && forall i :: 0 <= i < 7 ==> 0.0 <= weeklyDraws[i] < 1.0
    modifies storage
    ensures page.localSettings == DefaultUserSettings
    ensures page.data.storage == storage && storage.data == old(storage.data)
    ensures page.data.State() ==
      LoadState(storage.data, Initial(WeeklyActivity(weeklyDraws)), WeeklyActivity(weeklyDraws))
  {
    var data := new DashboardData(storage, weeklyDraws);
    page := new Page(data);
    data.Load(weeklyDraws);
  }

  /** Opening the page with the local copy synchronised once the stored settings
      are loaded */
  method OpenSynced(storage: LocalStorage, weeklyDraws: seq<real>) returns (page: Page)
    requires |weeklyDraws| == 7 && forall i :: 0 <= i < 7 ==> 0.0 <= weeklyDraws[i] < 1.0
    modifies storage
    ensures page.localSettings == page.data.settings
    ensures page.data.storage == storage && storage.data == old(storage.data)
    ensures page.data.State() ==
      LoadState(storage.data, Initial(WeeklyActivity(weeklyDraws)), WeeklyActivity(weeklyDraws))
  {
    var data := new DashboardData(storage, weeklyDraws);
    page := new Page(data);
    data.Load(weeklyDraws);
    page.Sync();
  }

  /** As written, saving right after opening writes the defaults over the
      settings the user had stored */
  lemma StaleSaveRevertsStoredSettings(weekly: seq<DayActivity>)
    ensures var stored := UserSettings(Low, Mov, [], [], Notifications(false, false, false));
      var loaded := LoadState(map[SettingsKey := SettingsJson(stored)], Initial(weekly), weekly).settings;
      loaded == stored &&
      MergeSettings(loaded, FullUpdate(DefaultUserSettings)) == DefaultUserSettings &&
      DefaultUserSettings != stored
  {
    var stored := UserSettings(Low, Mov, [], [], Notifications(false, false, false));
    MergeLaws(stored, DefaultUserSettings, FullUpdate(DefaultUserSettings));
    assert DefaultUserSettings.defaultQuality != stored.defaultQuality;
  }

  /** With the local copy synchronised, toggling one style and saving changes the
      stored favourites by that style and nothing else */
  lemma SyncedSaveKeepsStoredSettings(loaded: UserSettings, styleId: string)
    ensures var saved := MergeSettings(loaded, FullUpdate(ToggleCaptionStyle(loaded, styleId)));
      saved.(favoriteCaptionStyles := loaded.favoriteCaptionStyles) == loaded &&
      saved.favoriteCaptionStyles == Toggle(loaded.favoriteCaptionStyles, styleId)
  {
    MergeLaws(loaded, ToggleCaptionStyle(loaded, styleId), FullUpdate(ToggleCaptionStyle(loaded, styleId)));
  }
}
