/** `ExportConfigModal`: the export settings being chosen and the clips ticked
    for export */
module ExportConfigModal {
  import opened Js
  import opened EditorTypes
  import opened ExportTypes
  import opened ClipTypes

  /** The settings the dialog opens with: high quality MP4 with burned-in
      captions and no platform */
  const InitialConfig := ExportConfig(High, Mp4, BurnedIn, None)

  /** A platform preset replaces quality and format and names the platform;
      the caption choice is the user's and stays */
  function ApplyPreset(config: ExportConfig, p: Platform): (r: ExportConfig)
    ensures r.quality == PlatformPresets(p).quality && r.format == Mp4
    ensures r.platform == Some(PlatformKey(p))
    ensures r.captionOption == config.captionOption
  {
    var preset := PlatformPresets(p);
    config.(quality := preset.quality, format := preset.format, platform := Some(PlatformKey(p)))
  }

  /** Applying a second preset wipes out every trace of the first */
  lemma PresetOverrides(config: ExportConfig, p: Platform, q: Platform)
    ensures ApplyPreset(ApplyPreset(config, p), q) == ApplyPreset(config, q)
  {
  }

  /** The clips of `clips` whose id is ticked, in the order of `clips` */
  function SelectedClips(clips: seq<Clip>, selected: seq<string>): (r: seq<Clip>)
    ensures forall c :: c in r <==> c in clips && c.id in selected
    ensures |r| <= |clips|
  {
    Filter(clips, (c: Clip) => c.id in selected)
  }

  /** Ticking clips that are not offered shows nothing more */
  lemma SelectedClipsIgnoresUnknown(clips: seq<Clip>, selected: seq<string>, id: string)
    requires forall c :: c in clips ==> c.id != id
    ensures SelectedClips(clips, selected + [id]) == SelectedClips(clips, selected)
  {
    SameFilter(clips, selected, id);
  }

  lemma {:induction false} SameFilter(clips: seq<Clip>, selected: seq<string>, id: string)
    requires forall c :: c in clips ==> c.id != id
    ensures Filter(clips, (c: Clip) => c.id in selected + [id]) == Filter(clips, (c: Clip) => c.id in selected)
    decreases |clips|
  {
    if clips != [] {
      assert clips[0].id in selected + [id] <==> clips[0].id in selected;
      SameFilter(clips[1..], selected, id);
    }
  }

  class Modal {
    const clips: seq<Clip>
    var config: ExportConfig
    var selectedForExport: seq<string>

    constructor (clips: seq<Clip>, selectedClipIds: seq<string>)
      ensures this.clips == clips
      ensures config == InitialConfig && selectedForExport == selectedClipIds
    {
      this.clips := clips;
      config := InitialConfig;
      selectedForExport := selectedClipIds;
    }

    /** `handlePlatformPreset` */
    method PlatformPreset(p: Platform)
      modifies this`config
      ensures config == ApplyPreset(old(config), p)
    {
      config := ApplyPreset(config, p);
    }

    /** `toggleClipSelection` */
    method ToggleClipSelection(clipId: string)
      modifies this`selectedForExport
      ensures selectedForExport == Toggle(old(selectedForExport), clipId)
    {
      selectedForExport := Toggle(selectedForExport, clipId);
    }

    /** `handleExport`: the ticked ids and the settings, or nothing at all when
        no clip is ticked */
    method HandleExport() returns (request: Option<(seq<string>, ExportConfig)>)
      ensures request.None? <==> selectedForExport == []
      ensures request.Some? ==> request.value == (selectedForExport, config)
    {
      if |selectedForExport| == 0 {
        return None;
      }
      return Some((selectedForExport, config));
    }
  }

  /** Toggling the same clip twice brings back the same selection when it was not
      ticked, and the same set of ids in any case */
  method ToggleTwiceRestores(m: Modal, clipId: string)
    requires NoDup(m.selectedForExport)
    modifies m
    ensures forall id :: id in m.selectedForExport <==> id in old(m.selectedForExport)
    ensures clipId !in old(m.selectedForExport) ==> m.selectedForExport == old(m.selectedForExport)
    ensures m.config == old(m.config)
  {
    ToggleTwice(m.selectedForExport, clipId);
    m.ToggleClipSelection(clipId);
    m.ToggleClipSelection(clipId);
  }
}
