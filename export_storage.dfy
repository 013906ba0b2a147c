/** `useExportStorage`: the newest-first list of exported records, written in full
    under one storage key after every add or remove. */
module ExportStorage {
  import opened Js
  import opened ExportTypes
  import opened Storage

  const StorageKey: string := "contentrepurpose_exports"

  /** What the mount-time load makes of the stored value: records with their dates
      rehydrated, or nothing when the key is missing, empty or holds something else
      (the parse error is caught and the list stays as it was) */
  function LoadedClips(stored: Option<Stored>, current: seq<ExportedClip>): (r: seq<ExportedClip>)
    ensures stored.Some? && stored.value.ExportList? ==> r == ClipsFromJson(stored.value.exports)
    ensures stored.None? || !stored.value.ExportList? ==> r == current
  {
    if stored.Some? && Truthy(stored.value) then
      match stored.value
      case ExportList(list) => ClipsFromJson(list)
      case _ => current
    else current
  }

  /** Saving a list and loading it on the next mount gives the same list back */
  lemma SaveThenLoad(data: map<string, Stored>, clips: seq<ExportedClip>)
    ensures var saved := data[StorageKey := ExportList(ClipsToJson(clips))];
      LoadedClips(Some(saved[StorageKey]), []) == clips
  {
    ClipsRoundTrip(clips);
  }

  /** The records of one platform, in list order */
  function ClipsByPlatform(clips: seq<ExportedClip>, platform: string): (r: seq<ExportedClip>)
    ensures forall c :: c in r <==> c in clips && c.platform == platform
  {
    Filter(clips, (c: ExportedClip) => c.platform == platform)
  }

  /** The records exported between `start` and `end`, both ends included */
  function ClipsByDateRange(clips: seq<ExportedClip>, start: Date, end: Date): (r: seq<ExportedClip>)
    ensures forall c :: c in r <==> c in clips && start <= c.exportDate <= end
  {
    Filter(clips, (c: ExportedClip) => start <= c.exportDate && c.exportDate <= end)
  }

  class ExportStore {
    var exportedClips: seq<ExportedClip>
    const storage: LocalStorage

    /** State mirrors the stored list once anything has been written */
    ghost predicate Saved()
      reads this, storage
    {
      StorageKey in storage.data && storage.data[StorageKey] == ExportList(ClipsToJson(exportedClips))
    }

    constructor (storage: LocalStorage)
      ensures this.storage == storage && exportedClips == []
    {
      this.storage := storage;
      exportedClips := [];
    }

    /** The mount effect */
    method Load()
      modifies this
      ensures exportedClips == LoadedClips(storage.GetItem(StorageKey), old(exportedClips))
    {
      var stored := storage.GetItem(StorageKey);
      exportedClips := LoadedClips(stored, exportedClips);
    }

    method SaveToStorage(clips: seq<ExportedClip>)
      modifies storage
      ensures storage.data == old(storage.data)[StorageKey := ExportList(ClipsToJson(clips))]
    {
      storage.SetItem(StorageKey, ExportList(ClipsToJson(clips)));
    }

    /** `addExportedClip`: the new record goes first, the rest follow in order */
    method Add(clip: ExportedClip)
      modifies this, storage
      ensures exportedClips == [clip] + old(exportedClips)
      ensures storage.data == old(storage.data)[StorageKey := ExportList(ClipsToJson(exportedClips))]
      ensures Saved()
    {
      var updated := [clip] + exportedClips;
      SaveToStorage(updated);
      exportedClips := updated;
    }

    /** `removeExportedClip`: drops every record with that id, keeping the order of the rest */
    method Remove(clipId: string)
      modifies this, storage
      ensures exportedClips == Filter(old(exportedClips), (c: ExportedClip) => c.id != clipId)
      ensures forall c :: c in exportedClips <==> c in old(exportedClips) && c.id != clipId
      ensures storage.data == old(storage.data)[StorageKey := ExportList(ClipsToJson(exportedClips))]
      ensures Saved()
    {
      var updated := Filter(exportedClips, (c: ExportedClip) => c.id != clipId);
      SaveToStorage(updated);
      exportedClips := updated;
    }

    /** `clearAllExports`: empties the list and deletes the key */
    method ClearAll()
      modifies this, storage
      ensures exportedClips == [] && storage.data == old(storage.data) - {StorageKey}
    {
      exportedClips := [];
      storage.RemoveItem(StorageKey);
    }
  }
}
