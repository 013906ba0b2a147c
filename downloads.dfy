/** The downloads page: searching, filtering and selecting exported records, and
    deleting them from the record store */
module Downloads {
  import opened Js
  import opened ExportTypes
  import opened Storage
  import opened ExportStorage

  /** The search box and the platform filter: a record is kept iff its
      lower-cased title contains the lower-cased query and the filter is "all"
      or its platform */
  function FilteredClips(clips: seq<ExportedClip>, query: string, platformFilter: string): (r: seq<ExportedClip>)
    ensures forall c :: c in r <==>
      c in clips && Includes(Lower(c.title), Lower(query)) && (platformFilter == "all" || c.platform == platformFilter)
    ensures |r| <= |clips|
  {
    Filter(clips, (c: ExportedClip) =>
      Includes(Lower(c.title), Lower(query)) && (platformFilter == "all" || c.platform == platformFilter))
  }

  /** With an empty query and "all", every record is shown, in store order */
  lemma NoFilterShowsAll(clips: seq<ExportedClip>)
    ensures FilteredClips(clips, "", "all") == clips
  {
    forall c | c in clips ensures Includes(Lower(c.title), Lower("")) {
      IncludesEmpty(Lower(c.title));
    }
    FilterAll(clips, (c: ExportedClip) =>
      Includes(Lower(c.title), Lower("")) && ("all" == "all" || c.platform == "all"));
  }

  /** `[...new Set(xs)]`: each value once, in order of first appearance */
  function Unique(xs: seq<string>): (r: seq<string>)
    ensures NoDup(r)
    ensures forall x :: x in r <==> x in xs
  {
    UniqueAfter(xs, [])
  }

  function UniqueAfter(xs: seq<string>, seen: seq<string>): (r: seq<string>)
    requires NoDup(seen)
    ensures NoDup(r) && |seen| <= |r| && r[..|seen|] == seen
    ensures forall x :: x in r <==> x in xs || x in seen
    decreases |xs|
  {
    if xs == [] then seen
    else if xs[0] in seen then UniqueAfter(xs[1..], seen)
    else UniqueAfter(xs[1..], seen + [xs[0]])
  }

  /** `platforms`: every platform in the store, each once */
  function Platforms(clips: seq<ExportedClip>): (r: seq<string>)
    ensures NoDup(r)
    ensures forall p :: p in r <==> exists c :: c in clips && c.platform == p
  {
    Unique(PlatformsOf(clips))
  }

  /** `clips.map(c => c.platform)` */
  function PlatformsOf(clips: seq<ExportedClip>): (r: seq<string>)
    ensures forall p :: p in r <==> exists c :: c in clips && c.platform == p
  {
    if clips == [] then []
    else
      assert forall c :: c in clips[1..] ==> c in clips;
      [clips[0].platform] + PlatformsOf(clips[1..])
  }

  /** What download-all acts on: the selected records among those shown, or all
      shown records when nothing is selected */
  function DownloadTargets(shown: seq<ExportedClip>, selected: seq<string>): (r: seq<ExportedClip>)
    ensures selected == [] ==> r == shown
    ensures forall c :: c in r <==> c in shown && (selected == [] || c.id in selected)
  {
    if |selected| > 0 then Filter(shown, (c: ExportedClip) => c.id in selected) else shown
  }

  /** Two filters in a row are one filter on both conditions */
  lemma {:induction false} FilterFilter<T(!new)>(s: seq<T>, p: T -> bool, q: T -> bool, pq: T -> bool)
    requires forall x :: pq(x) == (p(x) && q(x))
    ensures Filter(Filter(s, p), q) == Filter(s, pq)
    decreases |s|
  {
    if s != [] {
      FilterFilter(s[1..], p, q, pq);
      if p(s[0]) {
        assert Filter(s, p) == [s[0]] + Filter(s[1..], p);
        assert Filter(s, p)[1..] == Filter(s[1..], p);
      }
    }
  }

  /** The records whose id is in none of `ids` */
  function Without(clips: seq<ExportedClip>, ids: seq<string>): (r: seq<ExportedClip>)
    ensures forall c :: c in r <==> c in clips && c.id !in ids
  {
    Filter(clips, (c: ExportedClip) => c.id !in ids)
  }

  /** Removing one more id is dropping it from the ids already removed */
  lemma WithoutOneMore(clips: seq<ExportedClip>, ids: seq<string>, id: string)
    ensures Filter(Without(clips, ids), (c: ExportedClip) => c.id != id) == Without(clips, ids + [id])
  {
    FilterFilter(clips, (c: ExportedClip) => c.id !in ids, (c: ExportedClip) => c.id != id,
                 (c: ExportedClip) => c.id !in ids + [id]);
  }

  lemma WithoutNothing(clips: seq<ExportedClip>)
    ensures Without(clips, []) == clips
  {
    FilterAll(clips, (c: ExportedClip) => c.id !in []);
  }

  class DownloadsPage {
    const store: ExportStore
    var searchQuery: string
    var platformFilter: string
    var selectedClips: seq<string>

    constructor (store: ExportStore)
      ensures this.store == store && searchQuery == "" && platformFilter == "all" && selectedClips == []
    {
      this.store := store;
      searchQuery := "";
      platformFilter := "all";
      selectedClips := [];
    }

    /** The records on screen */
    function Shown(): (r: seq<ExportedClip>)
      reads this, store
      ensures forall c :: c in r ==> c in store.exportedClips
    {
      FilteredClips(store.exportedClips, searchQuery, platformFilter)
    }

    method ToggleClipSelection(clipId: string)
      modifies this`selectedClips
      ensures selectedClips == Toggle(old(selectedClips), clipId)
    {
      selectedClips := Toggle(selectedClips, clipId);
    }

    /** `handleDownloadAll`: the records it announces */
    method DownloadAll() returns (toDownload: seq<ExportedClip>)
      ensures toDownload == DownloadTargets(Shown(), selectedClips)
    {
      var shown, selected := FilteredClips(store.exportedClips, searchQuery, platformFilter), selectedClips;
      toDownload := if |selected| > 0 then Filter(shown, (c: ExportedClip) => c.id in selected) else shown;
    }

    /** `handleDelete`: the record leaves the store and the selection */
    method Delete(clipId: string)
      modifies store, store.storage, this`selectedClips
      ensures store.exportedClips == Without(old(store.exportedClips), [clipId])
      ensures selectedClips == Filter(old(selectedClips), (id: string) => id != clipId)
      ensures clipId !in selectedClips
      ensures store.storage.data ==
        old(store.storage.data)[ExportStorage.StorageKey := ExportList(ClipsToJson(store.exportedClips))]
      ensures store.Saved()
    {
      WithoutOneMore(store.exportedClips, [], clipId);
      WithoutNothing(store.exportedClips);
      assert [] + [clipId] == [clipId];
      store.Remove(clipId);
      selectedClips := Filter(selectedClips, (id: string) => id != clipId);
    }

    /** `handleDeleteAll`: with a selection, removes the selected records one by
        one and clears the selection; without one, empties the store */
    method DeleteAll()
      modifies store, store.storage, this`selectedClips
      ensures old(selectedClips) != [] ==>
        store.exportedClips == Without(old(store.exportedClips), old(selectedClips)) && store.Saved() &&
        store.storage.data ==
          old(store.storage.data)[ExportStorage.StorageKey := ExportList(ClipsToJson(store.exportedClips))]
      ensures old(selectedClips) == [] ==>
        store.exportedClips == [] && store.storage.data == old(store.storage.data) - {ExportStorage.StorageKey}
      ensures selectedClips == []
    {
      if |selectedClips| > 0 {
        RemoveEach(store, selectedClips);
        selectedClips := [];
      } else {
        store.ClearAll();
      }
    }
  }

  /** The `forEach` of delete-all: each id is removed in turn, each removal
      writing the list back */
  method RemoveEach(store: ExportStore, ids: seq<string>)
    requires ids != []
    modifies store, store.storage
    ensures store.exportedClips == Without(old(store.exportedClips), ids)
    ensures store.storage.data ==
      old(store.storage.data)[ExportStorage.StorageKey := ExportList(ClipsToJson(store.exportedClips))]
    ensures store.Saved()
  {
    var start := store.exportedClips;
    ghost var data0 := store.storage.data;
    WithoutNothing(start);
    var k := 0;
    while k < |ids|
      invariant 0 <= k <= |ids|
      invariant store.exportedClips == Without(start, ids[..k])
      invariant k > 0 ==> store.Saved()
      invariant k == 0 ==> store.storage.data == data0
      invariant k > 0 ==> store.storage.data == data0[ExportStorage.StorageKey := store.storage.data[ExportStorage.StorageKey]]
    {
      var before := ids[..k];
      WithoutOneMore(start, before, ids[k]);
      ghost var data := store.storage.data;
      store.Remove(ids[k]);
      ghost var written := store.storage.data[ExportStorage.StorageKey];
      assert store.storage.data == data[ExportStorage.StorageKey := written];
      if k > 0 {
        UpdateTwice(data0, ExportStorage.StorageKey, data[ExportStorage.StorageKey], written);
      }
      assert ids[..k + 1] == before + [ids[k]];
      k := k + 1;
    }
    assert ids[..k] == ids;
  }

  /** Writing a key twice keeps the second value and leaves the other keys alone */
  lemma UpdateTwice<K, V>(m: map<K, V>, key: K, u: V, v: V)
    ensures m[key := u][key := v] == m[key := v]
  {
  }
}
