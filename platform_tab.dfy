/** `PlatformTab`: choosing the target platform and editing the hashtag list */
module PlatformTab {
  import opened Js
  import opened EditorTypes

  /** The suggestions offered for each platform */
  function SuggestedHashtags(p: Platform): (tags: seq<string>)
    ensures |tags| == 5 && NoDup(tags)
    ensures forall i :: 0 <= i < |tags| ==> StartsWith(tags[i], "#")
  {
    match p
    case Instagram => ["#reels", "#viral", "#trending", "#explore", "#fyp"]
    case YouTube => ["#shorts", "#viral", "#trending", "#subscribe", "#youtube"]
    case TikTok => ["#fyp", "#foryou", "#viral", "#trending", "#tiktok"]
    case LinkedIn => ["#leadership", "#business", "#professional", "#career", "#growth"]
  }

  /** `selectPlatform`: the platform's aspect ratio and duration limit; the
      hashtags stay */
  function SelectPlatform(s: PlatformSettings, p: Platform): (r: PlatformSettings)
    ensures r.platform == p && r.hashtags == s.hashtags
    ensures r.aspectRatio == PlatformSpecs(p).aspectRatio && r.maxDuration == PlatformSpecs(p).maxDuration
  {
    var spec := PlatformSpecs(p);
    s.(platform := p, aspectRatio := spec.aspectRatio, maxDuration := spec.maxDuration)
  }

  /** The typed text as a tag: a `#` is put in front when missing; the text is
      otherwise kept as typed, untrimmed */
  function AsTag(input: string): (tag: string)
    ensures StartsWith(tag, "#")
    ensures StartsWith(input, "#") ==> tag == input
    ensures !StartsWith(input, "#") ==> tag[1..] == input
  {
    if StartsWith(input, "#") then input else "#" + input
  }

  /** A tag already marked is left alone */
  lemma AsTagIdempotent(input: string)
    ensures AsTag(AsTag(input)) == AsTag(input)
  {
  }

  /** Appending a tag unless it is already present */
  function AddTag(tags: seq<string>, tag: string): (r: seq<string>)
    ensures tag in r
    ensures forall t :: t in r <==> t in tags || t == tag
    ensures NoDup(tags) ==> NoDup(r)
    ensures tag in tags ==> r == tags
    ensures tag !in tags ==> r == tags + [tag]
  {
    if tag in tags then tags else tags + [tag]
  }

  /** `removeHashtag`: every copy of the tag goes, the rest keep their order */
  function RemoveTag(tags: seq<string>, tag: string): (r: seq<string>)
    ensures forall t :: t in r <==> t in tags && t != tag
  {
    Filter(tags, (h: string) => h != tag)
  }

  /** Removing a tag just added gives back the list it was added to */
  lemma RemoveUndoesAdd(tags: seq<string>, tag: string)
    requires tag !in tags
    ensures RemoveTag(AddTag(tags, tag), tag) == tags
  {
    FilterAppend(tags, [tag], (h: string) => h != tag);
    FilterAll(tags, (h: string) => h != tag);
    assert Filter([tag], (h: string) => h != tag) == [];
  }

  /** `isValidDuration` */
  predicate ValidDuration(s: PlatformSettings, clipDuration: real)
  {
    clipDuration <= s.maxDuration
  }

  /** Choosing a platform makes a clip valid exactly when it fits that
      platform's limit */
  lemma SelectPlatformValidity(s: PlatformSettings, p: Platform, clipDuration: real)
    ensures ValidDuration(SelectPlatform(s, p), clipDuration) <==> clipDuration <= PlatformSpecs(p).maxDuration
    ensures p == YouTube ==> (ValidDuration(SelectPlatform(s, p), clipDuration) <==> clipDuration <= 60.0)
  {
  }

  /** The tab: the settings it edits and the text in the hashtag box */
  class Tab {
    var settings: PlatformSettings
    var newHashtag: string

    constructor (settings: PlatformSettings)
      ensures this.settings == settings && newHashtag == ""
    {
      this.settings := settings;
      newHashtag := "";
    }

    method SetInput(text: string)
      modifies this`newHashtag
      ensures newHashtag == text
    {
      newHashtag := text;
    }

    method Select(p: Platform)
      modifies this`settings
      ensures settings == SelectPlatform(old(settings), p)
    {
      settings := SelectPlatform(settings, p);
    }

    /** `addHashtag`: blank input changes nothing; any other input is added as a
        tag unless present, and the box is cleared either way */
    method AddHashtag()
      modifies this`settings, this`newHashtag
      ensures IsBlank(old(newHashtag)) ==> settings == old(settings) && newHashtag == old(newHashtag)
      ensures !IsBlank(old(newHashtag)) ==>
        settings == old(settings).(hashtags := AddTag(old(settings).hashtags, AsTag(old(newHashtag)))) &&
        newHashtag == ""
    {
      if !IsBlank(newHashtag) {
        var tag := AsTag(newHashtag);
        if tag !in settings.hashtags {
          settings := settings.(hashtags := settings.hashtags + [tag]);
        }
        newHashtag := "";
      }
    }

    method RemoveHashtag(tag: string)
      modifies this`settings
      ensures settings == old(settings).(hashtags := RemoveTag(old(settings).hashtags, tag))
    {
      settings := settings.(hashtags := RemoveTag(settings.hashtags, tag));
    }

    /** `addSuggestedHashtag`: the suggestion is appended unless present */
    method AddSuggestedHashtag(tag: string)
      modifies this`settings
      ensures settings == old(settings).(hashtags := AddTag(old(settings).hashtags, tag))
    {
      if tag !in settings.hashtags {
        settings := settings.(hashtags := settings.hashtags + [tag]);
      }
    }
  }

  /** Every edit keeps the hashtag list free of duplicates, and a typed tag
      always carries its `#` */
  lemma EditsKeepNoDup(tags: seq<string>, input: string, tag: string, p: Platform, s: PlatformSettings)
    requires NoDup(tags)
    ensures NoDup(AddTag(tags, AsTag(input))) && NoDup(AddTag(tags, tag))
    ensures NoDup(RemoveTag(tags, tag))
    ensures SelectPlatform(s, p).hashtags == s.hashtags
  {
    FilterNoDup(tags, (h: string) => h != tag);
  }
}
