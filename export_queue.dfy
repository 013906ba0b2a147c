/** `useExportQueue`: an ordered list of export jobs processed one at a time.
    The driver effect is split into its three timed steps: `ProcessNext` (pick the
    first queued job and start it), `Tick` (the 100 ms progress interval) and
    `Complete` (the end of the simulated duration). Clock readings and random
    draws are parameters. */
module ExportQueue {
  import opened Js
  import opened ExportTypes
  import ClipTypes
  import opened Storage
  import opened ExportStorage

  // ---------------------------------------------------------------- hashtags

  const BaseTags: seq<string> := ["#viral", "#trending", "#fyp", "#content"]

  /** The own keys of the `platformTags` table */
  function PlatformTags(key: string): (tags: Option<seq<string>>)
    ensures tags.Some? ==> |tags.value| == 4
  {
    if key == "tiktok" then Some(["#tiktok", "#tiktokviral", "#foryou", "#foryoupage"])
    else if key == "instagram" then Some(["#reels", "#instareels", "#instagram", "#explore"])
    else if key == "youtube" then Some(["#shorts", "#youtubeshorts", "#youtube", "#subscribe"])
    else if key == "linkedin" then Some(["#linkedin", "#professional", "#business", "#networking"])
    else None
  }

  /** `platform || ""` */
  function TagKey(platform: Option<string>): string
  {
    if platform.Some? then platform.value else ""
  }

  /** `generateHashtags`: the four base tags first, then the platform's own tags,
      at most eight; just the base tags when the platform is null or unknown */
  function GenerateHashtags(platform: Option<string>): (r: seq<string>)
    ensures 4 <= |r| <= 8 && r[..4] == BaseTags
    ensures PlatformTags(TagKey(platform)).None? ==> r == BaseTags
    ensures PlatformTags(TagKey(platform)).Some? ==> r[4..] == PlatformTags(TagKey(platform)).value
  {
    var extra := PlatformTags(TagKey(platform));
    var all := BaseTags + (if extra.Some? then extra.value else []);
    all[..if |all| < 8 then |all| else 8]
  }

  // ---------------------------------------------------------------- jobs

  const CancelMessage: string := "Cancelled by user"

  /** `export-<clipId>-<now>` */
  function JobId(clipId: string, now: nat): string
  {
    "export-" + clipId + "-" + Decimal(now)
  }

  /** An id determines both its clip id and its clock reading: the reading is the
      run of digits after the last dash, and a clip id is what precedes it */
  lemma JobIdInjective(a: string, b: string, t: nat, u: nat)
    ensures JobId(a, t) == JobId(b, u) <==> a == b && t == u
  {
    if JobId(a, t) == JobId(b, u) {
      assert JobId(a, t) == ("export-" + a) + "-" + Decimal(t);
      assert JobId(b, u) == ("export-" + b) + "-" + Decimal(u);
      SplitAtLastDash("export-" + a, Decimal(t), "export-" + b, Decimal(u));
      assert a == ("export-" + a)[7..] == ("export-" + b)[7..] == b;
      DecimalInjective(t, u);
    }
  }

  /** A text ending in a dash and a run of digits splits there in one way only */
  lemma SplitAtLastDash(p: string, d: string, q: string, e: string)
    requires p + "-" + d == q + "-" + e
    requires AllDigitsIn(d, 10) && AllDigitsIn(e, 10)
    ensures p == q && d == e
  {
    var s := p + "-" + d;
    NoDashInDigits(p, d, |q|);
    NoDashInDigits(q, e, |p|);
    assert s[|p|] == '-' && (q + "-" + e)[|q|] == '-';
    assert |p| == |q|;
    assert p == s[..|p|] == q;
    assert d == s[|p| + 1..] == e;
  }

  lemma NoDashInDigits(p: string, d: string, k: int)
    requires AllDigitsIn(d, 10)
    ensures |p| < k < |p| + 1 + |d| ==> (p + "-" + d)[k] != '-'
  {
    if |p| < k < |p| + 1 + |d| {
      assert (p + "-" + d)[k] == d[k - |p| - 1];
    }
  }

  /** The two clock readings `addToQueue` takes for one clip: `Date.now()` for the
      job's id and `new Date()` for its creation time */
  datatype Stamp = Stamp(idMs: nat, createdAt: nat)

  function NewJob(clip: ClipTypes.Clip, config: ExportConfig, stamp: Stamp): ExportJob
  {
    ExportJob(JobId(clip.id, stamp.idMs), clip.id, clip.title, clip.thumbnail, Queued, 0, 5, config,
              stamp.createdAt, None, None, None, None)
  }

  /** The jobs `addToQueue` creates: one per clip, in clip order, all queued at
      progress 0 with five seconds estimated, copying the clip's fields and the
      config; the clock is read afresh for each clip */
  function NewJobs(clips: seq<ClipTypes.Clip>, config: ExportConfig, stamps: seq<Stamp>): (r: seq<ExportJob>)
    requires |stamps| == |clips|
    ensures |r| == |clips|
    ensures forall i :: 0 <= i < |clips| ==>
      r[i].status == Queued && r[i].progress == 0 && r[i].estimatedTimeRemaining == 5 &&
      r[i].clipId == clips[i].id && r[i].clipTitle == clips[i].title &&
      r[i].thumbnail == clips[i].thumbnail && r[i].config == config &&
      r[i].id == JobId(clips[i].id, stamps[i].idMs) && r[i].createdAt == stamps[i].createdAt
  {
    seq(|clips|, i requires 0 <= i < |clips| => NewJob(clips[i], config, stamps[i]))
  }

  /** Two jobs of a batch share an id exactly when their clips share an id and
      the clock read the same millisecond for both; clips with distinct ids
      always get distinct job ids */
  lemma NewJobIdsDistinct(clips: seq<ClipTypes.Clip>, config: ExportConfig, stamps: seq<Stamp>, i: nat, j: nat)
    requires |stamps| == |clips| && i < |clips| && j < |clips|
    ensures var r := NewJobs(clips, config, stamps);
      r[i].id == r[j].id <==> clips[i].id == clips[j].id && stamps[i].idMs == stamps[j].idMs
  {
    JobIdInjective(clips[i].id, clips[j].id, stamps[i].idMs, stamps[j].idMs);
  }

  /** `jobs.find(j => j.status === "queued")` */
  function FirstQueued(jobs: seq<ExportJob>): (r: Option<nat>)
    ensures r.Some? ==> r.value < |jobs| && jobs[r.value].status == Queued &&
                        forall k :: 0 <= k < r.value ==> jobs[k].status != Queued
    ensures r.None? ==> forall k :: 0 <= k < |jobs| ==> jobs[k].status != Queued
  {
    if jobs == [] then None
    else if jobs[0].status == Queued then Some(0)
    else
      var rest := FirstQueued(jobs[1..]);
      if rest.Some? then Some(rest.value + 1) else None
  }

  /** Sets the status of every job with id `id` to processing */
  function MarkProcessing(jobs: seq<ExportJob>, id: string): (r: seq<ExportJob>)
    ensures |r| == |jobs|
    ensures forall i :: 0 <= i < |jobs| ==>
      r[i] == if jobs[i].id == id then jobs[i].(status := Processing) else jobs[i]
  {
    seq(|jobs|, i requires 0 <= i < |jobs| =>
      if jobs[i].id == id then jobs[i].(status := Processing) else jobs[i])
  }

  /** The progress shown after `elapsed` of `duration` ms: never above 99 */
  function TickProgress(elapsed: real, duration: real): (p: int)
    requires duration > 0.0
    ensures p <= 99
    ensures 0.0 <= elapsed ==> 0 <= p
  {
    var raw := Round(elapsed / duration * 100.0);
    assert 0.0 <= elapsed ==> 0.0 <= elapsed / duration * 100.0;
    if raw < 99 then raw else 99
  }

  /** Seconds left, rounded, never negative */
  function TickRemaining(elapsed: real, duration: real): (s: int)
    ensures 0 <= s
    ensures elapsed >= duration ==> s == 0
  {
    var raw := Round((duration - elapsed) / 1000.0);
    if raw > 0 then raw else 0
  }

  /** Progress does not go back as time passes */
  lemma TickMonotone(e1: real, e2: real, duration: real)
    requires duration > 0.0 && e1 <= e2
    ensures TickProgress(e1, duration) <= TickProgress(e2, duration)
    ensures TickRemaining(e2, duration) <= TickRemaining(e1, duration)
  {
    DivMonotone(e1, e2, duration);
    DivMonotone(duration - e2, duration - e1, 1000.0);
    RoundMonotone(e1 / duration * 100.0, e2 / duration * 100.0);
    RoundMonotone((duration - e2) / 1000.0, (duration - e1) / 1000.0);
  }

  /** Writes progress and remaining time into every job with id `id`, whatever its status */
  function SetProgress(jobs: seq<ExportJob>, id: string, progress: int, remaining: int): (r: seq<ExportJob>)
    ensures |r| == |jobs|
    ensures forall i :: 0 <= i < |jobs| ==>
      r[i] == if jobs[i].id == id
              then jobs[i].(progress := progress, estimatedTimeRemaining := remaining) else jobs[i]
  {
    seq(|jobs|, i requires 0 <= i < |jobs| =>
      if jobs[i].id == id
      then jobs[i].(progress := progress, estimatedTimeRemaining := remaining) else jobs[i])
  }

  /** `(5 + r * 20).toFixed(1) + " MB"` */
  function FileSizeText(draw: real): string
  {
    Fixed1(5.0 + draw * 20.0) + " MB"
  }

  /** The job written at completion: the snapshot taken when the job was picked,
      marked complete */
  function CompletedJob(snapshot: ExportJob, now: Date, sizeDraw: real): (j: ExportJob)
    ensures j.status == Complete && j.progress == 100 && j.estimatedTimeRemaining == 0
    ensures j.id == snapshot.id && j.completedAt == Some(now)
    ensures j.downloadUrl == Some("https://example.com/download/" + snapshot.id)
    ensures j.(status := snapshot.status, progress := snapshot.progress,
               estimatedTimeRemaining := snapshot.estimatedTimeRemaining,
               completedAt := snapshot.completedAt, fileSize := snapshot.fileSize,
               downloadUrl := snapshot.downloadUrl) == snapshot
  {
    snapshot.(status := Complete, progress := 100, estimatedTimeRemaining := 0,
              completedAt := Some(now), fileSize := Some(FileSizeText(sizeDraw)),
              downloadUrl := Some("https://example.com/download/" + snapshot.id))
  }

  /** Replaces every job with id `id` by `job`, whatever its current status */
  function ReplaceById(jobs: seq<ExportJob>, id: string, job: ExportJob): (r: seq<ExportJob>)
    ensures |r| == |jobs|
    ensures forall i :: 0 <= i < |jobs| ==> r[i] == if jobs[i].id == id then job else jobs[i]
  {
    seq(|jobs|, i requires 0 <= i < |jobs| => if jobs[i].id == id then job else jobs[i])
  }

  /** `cancelJob`: a queued or processing job with that id becomes failed with the
      cancellation message; every other job is left as it is */
  function CancelJobs(jobs: seq<ExportJob>, id: string): (r: seq<ExportJob>)
    ensures |r| == |jobs|
    ensures forall i :: 0 <= i < |jobs| && jobs[i].id == id && jobs[i].status.Active() ==>
      r[i] == jobs[i].(status := Failed, error := Some(CancelMessage))
    ensures forall i :: 0 <= i < |jobs| && (jobs[i].id != id || jobs[i].status.Terminal()) ==>
      r[i] == jobs[i]
  {
    seq(|jobs|, i requires 0 <= i < |jobs| =>
      if jobs[i].id == id && jobs[i].status.Active()
      then jobs[i].(status := Failed, error := Some(CancelMessage)) else jobs[i])
  }

  /** After a cancel no job with that id is still queued or processing, and a
      second cancel changes nothing */
  lemma CancelSettles(jobs: seq<ExportJob>, id: string)
    ensures forall j :: j in CancelJobs(jobs, id) && j.id == id ==> j.status.Terminal()
    ensures CancelJobs(CancelJobs(jobs, id), id) == CancelJobs(jobs, id)
  {
    var once := CancelJobs(jobs, id);
    forall j | j in once && j.id == id
      ensures j.status.Terminal()
    {
      var i :| 0 <= i < |once| && once[i] == j;
    }
  }

  /** `clearCompletedJobs`: keeps the queued and processing jobs, in order */
  function ClearCompleted(jobs: seq<ExportJob>): (r: seq<ExportJob>)
    ensures forall j :: j in r <==> j in jobs && j.status.Active()
  {
    Filter(jobs, (j: ExportJob) => j.status.Active())
  }

  /** Clearing keeps relative order: it distributes over joining two lists */
  lemma ClearCompletedKeepsOrder(a: seq<ExportJob>, b: seq<ExportJob>)
    ensures ClearCompleted(a + b) == ClearCompleted(a) + ClearCompleted(b)
  {
    FilterAppend(a, b, (j: ExportJob) => j.status.Active());
  }

  lemma ClearCompletedIdempotent(jobs: seq<ExportJob>)
    ensures ClearCompleted(ClearCompleted(jobs)) == ClearCompleted(jobs)
  {
    FilterAll(ClearCompleted(jobs), (j: ExportJob) => j.status.Active());
  }

  // ---------------------------------------------------------------- derived records

  /** `value || fallback` for an optional string */
  function OrElse(value: Option<string>, fallback: string): string
  {
    if value.Some? && value.value != "" then value.value else fallback
  }

  /** `config.platform || "generic"` */
  function PlatformLabel(config: ExportConfig): string
  {
    OrElse(config.platform, "generic")
  }

  /** `config.platform ? [config.platform] : ["Custom"]` */
  function PlatformBadges(config: ExportConfig): (badges: seq<string>)
    ensures |badges| == 1
    ensures badges[0] == (if PlatformLabel(config) == "generic" && config.platform != Some("generic")
                          then "Custom" else PlatformLabel(config))
  {
    if config.platform.Some? && config.platform.value != "" then [config.platform.value] else ["Custom"]
  }

  /** The record derived from a finished job */
  function Record(job: ExportJob, exportDate: Date): (c: ExportedClip)
    ensures c.id == job.id && c.title == job.clipTitle && c.thumbnail == job.thumbnail
    ensures c.platform == PlatformLabel(job.config) && c.exportDate == exportDate
    ensures c.shareLink == "https://share.contentrepurpose.com/" + job.id
    ensures c.hashtags == GenerateHashtags(job.config.platform)
    ensures c.platformBadges == PlatformBadges(job.config)
    ensures job.fileSize.Some? && job.fileSize.value != "" ==> c.fileSize == job.fileSize.value
    ensures job.fileSize.None? || job.fileSize == Some("") ==> c.fileSize == "Unknown"
    ensures job.downloadUrl.Some? ==> c.downloadUrl == job.downloadUrl.value
    ensures job.downloadUrl.None? ==> c.downloadUrl == ""
  {
    ExportedClip(job.id, job.clipTitle, job.thumbnail, PlatformLabel(job.config),
                 PlatformBadges(job.config), OrElse(job.fileSize, "Unknown"), exportDate,
                 OrElse(job.downloadUrl, ""), "https://share.contentrepurpose.com/" + job.id,
                 GenerateHashtags(job.config.platform))
  }

  /** `getCompletedClips`: one record per complete job, in job order */
  function CompletedClips(jobs: seq<ExportJob>, now: Date): (r: seq<ExportedClip>)
    ensures |r| == |Filter(jobs, (j: ExportJob) => j.status == Complete)|
    ensures forall i :: 0 <= i < |r| ==>
      var j := Filter(jobs, (j: ExportJob) => j.status == Complete)[i];
      r[i] == Record(j, if j.completedAt.Some? then j.completedAt.value else now)
  {
    var done := Filter(jobs, (j: ExportJob) => j.status == Complete);
    seq(|done|, i requires 0 <= i < |done| =>
      Record(done[i], if done[i].completedAt.Some? then done[i].completedAt.value else now))
  }

  /** `hasActiveJobs` */
  predicate HasActiveJobs(jobs: seq<ExportJob>)
  {
    exists i :: 0 <= i < |jobs| && jobs[i].status.Active()
  }

  /** `allComplete`: at least one job, and every job complete or failed */
  predicate AllComplete(jobs: seq<ExportJob>)
  {
    |jobs| > 0 && forall i :: 0 <= i < |jobs| ==> jobs[i].status.Terminal()
  }

  /** On a non-empty list the two flags are each other's negation */
  lemma ActiveXorComplete(jobs: seq<ExportJob>)
    requires |jobs| > 0
    ensures AllComplete(jobs) <==> !HasActiveJobs(jobs)
  {
    if !HasActiveJobs(jobs) {
      forall i | 0 <= i < |jobs| ensures jobs[i].status.Terminal() {
        assert !jobs[i].status.Active();
      }
    }
  }

  // ---------------------------------------------------------------- the hook

  /** The job being processed, its drawn duration in ms and its start time */
  datatype InFlight = InFlight(job: ExportJob, duration: real, startTime: Date)

  class ExportQueue {
    var jobs: seq<ExportJob>
    var isProcessing: bool
    var inFlight: Option<InFlight>
    const store: ExportStore

    /** `isProcessing` holds exactly while a job is in flight; only the in-flight id
        can be processing, so at most one job is started at a time; progress is a percentage */
    ghost predicate Valid()
      reads this
    {
      (isProcessing <==> inFlight.Some?) &&
      (inFlight.Some? ==> 3000.0 <= inFlight.value.duration < 5000.0) &&
      (forall i :: 0 <= i < |jobs| && jobs[i].status == Processing ==>
         inFlight.Some? && jobs[i].id == inFlight.value.job.id) &&
      (forall i :: 0 <= i < |jobs| ==> 0 <= jobs[i].progress <= 100)
    }

    constructor (store: ExportStore)
      ensures Valid() && this.store == store
      ensures jobs == [] && !isProcessing && inFlight == None
    {
      this.store := store;
      jobs := [];
      isProcessing := false;
      inFlight := None;
    }

    /** `addToQueue`: appends the batch after every existing job and returns it */
    method AddToQueue(clips: seq<ClipTypes.Clip>, config: ExportConfig, stamps: seq<Stamp>) returns (newJobs: seq<ExportJob>)
      requires Valid() && |stamps| == |clips|
      modifies this`jobs
      ensures Valid()
      ensures newJobs == NewJobs(clips, config, stamps)
      ensures jobs == old(jobs) + newJobs
    {
      newJobs := NewJobs(clips, config, stamps);
      jobs := jobs + newJobs;
    }

    /** The effect body up to its first wait: nothing happens while a job is in
        flight or when nothing is queued; otherwise the first queued job becomes
        processing and its duration, 3000 + 2000 * draw ms, starts at `now` */
    method ProcessNext(durationDraw: real, now: Date)
      requires Valid() && 0.0 <= durationDraw < 1.0
      modifies this`jobs, this`isProcessing, this`inFlight
      ensures Valid()
      ensures var next := FirstQueued(old(jobs));
        if next.None? || old(isProcessing) then
          jobs == old(jobs) && isProcessing == old(isProcessing) && inFlight == old(inFlight)
        else
          isProcessing && jobs == MarkProcessing(old(jobs), old(jobs)[next.value].id) &&
          inFlight == Some(InFlight(old(jobs)[next.value], 3000.0 + durationDraw * 2000.0, now))
    {
      var next := FirstQueued(jobs);
      if next.None? || isProcessing {
        return;
      }
      var job := jobs[next.value];
      isProcessing := true;
      assert forall i :: 0 <= i < |jobs| ==> jobs[i].status != Processing;
      jobs := MarkProcessing(jobs, job.id);
      inFlight := Some(InFlight(job, 3000.0 + durationDraw * 2000.0, now));
    }

    /** One run of the progress interval: the progress and remaining time go into
        every job with the in-flight id, even one cancelled meanwhile */
    method Tick(now: Date)
      requires Valid()
      requires inFlight.Some? ==> now >= inFlight.value.startTime  // the clock does not run back
      modifies this`jobs
      ensures Valid()
      ensures inFlight.None? ==> jobs == old(jobs)
      ensures inFlight.Some? ==>
        var f := inFlight.value;
        var elapsed := (now - f.startTime) as real;
        jobs == SetProgress(old(jobs), f.job.id, TickProgress(elapsed, f.duration),
                            TickRemaining(elapsed, f.duration))
    {
      if inFlight.None? {
        return;
      }
      var f := inFlight.value;
      var elapsed := (now - f.startTime) as real;
      jobs := SetProgress(jobs, f.job.id, TickProgress(elapsed, f.duration), TickRemaining(elapsed, f.duration));
    }

    /** The end of the wait, as written: the pre-start snapshot, marked complete,
        replaces every job with its id without looking at the current status, the
        record goes to the store, and the queue is free again. The clock is read
        twice: `completedAt` for the job and, after the job update, `exportDate`
        for the record. */
    method Complete(completedAt: Date, exportDate: Date, sizeDraw: real)
      requires Valid()
      modifies this`jobs, this`isProcessing, this`inFlight, store, store.storage
      ensures Valid() && !isProcessing && inFlight == None
      ensures old(inFlight).None? ==>
        jobs == old(jobs) && store.exportedClips == old(store.exportedClips) &&
        store.storage.data == old(store.storage.data)
      ensures old(inFlight).Some? ==>
        var done := CompletedJob(old(inFlight).value.job, completedAt, sizeDraw);
        jobs == ReplaceById(old(jobs), done.id, done) &&
        store.exportedClips == [Record(done, exportDate)] + old(store.exportedClips) &&
        store.storage.data == old(store.storage.data)[ExportStorage.StorageKey := ExportList(ClipsToJson(store.exportedClips))] &&
        store.Saved()
    {
      if inFlight.None? {
        return;
      }
      var done := CompletedJob(inFlight.value.job, completedAt, sizeDraw);
      jobs := ReplaceById(jobs, done.id, done);
      store.Add(Record(done, exportDate));
      isProcessing := false;
      inFlight := None;
    }

    /** `cancelJob` */
    method Cancel(jobId: string)
      requires Valid()
      modifies this`jobs
      ensures Valid() && jobs == CancelJobs(old(jobs), jobId)
    {
      jobs := CancelJobs(jobs, jobId);
    }

    /** `clearCompletedJobs` */
    method ClearCompletedJobs()
      requires Valid()
      modifies this`jobs
      ensures Valid() && jobs == ClearCompleted(old(jobs))
    {
      FilterMembers(jobs, (j: ExportJob) => j.status.Active());
      jobs := ClearCompleted(jobs);
    }
  }

  /** Every element kept by a filter is an element of its input */
  lemma FilterMembers<T(!new)>(s: seq<T>, p: T -> bool)
    ensures forall i :: 0 <= i < |Filter(s, p)| ==> Filter(s, p)[i] in s && p(Filter(s, p)[i])
  {
  }

  // ---------------------------------------------------------------- the defect

  /** As written, a job cancelled while in flight ends up complete: the cancel
      makes it failed, and the completion write then replaces it by the snapshot */
  lemma CancelledJobResurrected(jobs: seq<ExportJob>, snapshot: ExportJob, now: Date, sizeDraw: real, i: nat)
    requires i < |jobs| && jobs[i].id == snapshot.id && jobs[i].status == Processing
    ensures CancelJobs(jobs, snapshot.id)[i].status == Failed
    ensures var done := CompletedJob(snapshot, now, sizeDraw);
      ReplaceById(CancelJobs(jobs, snapshot.id), snapshot.id, done)[i].status == Complete
  {
  }

  /** As written, progress ticks keep landing on a job after it was cancelled */
  lemma TickAfterCancel(jobs: seq<ExportJob>, id: string, progress: int, remaining: int, i: nat)
    requires i < |jobs| && jobs[i].id == id && jobs[i].status == Processing
    requires jobs[i].progress != progress
    ensures var cancelled := CancelJobs(jobs, id);
      cancelled[i].status == Failed &&
      SetProgress(cancelled, id, progress, remaining)[i] != cancelled[i]
  {
  }

  /** The status-checked completion: only a job still processing takes the result */
  function ReplaceIfProcessing(jobs: seq<ExportJob>, id: string, job: ExportJob): (r: seq<ExportJob>)
    ensures |r| == |jobs|
    ensures forall i :: 0 <= i < |jobs| && jobs[i].status.Terminal() ==> r[i] == jobs[i]
    ensures forall i :: 0 <= i < |jobs| && jobs[i].id == id && jobs[i].status == Processing ==> r[i] == job
  {
    seq(|jobs|, i requires 0 <= i < |jobs| =>
      if jobs[i].id == id && jobs[i].status == Processing then job else jobs[i])
  }

  /** The status-checked tick */
  function ProgressIfProcessing(jobs: seq<ExportJob>, id: string, progress: int, remaining: int): (r: seq<ExportJob>)
    ensures |r| == |jobs|
    ensures forall i :: 0 <= i < |jobs| && jobs[i].status.Terminal() ==> r[i] == jobs[i]
  {
    seq(|jobs|, i requires 0 <= i < |jobs| =>
      if jobs[i].id == id && jobs[i].status == Processing
      then jobs[i].(progress := progress, estimatedTimeRemaining := remaining) else jobs[i])
  }

  /** The status-checked start: only queued jobs with the picked id begin */
  function StartIfQueued(jobs: seq<ExportJob>, id: string): (r: seq<ExportJob>)
    ensures |r| == |jobs|
    ensures forall i :: 0 <= i < |jobs| && jobs[i].status.Terminal() ==> r[i] == jobs[i]
  {
    seq(|jobs|, i requires 0 <= i < |jobs| =>
      if jobs[i].id == id && jobs[i].status == Queued then jobs[i].(status := Processing) else jobs[i])
  }

  /** A queue event, with its clock reading and draws */
  datatype Event =
    | Enqueue(clips: seq<ClipTypes.Clip>, config: ExportConfig, stamps: seq<Stamp>)
    | Start(durationDraw: real, now: Date)
    | TickAt(now: Date)
    | Finish(completedAt: Date, exportDate: Date, sizeDraw: real)
    | CancelJob(id: string)
    | ClearDone

  datatype QueueState = QueueState(jobs: seq<ExportJob>, inFlight: Option<InFlight>, records: seq<ExportedClip>)

  /** The queue with every write checked against the current status. A cancelled
      job keeps its cancellation, and its record is not stored. */
  function GuardedStep(s: QueueState, e: Event): (t: QueueState)
    requires e.TickAt? && s.inFlight.Some? ==> s.inFlight.value.duration > 0.0
    requires e.Enqueue? ==> |e.stamps| == |e.clips|
  {
    match e
    case Enqueue(clips, config, stamps) => s.(jobs := s.jobs + NewJobs(clips, config, stamps))
    case Start(draw, now) =>
      var next := FirstQueued(s.jobs);
      if next.None? || s.inFlight.Some? then s
      else
        var job := s.jobs[next.value];
        s.(jobs := StartIfQueued(s.jobs, job.id),
           inFlight := Some(InFlight(job, 3000.0 + draw * 2000.0, now)))
    case TickAt(now) =>
      if s.inFlight.None? then s
      else
        var f := s.inFlight.value;
        var elapsed := (now - f.startTime) as real;
        s.(jobs := ProgressIfProcessing(s.jobs, f.job.id, TickProgress(elapsed, f.duration),
                                        TickRemaining(elapsed, f.duration)))
    case Finish(completedAt, exportDate, draw) =>
      if s.inFlight.None? then s
      else
        var done := CompletedJob(s.inFlight.value.job, completedAt, draw);
        var stillRunning := exists i :: 0 <= i < |s.jobs| && s.jobs[i].id == done.id && s.jobs[i].status == Processing;
        s.(jobs := ReplaceIfProcessing(s.jobs, done.id, done),
           inFlight := None,
           records := if stillRunning then [Record(done, exportDate)] + s.records else s.records)
    case CancelJob(id) => s.(jobs := CancelJobs(s.jobs, id))
    case ClearDone => s.(jobs := ClearCompleted(s.jobs))
  }

  /** Under the checked writes, a complete or failed job is never changed: every
      event but clearing keeps it at its place, and clearing only removes it */
  lemma GuardedTerminalStable(s: QueueState, e: Event, i: nat)
    requires e.TickAt? && s.inFlight.Some? ==> s.inFlight.value.duration > 0.0
    requires e.Enqueue? ==> |e.stamps| == |e.clips|
    requires i < |s.jobs| && s.jobs[i].status.Terminal()
    ensures !e.ClearDone? ==> i < |GuardedStep(s, e).jobs| && GuardedStep(s, e).jobs[i] == s.jobs[i]
    ensures e.ClearDone? ==> s.jobs[i] !in GuardedStep(s, e).jobs
  {
  }

  /** Under the checked writes, completing a job that was cancelled stores no record */
  lemma GuardedCancelSticks(s: QueueState, completedAt: Date, exportDate: Date, draw: real)
    requires s.inFlight.Some?
    requires forall i :: 0 <= i < |s.jobs| && s.jobs[i].id == s.inFlight.value.job.id ==>
      s.jobs[i].status == Failed
    ensures GuardedStep(s, Finish(completedAt, exportDate, draw)).records == s.records
    ensures GuardedStep(s, Finish(completedAt, exportDate, draw)).jobs == s.jobs
  {
    var t := GuardedStep(s, Finish(completedAt, exportDate, draw));
    assert forall i :: 0 <= i < |s.jobs| ==> t.jobs[i] == s.jobs[i];
  }
}
