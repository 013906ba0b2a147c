/** `VideoUploadZone`: file validation and the simulated upload with its
    progress timer */
module VideoUploadZone {
  import opened Js

  /** The file picked or dropped: its MIME type and its size in bytes */
  datatype File = File(name: string, mimeType: string, size: nat)

  datatype UploadStatus = Idle | Dragging | Uploading | Success | Error

  const AcceptedFormats: seq<string> := ["video/mp4", "video/quicktime", "video/x-msvideo"]
  const MaxSizeMb: nat := 500
  const MaxSizeBytes: nat := MaxSizeMb * 1024 * 1024

  const InvalidFormatMessage := "Invalid format. Please upload MP4, MOV, or AVI files."

  function TooLargeMessage(): (m: string)
    ensures StartsWith(m, "File too large. Maximum size is ")
  {
    "File too large. Maximum size is " + Decimal(MaxSizeMb) + "MB."
  }

  /** `validateFile`: the format is checked first, then the size; a file of
      exactly 500 MiB is accepted */
  function ValidateFile(f: File): (error: Option<string>)
    ensures error.None? <==> f.mimeType in AcceptedFormats && f.size <= 524288000
    ensures f.mimeType !in AcceptedFormats ==> error == Some(InvalidFormatMessage)
    ensures f.mimeType in AcceptedFormats && f.size > 524288000 ==> error == Some(TooLargeMessage())
  {
    if f.mimeType !in AcceptedFormats then Some(InvalidFormatMessage)
    else if f.size > MaxSizeBytes then Some(TooLargeMessage())
    else None
  }

  /** One tick of the progress counter with a draw in [0, 1): 5 to 20 points
      more, reaching 100 ends the upload */
  function Step(counter: real, draw: real): (next: real)
    ensures 0.0 <= draw < 1.0 ==> counter + 5.0 <= next < counter + 20.0
  {
    counter + draw * 15.0 + 5.0
  }

  /** The counter after the ticks of `draws`, stopping at 100 */
  function Run(counter: real, draws: seq<real>): (r: real)
    decreases |draws|
  {
    if draws == [] || counter >= 100.0 then counter
    else
      var next := Step(counter, draws[0]);
      if next >= 100.0 then 100.0 else Run(next, draws[1..])
  }

  predicate Draws(draws: seq<real>)
  {
    forall i :: 0 <= i < |draws| ==> 0.0 <= draws[i] < 1.0
  }

  /** Each tick adds at least 5 until the counter is full */
  lemma {:induction false} RunAdvances(counter: real, draws: seq<real>)
    requires Draws(draws) && 0.0 <= counter
    ensures Run(counter, draws) >= 100.0 || Run(counter, draws) >= counter + 5.0 * |draws| as real
    ensures Run(counter, draws) <= 100.0 || counter > 100.0
    decreases |draws|
  {
    if draws != [] && counter < 100.0 {
      var next := Step(counter, draws[0]);
      if next < 100.0 {
        assert Draws(draws[1..]) by {
          forall i | 0 <= i < |draws[1..]| ensures 0.0 <= draws[1..][i] < 1.0 {
            assert draws[1..][i] == draws[i + 1];
          }
        }
        RunAdvances(next, draws[1..]);
      }
    }
  }

  /** Twenty ticks always finish an upload */
  lemma FinishesWithinTwenty(draws: seq<real>)
    requires Draws(draws) && |draws| >= 20
    ensures Run(0.0, draws) == 100.0
  {
    RunAdvances(0.0, draws);
  }

  /** A started progress timer: the file it reports and its private counter */
  datatype Timer = Timer(file: File, counter: real, running: bool)

  class UploadZone {
    var status: UploadStatus
    var progress: real
    var file: Option<File>
    var error: Option<string>
    /** Every timer started, in order; a cleared timer stays with `running` false */
    var timers: seq<Timer>
    /** The files handed to `onUploadComplete`, in order */
    var completed: seq<File>

    ghost predicate Valid()
      reads this
    {
      0.0 <= progress <= 100.0 &&
      forall i :: 0 <= i < |timers| ==> 0.0 <= timers[i].counter <= 100.0
    }

    constructor ()
      ensures status == Idle && progress == 0.0 && file == None && error == None
      ensures timers == [] && completed == []
      ensures Valid()
    {
      status := Idle;
      progress := 0.0;
      file := None;
      error := None;
      timers := [];
      completed := [];
    }

    /** `handleFile`: a rejected file shows its error and no file (the progress
        is left as it was); an accepted one starts a new timer from 0 */
    method HandleFile(f: File)
      modifies this`status, this`error, this`file, this`progress, this`timers
      ensures ValidateFile(f).Some? ==>
        status == Error && error == ValidateFile(f) && file == None &&
        progress == old(progress) && timers == old(timers)
      ensures ValidateFile(f).None? ==>
        status == Uploading && file == Some(f) && progress == 0.0 && error == None &&
        timers == old(timers) + [Timer(f, 0.0, true)]
      ensures old(Valid()) ==> Valid()
    {
      var e := ValidateFile(f);
      if e.Some? {
        status, error, file := Error, e, None;
        return;
      }
      status, file, progress, error := Uploading, Some(f), 0.0, None;
      timers := timers + [Timer(f, 0.0, true)];
    }

    /** One firing of timer `i` with a draw in [0, 1); it acts whatever the
        status is now */
    method Tick(i: nat, draw: real)
      requires i < |timers| && 0.0 <= draw < 1.0
      modifies this`status, this`progress, this`timers, this`completed
      ensures var t := old(timers[i]); var next := Step(t.counter, draw);
        (!t.running ==> status == old(status) && progress == old(progress) &&
                        timers == old(timers) && completed == old(completed)) &&
        (t.running && next >= 100.0 ==>
           status == Success && progress == 100.0 && timers == old(timers)[i := Timer(t.file, 100.0, false)] &&
           completed == old(completed) + [t.file]) &&
        (t.running && next < 100.0 ==>
           status == old(status) && progress == next && timers == old(timers)[i := t.(counter := next)] &&
           completed == old(completed))
      ensures old(Valid()) ==> Valid()
    {
      var t := timers[i];
      if t.running {
        var next := Step(t.counter, draw);
        if next >= 100.0 {
          timers := timers[i := Timer(t.file, 100.0, false)];
          status, progress := Success, 100.0;
          completed := completed + [t.file];
        } else {
          timers := timers[i := t.(counter := next)];
          progress := next;
        }
      }
    }

    /** `handleDrop`: back to idle, then the first dropped file, if any, is handled */
    method HandleDrop(dropped: Option<File>)
      modifies this`status, this`error, this`file, this`progress, this`timers
      ensures dropped.None? ==> status == Idle && error == old(error) && file == old(file) &&
                                progress == old(progress) && timers == old(timers)
      ensures dropped.Some? && ValidateFile(dropped.value).Some? ==>
        status == Error && error == ValidateFile(dropped.value) && file == None &&
        progress == old(progress) && timers == old(timers)
      ensures dropped.Some? && ValidateFile(dropped.value).None? ==>
        status == Uploading && file == dropped && progress == 0.0 && error == None &&
        timers == old(timers) + [Timer(dropped.value, 0.0, true)]
      ensures old(Valid()) ==> Valid()
    {
      status := Idle;
      if dropped.Some? {
        HandleFile(dropped.value);
      }
    }

    method DragOver()
      modifies this`status
      ensures status == Dragging
    {
      status := Dragging;
    }

    method DragLeave()
      modifies this`status
      ensures status == Idle
    {
      status := Idle;
    }

    /** `resetUpload`: the initial state; timers already started are not stopped */
    method Reset()
      modifies this`status, this`progress, this`file, this`error
      ensures status == Idle && progress == 0.0 && file == None && error == None
      ensures old(Valid()) ==> Valid()
    {
      status, progress, file, error := Idle, 0.0, None, None;
    }
  }

  /** An accepted file ends in success after twenty ticks of its timer with
      nothing else in between */
  method UploadCompletes(z: UploadZone, f: File, draws: seq<real>)
    requires z.Valid() && ValidateFile(f).None? && Draws(draws) && |draws| == 20
    modifies z
    ensures z.status == Success && z.progress == 100.0
    ensures z.completed == old(z.completed) + [f]
  {
    z.HandleFile(f);
    var i := |z.timers| - 1;
    var k := 0;
    while k < 20 && z.timers[i].running
      invariant 0 <= k <= 20 && i < |z.timers| && z.Valid()
      invariant z.timers[i].file == f
      invariant z.timers[i].running ==>
        z.status == Uploading && z.completed == old(z.completed) &&
        z.timers[i].counter == Run(0.0, draws[..k]) && z.timers[i].counter < 100.0
      invariant !z.timers[i].running ==>
        z.status == Success && z.progress == 100.0 && z.completed == old(z.completed) + [f]
    {
      RunSnoc(0.0, draws[..k], draws[k]);
      assert draws[..k + 1] == draws[..k] + [draws[k]];
      z.Tick(i, draws[k]);
      k := k + 1;
    }
    if z.timers[i].running {
      assert draws[..20] == draws;
      FinishesWithinTwenty(draws);
      assert false;
    }
  }

  /** Running one more tick from a counter still below 100 */
  lemma {:induction false} RunSnoc(counter: real, draws: seq<real>, d: real)
    requires Run(counter, draws) < 100.0
    ensures Run(counter, draws + [d]) ==
      (var next := Step(Run(counter, draws), d); if next >= 100.0 then 100.0 else next)
    decreases |draws|
  {
    if draws == [] {
      assert Run(counter, [d]) == (var next := Step(counter, d); if next >= 100.0 then 100.0 else Run(next, []));
    } else {
      assert (draws + [d])[1..] == draws[1..] + [d];
      var next := Step(counter, draws[0]);
      if next < 100.0 {
        RunSnoc(next, draws[1..], d);
      }
    }
  }
}
