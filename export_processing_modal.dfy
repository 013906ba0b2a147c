/** `ExportProcessingModal`: the figures and labels the export progress dialog
    derives from the job list */
module ExportProcessingModal {
  import opened Js
  import opened ExportTypes

  /** The number of jobs in status `st` */
  function StatusCount(jobs: seq<ExportJob>, st: ExportStatus): (n: nat)
    ensures n <= |jobs|
  {
    Count(jobs, (j: ExportJob) => j.status == st)
  }

  lemma CountUnfold(jobs: seq<ExportJob>, st: ExportStatus)
    requires jobs != []
    ensures StatusCount(jobs, st) == (if jobs[0].status == st then 1 else 0) + StatusCount(jobs[1..], st)
  {
  }

  /** Every job is counted under exactly one status */
  lemma {:induction false} CountsPartition(jobs: seq<ExportJob>)
    ensures StatusCount(jobs, Queued) + StatusCount(jobs, Processing)
          + StatusCount(jobs, Complete) + StatusCount(jobs, Failed) == |jobs|
    decreases |jobs|
  {
    if jobs != [] {
      CountUnfold(jobs, Queued);
      CountUnfold(jobs, Processing);
      CountUnfold(jobs, Complete);
      CountUnfold(jobs, Failed);
      CountsPartition(jobs[1..]);
    }
  }

  /** The sum of the jobs' progress */
  function ProgressSum(jobs: seq<ExportJob>): int
  {
    if jobs == [] then 0 else jobs[0].progress + ProgressSum(jobs[1..])
  }

  predicate ProgressInRange(jobs: seq<ExportJob>)
  {
    forall i :: 0 <= i < |jobs| ==> 0 <= jobs[i].progress <= 100
  }

  lemma {:induction false} ProgressSumBounds(jobs: seq<ExportJob>)
    requires ProgressInRange(jobs)
    ensures 0 <= ProgressSum(jobs) <= 100 * |jobs|
    decreases |jobs|
  {
    if jobs != [] {
      assert ProgressInRange(jobs[1..]) by {
        forall i | 0 <= i < |jobs[1..]| ensures 0 <= jobs[1..][i].progress <= 100 {
          assert jobs[1..][i] == jobs[i + 1];
        }
      }
      ProgressSumBounds(jobs[1..]);
    }
  }

  /** `totalProgress`: the rounded mean progress, 0 for no jobs; a percentage
      whenever each job's progress is one */
  function TotalProgress(jobs: seq<ExportJob>): (r: int)
    ensures jobs == [] ==> r == 0
    ensures jobs != [] ==> r == Round(ProgressSum(jobs) as real / |jobs| as real)
    ensures ProgressInRange(jobs) ==> 0 <= r <= 100
  {
    if |jobs| > 0 then
      var mean := ProgressSum(jobs) as real / |jobs| as real;
      if ProgressInRange(jobs) then
        ProgressSumBounds(jobs);
        MeanBounds(ProgressSum(jobs), |jobs|);
        Round(mean)
      else Round(mean)
    else 0
  }

  lemma MeanBounds(sum: int, n: nat)
    requires 0 < n && 0 <= sum <= 100 * n
    ensures 0.0 <= sum as real / n as real <= 100.0
  {
    DivMonotone(0.0, sum as real, n as real);
    DivMonotone(sum as real, 100.0 * n as real, n as real);
  }

  /** Jobs that all show the same progress show it overall */
  lemma {:induction false} UniformProgress(jobs: seq<ExportJob>, p: int)
    requires forall i :: 0 <= i < |jobs| ==> jobs[i].progress == p
    ensures ProgressSum(jobs) == p * |jobs|
    ensures jobs != [] ==> TotalProgress(jobs) == p
    decreases |jobs|
  {
    if jobs != [] {
      UniformProgress(jobs[1..], p);
      MeanOfUniform(p, |jobs|);
    }
  }

  lemma MeanOfUniform(p: int, n: nat)
    requires 0 < n
    ensures (p * n) as real / n as real == p as real
  {
    assert (p * n) as real == p as real * n as real;
  }

  /** `allDone`: no job is queued or processing (true of an empty list) */
  predicate AllDone(jobs: seq<ExportJob>)
  {
    forall i :: 0 <= i < |jobs| ==> jobs[i].status.Terminal()
  }

  /** When everything is done the completed and failed jobs make up the list */
  lemma AllDoneCounts(jobs: seq<ExportJob>)
    ensures AllDone(jobs) <==> StatusCount(jobs, Complete) + StatusCount(jobs, Failed) == |jobs|
  {
    CountsPartition(jobs);
    CountZero(jobs, Queued);
    CountZero(jobs, Processing);
  }

  /** No job has a status exactly when its count is zero */
  lemma {:induction false} CountZero(jobs: seq<ExportJob>, st: ExportStatus)
    ensures StatusCount(jobs, st) == 0 <==> forall i :: 0 <= i < |jobs| ==> jobs[i].status != st
    decreases |jobs|
  {
    if jobs != [] {
      CountUnfold(jobs, st);
      CountZero(jobs[1..], st);
      assert forall i :: 1 <= i < |jobs| ==> jobs[1..][i - 1] == jobs[i];
    }
  }

  /** A request to close the dialog is honoured only once everything is done */
  function CloseRequest(jobs: seq<ExportJob>): (closes: bool)
    ensures closes <==> forall i :: 0 <= i < |jobs| ==> jobs[i].status.Terminal()
  {
    AllDone(jobs)
  }

  /** The cancel button appears exactly on jobs that have not finished */
  function CanCancel(job: ExportJob): (offered: bool)
    ensures offered <==> !job.status.Terminal()
  {
    job.status == Queued || job.status == Processing
  }

  /** `getStatusText` */
  function StatusText(job: ExportJob): (text: string)
    ensures job.status == Failed && job.error.Some? && job.error.value != "" ==> text == job.error.value
    ensures job.status == Failed && (job.error.None? || job.error == Some("")) ==> text == "Failed"
    ensures job.status == Processing ==> StartsWith(text, IntString(job.progress) + "% - ")
    ensures job.status == Queued ==> text == "Queued"
    ensures job.status == Complete ==> text == "Complete"
  {
    match job.status
    case Queued => "Queued"
    case Processing => IntString(job.progress) + "% - " + IntString(job.estimatedTimeRemaining) + "s remaining"
    case Complete => "Complete"
    case Failed => if job.error.Some? && job.error.value != "" then job.error.value else "Failed"
  }
}
