/** A candidate clip and a step of the processing screen */
module ClipTypes {
  import opened Js

  /** Times in seconds; scores are the rounded integers the generators produce */
  datatype Clip = Clip(
    id: string,
    startTime: real,
    endTime: real,
    title: string,
    score: int,
    selected: bool,
    thumbnail: Option<string>)

  datatype StepStatus = Pending | Processing | Complete

  datatype ProcessingStep = ProcessingStep(id: string, labelText: string, status: StepStatus)
}
