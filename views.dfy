/**
 * Which part of the job-list region the page shows (renderJobsRouteViews):
 * a total case split over the jobs status and, on success, over whether the
 * list is empty.
 */
module JobsViews {
  import opened ApiStatuses
  import opened JobRecords

  datatype JobsView =
    | NoView                             // the switch's default: nothing is rendered
    | LoadingView                        // the loader
    | FailureView                        // the failure message with its Retry button
    | NoJobsView                         // "No Jobs Found"
    | JobItemsList(jobs: seq<JobSummary>) // one JobItem per entry, keyed by its id

  function ViewFor(status: ApiStatus, jobsList: seq<JobSummary>): (v: JobsView)
    ensures v == NoView <==> status == Initial
    ensures v == LoadingView <==> status == InProgress
    ensures v == FailureView <==> status == Failure
    ensures v == NoJobsView <==> status == Success && jobsList == []
    ensures v.JobItemsList? <==> status == Success && jobsList != []
    ensures v.JobItemsList? ==> v.jobs == jobsList
  {
    match status
    case Success => if |jobsList| == 0 then NoJobsView else JobItemsList(jobsList)
    case InProgress => LoadingView
    case Failure => FailureView
    case Initial => NoView
  }

  /** The status a view belongs to; on a success view, its emptiness is the list's. */
  function StatusShown(v: JobsView): ApiStatus
  {
    match v
    case NoView => Initial
    case LoadingView => InProgress
    case FailureView => Failure
    case NoJobsView => Success
    case JobItemsList(_) => Success
  }

  /** The view tells the four statuses apart: no two statuses share a view. */
  lemma ViewRevealsStatus(status: ApiStatus, jobsList: seq<JobSummary>)
    ensures StatusShown(ViewFor(status, jobsList)) == status
  {
  }
}
