/**
 * The four fetch statuses of the job-list page. The component keeps each
 * status as one of four string constants; the model keeps the tag and gives
 * the constant as its label.
 */
module ApiStatuses {
  import opened Optional

  datatype ApiStatus = Initial | InProgress | Success | Failure

  /** The string constant the component stores for a status. */
  function Label(s: ApiStatus): string
  {
    match s
    case Initial => "INITIAL"
    case InProgress => "IN PROGRESS"
    case Success => "SUCCESS"
    case Failure => "FAILURE"
  }

  /** Reads a stored constant back as a status; any other string is no status. */
  function StatusNamed(text: string): (r: Option<ApiStatus>)
    ensures r.Some? ==> Label(r.value) == text
  {
    if text == "INITIAL" then Some(Initial)
    else if text == "IN PROGRESS" then Some(InProgress)
    else if text == "SUCCESS" then Some(Success)
    else if text == "FAILURE" then Some(Failure)
    else None
  }

  /** Every status's constant reads back as that status, so the four constants are distinct. */
  lemma LabelRoundTrip(s: ApiStatus)
    ensures StatusNamed(Label(s)) == Some(s)
  {
  }

  lemma LabelsDistinct(s: ApiStatus, t: ApiStatus)
    ensures Label(s) == Label(t) <==> s == t
  {
    LabelRoundTrip(s);
    LabelRoundTrip(t);
  }
}
