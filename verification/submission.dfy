/** What the quote wizard and the contact form share: the submission status
    each form shows, the abstract outcome of the one POST a submit issues,
    and the constant tag naming the originating site. */
module Submission {

  datatype Status = Idle | Sending | Success | Error

  /** How the awaited POST settled: a 2xx response, any other response, or a
      thrown transport failure. Headers, URLs and keys are not modelled. */
  datatype Response = Ok | NotOk | Exception

  /** The `site` tag both forms add to what they send. */
  const Site: string := "propertymanagementgibraltar.com"

  /** The submit button exists outside the success view and is disabled
      while a request is in flight. */
  predicate CanSubmit(s: Status) {
    s == Idle || s == Error
  }

  /** The status a settled request leaves behind: only a 2xx response counts
      as success, and both kinds of failure look the same. */
  function Settle(r: Response): (s: Status)
    ensures s == Success <==> r == Ok
    ensures s != Success ==> s == Error
  {
    if r == Ok then Success else Error
  }
}
