/**
 * The record gateway, modelled only by how its two calls settle.
 * The HTTP exchange itself is an input: what the remote end delivered, or a transport error.
 */
module AirtableService {
  import opened Wrappers
  import opened CaseTypes

  /** What the remote table answered: a response body, or a transport or remote error. */
  datatype Response<T> = Delivered(body: T) | TransportError(message: string)

  /** The PATCH that `updateCaseStatus(recordId, newStatus)` issues. */
  datatype UpdateRequest = UpdateRequest(recordId: string, newStatus: CaseStatus)

  /**
   * `getNewCases`: the delivered records, or the empty list when the call failed.
   * The promise it returns never rejects.
   */
  function GetNewCases(response: Response<seq<CaseRecord>>): (r: Result<seq<CaseRecord>>)
    ensures r.Ok?
    ensures response.Delivered? ==> r.value == response.body
    ensures response.TransportError? ==> r.value == []
  {
    match response
    case Delivered(records) => Ok(records)
    case TransportError(_) => Ok([])
  }

  /**
   * `updateCaseStatus`: resolves with the record the store returned, or rejects with the
   * transport error, which it rethrows. `request` only names the PATCH that was sent; how the
   * call settles depends on the store's answer alone.
   */
  function UpdateCaseStatus(request: UpdateRequest, response: Response<CaseRecord>): (r: Result<CaseRecord>)
    ensures r.Ok? <==> response.Delivered?
    ensures r.Ok? ==> r.value == response.body
    ensures r.Err? ==> r.error == response.message
  {
    match response
    case Delivered(record) => Ok(record)
    case TransportError(message) => Err(message)
  }

  /** A failed list call and an empty queue look the same to the caller. */
  lemma FailureIndistinguishableFromEmpty(message: string)
    ensures GetNewCases(TransportError(message)) == GetNewCases(Delivered([]))
  {
  }
}
