/** What one HTTP request to the profile API can come back with. The request
    itself is not modelled: the scripts only branch on this outcome. */
module Http {
  import opened Core
  import opened JsonData

  datatype HttpOutcome =
      /** A response arrived. `body` is what `response.json()` gives: the
          decoded document, or the message of the decoding error it raises. */
    | Response(status: nat, text: string, body: Result<Json, string>)
      /** `requests.Timeout` was raised, with this message. */
    | TimedOut(message: string)
      /** Any other exception from `requests.get`, with this message. */
    | RequestFailed(message: string)
}
