/** The home screen's `fetchCoinsApi`: the request error is rethrown with a
    user-facing message, chosen by a fixed chain of tests. */
module HomeApi {
  import opened Wrappers
  import opened Coins

  const DefaultPageSize: nat := 15
  const HomeUnreachableMessage := "Cannot reach the server. Please check your network connection."

  /** The message of the rethrown error. Unlike the list screens, a request
      failing no test keeps its own message unless that is empty. */
  function HomeErrorMessage(e: RequestError): string
  {
    if e.code == "ECONNABORTED" then TimeoutMessage
    else if e.status == Some(429) then RateLimitMessage
    else if IsServerStatus(e.status) then ServerMessage
    else if e.code == "ENOTFOUND" || e.code == "ECONNREFUSED" then HomeUnreachableMessage
    else if e.message == "" then GenericMessage
    else e.message
  }

  /** The chain's order: the timeout test comes before any status, 429
      before the server range, a status before the connection codes, and
      only then the error's own message or the default. */
  lemma HomeErrorPrecedence(e: RequestError)
    ensures e.code == "ECONNABORTED" ==> HomeErrorMessage(e) == TimeoutMessage
    ensures e.code != "ECONNABORTED" && e.status == Some(429) ==> HomeErrorMessage(e) == RateLimitMessage
    ensures e.code != "ECONNABORTED" && e.status != Some(429) && IsServerStatus(e.status) ==>
      HomeErrorMessage(e) == ServerMessage
    ensures e.code in {"ENOTFOUND", "ECONNREFUSED"} && e.status != Some(429) && !IsServerStatus(e.status) ==>
      HomeErrorMessage(e) == HomeUnreachableMessage
    ensures !(e.code in {"ECONNABORTED", "ENOTFOUND", "ECONNREFUSED"}) && e.status != Some(429) && !IsServerStatus(e.status) ==>
      HomeErrorMessage(e) == (if e.message == "" then GenericMessage else e.message)
  {
  }

  /** The home screen and the list screens agree on every classified error
      except the unreachable host, whose wording differs, and on an
      unclassified error only when it carries no message. */
  lemma HomeAgreesWithList(e: RequestError)
    ensures ListErrorMessage(e) == UnreachableMessage ==> HomeErrorMessage(e) == HomeUnreachableMessage
    ensures ListErrorMessage(e) != UnreachableMessage && ListErrorMessage(e) != GenericMessage ==>
      HomeErrorMessage(e) == ListErrorMessage(e)
    ensures ListErrorMessage(e) == GenericMessage && e.message == "" ==> HomeErrorMessage(e) == GenericMessage
  {
  }
}
