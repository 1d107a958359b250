/** The decision of `detectRegistryVersion` on the answer to `GET /v2/`. */
module RegistryVersion {
  import opened Common

  const StatusOK: int := 200
  const StatusUnauthorized: int := 401
  const InferredVersion: string := "v2"

  /** The status code and the value of the `Docker-Distribution-API-Version`
      header ("" when absent) of the reply. */
  datatype Reply = Reply(status: int, apiVersion: string)

  datatype VersionError = QueryFailed(reason: string) | UnknownVersion(status: int)

  /** `reply` is `Err(reason)` when the request could not be made or sent. */
  function DetectRegistryVersion(reply: Result<Reply, string>): (r: Result<string, VersionError>)
    ensures reply.Err? ==> r == Err(QueryFailed(reply.error))
    ensures reply.Ok? && reply.value.apiVersion != "" ==> r == Ok(reply.value.apiVersion)
    ensures reply.Ok? && reply.value.apiVersion == "" ==>
      && (r.Ok? <==> reply.value.status == StatusOK || reply.value.status == StatusUnauthorized)
      && (r.Ok? ==> r.value == InferredVersion)
      && (r.Err? ==> r.error == UnknownVersion(reply.value.status))
    ensures r.Ok? ==> r.value != ""
  {
    match reply
    case Err(reason) => Err(QueryFailed(reason))
    case Ok(Reply(status, version)) =>
      if version != "" then Ok(version)
      else if status == StatusOK || status == StatusUnauthorized then Ok(InferredVersion)
      else Err(UnknownVersion(status))
  }
}
