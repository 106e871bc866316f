/** The JSON responses the routes return: a status code and a body. */
module Responses {
  import opened Json

  datatype Response = Response(code: nat, body: Json)

  /** `{"status": "error", "message": message}`. */
  function ErrorBody(message: string): (j: Json)
    ensures j.JObject? && |j.members| == 2
    ensures j.members[0] == Member("status", JString("error"))
    ensures j.members[1] == Member("message", JString(message))
  {
    JObject([Member("status", JString("error")), Member("message", JString(message))])
  }
}
