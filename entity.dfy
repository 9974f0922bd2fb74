/**
 * The three message records exchanged between client and server
 * (entity/method_request.go, entity/method_response.go, entity/status_response.go)
 * and the method names they carry.
 */
module Entity {

  /** Name of the login call. The file declaring the method-name constants is not part of
      this model: the strings below are placeholders and only their distinctness matters. */
  const MethodAuth: string := "auth"
  /** Name of the subscribe call, also used for the price pushes that follow it. */
  const MethodExecutions: string := "executions"
  /** Name of the push that tells the client its authorization is about to expire. */
  const MethodAuthExpiring: string := "auth_expiring"

  /** A call from client to server: correlation id, method name and string arguments. */
  datatype MethodRequest = MethodRequest(reqId: string, methodName: string, args: map<string, string>)

  /** A push from server to client: a method name and its payload. */
  datatype MethodResponse = MethodResponse(methodName: string, data: map<string, string>)

  /** The server's answer to one call; `error` is the empty string on success. */
  datatype StatusResponse = StatusResponse(reqId: string, status: bool, error: string)

  /** Go's `m[key]` on a `map[string]string`: the empty string when the key is absent. */
  function Arg(args: map<string, string>, key: string): string
  {
    if key in args then args[key] else ""
  }
}
