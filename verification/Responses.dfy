/** The responses of the command endpoint. */
module Responses {
  import opened Text
  import opened Token
  import opened Output

  datatype Body = ApiError(code: string) | Raw(bytes: seq<byte>)

  datatype Response = Response(status: int, body: Body)

  const UNAUTHORIZED := Response(401, ApiError("unauthorized"))
  const INVALID_REQUEST := Response(400, ApiError("invalid_request"))
  const INVALID_ARGUMENTS := Response(400, ApiError("invalid_arguments"))
  const SERVER_BUSY := Response(503, ApiError("server_busy"))

  /** The parts of encoding/json the endpoint relies on. */
  datatype Json = Json(valid: seq<byte> -> bool, errorCode: seq<byte> -> Option<string>)

  function ContextqErrorStatus(json: Json, body: seq<byte>): int {
    match json.errorCode(body)
    case None => 502
    case Some(code) =>
      if code == "queue_not_found" then 404
      else if code in ["queue_name_ambiguous", "duplicate_available_key", "no_available_items",
                       "invalid_state_transition", "no_active_lifecycle"] then 409
      else if code in ["force_required", "error"] then 400
      else 502
  }

  function CommandResponse(json: Json, status: int, body: seq<byte>): Response {
    if json.valid(body) then Response(status, Raw(body)) else Response(502, ApiError("invalid_command_output"))
  }

  /** What execute sends once the runner has returned; None when the client has gone. */
  function Respond(json: Json, result: Result, err: Option<RunError>): Option<Response> {
    match err
    case Some(DeadlineExceeded) => Some(Response(504, ApiError("command_timeout")))
    case Some(Canceled) => None
    case Some(OutputLimit) => Some(Response(502, ApiError("output_limit")))
    case Some(_) => Some(Response(502, ApiError("command_failed")))
    case None =>
      if result.exitCode == 0 then Some(CommandResponse(json, 200, result.stdout))
      else Some(CommandResponse(json, ContextqErrorStatus(json, result.stderr), result.stderr))
  }

  /** The runner's outcome is answered unless the runner reported cancellation. */
  lemma SilentOnlyWhenCanceled(json: Json, result: Result, err: Option<RunError>)
    ensures Respond(json, result, err).None? <==> err == Some(Canceled)
  {
  }
}
