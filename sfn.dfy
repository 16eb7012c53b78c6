/** Delivering the outcome of a paused workflow step to Step Functions by its task token. */
module Sfn {
  import opened Wrappers
  import opened Aws

  /** `JSON.stringify({ success: true })`. */
  const SuccessOutput: string := "{\"success\":true}"

  /**
   * The requests `sendTaskSuccess(token)` sends: the success signal, then a
   * failure signal for the same token only if the success signal threw.
   */
  function SendTaskSuccessCalls(services: Services, token: string): (calls: seq<Call>)
    ensures 1 <= |calls| <= 2
    ensures calls[0] == SendTaskSuccessCall(token, SuccessOutput)
    ensures |calls| == 2 <==> services.sendTaskSuccess(token, SuccessOutput).Failure?
    ensures |calls| == 2 ==> calls[1] == SendTaskFailureCall(token)
  {
    var first := [SendTaskSuccessCall(token, SuccessOutput)];
    if services.sendTaskSuccess(token, SuccessOutput).Success? then first
    else first + [SendTaskFailureCall(token)]
  }

  /**
   * `sendTaskSuccess(token)`: the success signal's response; if it threw, its
   * error is rethrown after the fallback, unless the fallback threw too, whose
   * error then propagates instead.
   */
  function SendTaskSuccessResult(services: Services, token: string): (r: Result<Option<ResponseMetadata>, Error>)
    ensures services.sendTaskSuccess(token, SuccessOutput).Success? ==>
      r == Success(services.sendTaskSuccess(token, SuccessOutput).value)
    ensures services.sendTaskSuccess(token, SuccessOutput).Failure? ==>
      && r.Failure?
      && r.error == (if services.sendTaskFailure(token).Failure? then services.sendTaskFailure(token).error
                     else services.sendTaskSuccess(token, SuccessOutput).error)
  {
    match services.sendTaskSuccess(token, SuccessOutput)
    case Success(response) => Success(response)
    case Failure(e) =>
      match services.sendTaskFailure(token)
      case Failure(fallback) => Failure(fallback)
      case Success(_) => Failure(e)
  }

  method SendTaskSuccess(cloud: Cloud, token: string) returns (r: Result<Option<ResponseMetadata>, Error>)
    modifies cloud
    ensures cloud.log == old(cloud.log) + SendTaskSuccessCalls(cloud.services, token)
    ensures r == SendTaskSuccessResult(cloud.services, token)
  {
    cloud.log := cloud.log + [SendTaskSuccessCall(token, SuccessOutput)];
    var response := cloud.services.sendTaskSuccess(token, SuccessOutput);
    match response
    case Success(output) =>
      r := Success(output);
    case Failure(e) =>
      cloud.log := cloud.log + [SendTaskFailureCall(token)];
      var fallback := cloud.services.sendTaskFailure(token);
      r := if fallback.Failure? then Failure(fallback.error) else Failure(e);
  }
}
