/**
 * The handler the pipeline's invoke action runs: it redeems the workflow task
 * token found in the action's user parameters and then reports the job's
 * outcome back to the pipeline.
 */
module SendToken {
  import opened Wrappers
  import opened Aws
  import Json
  import Sfn
  import CodePipeline
  import CreatePipelineBuildProjects

  /** The fields of the pipeline job event the handler reads. */
  datatype JobEvent = JobEvent(jobId: string, userParameters: string)

  /** Step Functions acknowledged the success signal: a response whose status code is 200. */
  predicate Acknowledged(response: Option<ResponseMetadata>) {
    response.Some? && response.value.httpStatusCode == Some(200)
  }

  /**
   * The requests the handler sends: the success signal (with its
   * fallback), then the job result, unless the signal threw.
   */
  function HandlerCalls(services: Services, event: JobEvent): (calls: seq<Call>) {
    Sfn.SendTaskSuccessCalls(services, event.userParameters) +
    match Sfn.SendTaskSuccessResult(services, event.userParameters)
    case Failure(_) => []
    case Success(response) => CodePipeline.SendJobResultCalls(event.jobId, Acknowledged(response))
  }

  /** `handler(event)`: fails if the signal or the job result report throws. */
  function HandlerResult(services: Services, event: JobEvent): (r: Result<(), Error>) {
    match Sfn.SendTaskSuccessResult(services, event.userParameters)
    case Failure(e) => Failure(e)
    case Success(response) => CodePipeline.SendJobResultResult(services, event.jobId, Acknowledged(response))
  }

  method Handler(cloud: Cloud, event: JobEvent) returns (r: Result<(), Error>)
    modifies cloud
    ensures cloud.log == old(cloud.log) + HandlerCalls(cloud.services, event)
    ensures r == HandlerResult(cloud.services, event)
  {
    var response := Sfn.SendTaskSuccess(cloud, event.userParameters);
    if response.Failure? {
      return Failure(response.error);
    }
    r := CodePipeline.SendJobResult(cloud, event.jobId, Acknowledged(response.value));
  }

  // Properties of the handler.

  /**
   * The token is redeemed once, exactly as the user parameters carry it: the
   * first request is the one success signal, and every request naming a
   * token names that one.
   */
  lemma TokenRedeemedVerbatim(services: Services, event: JobEvent)
    ensures var calls := HandlerCalls(services, event);
      && 1 <= |calls| <= 2
      && calls[0] == SendTaskSuccessCall(event.userParameters, Sfn.SuccessOutput)
      && (forall i :: 0 < i < |calls| ==> !calls[i].SendTaskSuccessCall?)
      && (forall i :: 0 <= i < |calls| && calls[i].SendTaskFailureCall? ==> calls[i].token == event.userParameters)
  {
  }

  /**
   * When the signal goes through and the job id is set, the last request
   * reports the job, as succeeded exactly when Step Functions acknowledged
   * with status 200, and the handler's outcome is the report's.
   */
  lemma JobOutcomeFollowsStatus(services: Services, event: JobEvent)
    requires services.sendTaskSuccess(event.userParameters, Sfn.SuccessOutput).Success?
    requires event.jobId != ""
    ensures var response := services.sendTaskSuccess(event.userParameters, Sfn.SuccessOutput).value;
      var calls := HandlerCalls(services, event);
      && |calls| == 2
      && calls[1].PutJobResultCall?
      && calls[1].result.jobId == event.jobId
      && (calls[1].result.JobSuccess? <==> response.Some? && response.value.httpStatusCode == Some(200))
      && (HandlerResult(services, event).Success? <==> services.putJobResult(calls[1].result).Success?)
  {
  }

  /**
   * When the signal throws, the failure signal is sent for the same token,
   * no job result is reported and the handler fails: the job stays open.
   * The handler rethrows the signal's error, or the failure signal's error
   * when that one threw as well.
   */
  lemma NoJobResultAfterThrow(services: Services, event: JobEvent)
    requires services.sendTaskSuccess(event.userParameters, Sfn.SuccessOutput).Failure?
    ensures HandlerCalls(services, event)
      == [SendTaskSuccessCall(event.userParameters, Sfn.SuccessOutput), SendTaskFailureCall(event.userParameters)]
    ensures var fallback := services.sendTaskFailure(event.userParameters);
      HandlerResult(services, event)
        == Failure(if fallback.Failure? then fallback.error
                   else services.sendTaskSuccess(event.userParameters, Sfn.SuccessOutput).error)
  {
  }

  /**
   * An empty job id is refused only after the token was redeemed: the
   * workflow resumes while the handler fails and the job gets no result.
   */
  lemma EmptyJobIdAfterRedeem(services: Services, token: string)
    requires services.sendTaskSuccess(token, Sfn.SuccessOutput).Success?
    ensures HandlerCalls(services, JobEvent("", token)) == [SendTaskSuccessCall(token, Sfn.SuccessOutput)]
    ensures HandlerResult(services, JobEvent("", token)) == Failure("No jobId provided")
  {
  }

  /**
   * Across the two handlers: the pipeline's invoke action carries the workflow
   * token serialised with `JSON.stringify`, and this handler forwards its
   * user parameters unchanged, so what Step Functions is handed is the
   * quoted token, never the token it issued.
   */
  lemma DeliveredTokenIsSerialised(env: Env, services: Services, repos: seq<string>, token: string, jobId: string)
    requires CreatePipelineBuildProjects.StagesResult(env, services, repos, Some(token)).Success?
    ensures var invoke := CreatePipelineBuildProjects.StagesResult(env, services, repos, Some(token)).value[2].actions[0];
      && invoke.InvokeAction?
      && invoke.userParameters == Some(Json.Stringify(token))
      && HandlerCalls(services, JobEvent(jobId, invoke.userParameters.value))[0].token == Json.Stringify(token)
      && HandlerCalls(services, JobEvent(jobId, invoke.userParameters.value))[0].token != token
  {
    CreatePipelineBuildProjects.HandlerStagesInOrder(env, services, repos, Some(token));
    Json.StringifyIsNotIdentity(token);
  }
}
