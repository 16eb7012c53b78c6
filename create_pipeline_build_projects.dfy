/**
 * The handler that opens an audit run: it validates the repository list,
 * declares the source, build and invoke stages (creating one build project
 * per repository on the way), creates the pipeline, and hands the list on to
 * the next step of the workflow.
 */
module CreatePipelineBuildProjects {
  import opened Wrappers
  import opened Aws
  import opened Naming
  import Json
  import CodeBuild
  import CodePipeline

  /** The handler's input: an untyped `repositories` field and the optional workflow task token. */
  datatype Event = Event(repositories: Json.Value, token: Option<string>)

  predicate AllStrings(items: seq<Json.Value>) {
    forall i :: 0 <= i < |items| ==> items[i].JString?
  }

  function Strings(items: seq<Json.Value>): (names: seq<string>)
    requires AllStrings(items)
    ensures |names| == |items|
    ensures forall i :: 0 <= i < |items| ==> items[i] == Json.JString(names[i])
  {
    seq(|items|, i requires 0 <= i < |items| => items[i].str)
  }

  /** The input checks: an array, and every element a string; an empty array passes. */
  function Validate(repositories: Json.Value): (r: Result<seq<string>, Error>)
    ensures !repositories.JArray? ==> r == Failure("Invalid input: repositories must be an array")
    ensures repositories.JArray? && !AllStrings(repositories.items) ==>
      r == Failure("Invalid input: repositories must be an array of strings")
    ensures r.Success? <==> repositories.JArray? && AllStrings(repositories.items)
    ensures r.Success? ==> repositories == Json.JArray(seq(|r.value|, i requires 0 <= i < |r.value| => Json.JString(r.value[i])))
  {
    if !repositories.JArray? then Failure("Invalid input: repositories must be an array")
    else if !AllStrings(repositories.items) then Failure("Invalid input: repositories must be an array of strings")
    else Success(Strings(repositories.items))
  }

  /** The invoke configuration: the token, serialised with `JSON.stringify`, as the user parameters. */
  function InvokeConfig(token: Option<string>): (r: CodePipeline.Overrides) {
    CodePipeline.InvokeOverrides(None, Json.StringifyOption(token))
  }

  /** The three stages in declaration order, or the first error met while declaring them. */
  function StagesResult(env: Env, services: Services, repos: seq<string>, token: Option<string>)
    : (r: Result<seq<Stage>, Error>)
  {
    var sources := CodePipeline.StageResult(env, services, repos, Source, CodePipeline.NoOverrides(Source));
    var builds := CodePipeline.StageResult(env, services, repos, Build, CodePipeline.NoOverrides(Build));
    var invoke := CodePipeline.StageResult(env, services, repos, Invoke, InvokeConfig(token));
    // Declaring the source stage sends nothing and cannot fail.
    if builds.Failure? then Failure(builds.error)
    else if invoke.Failure? then Failure(invoke.error)
    else Success([sources.value, builds.value, invoke.value])
  }

  /**
   * The requests the handler sends: nothing for invalid input; otherwise one
   * project creation per repository, then the pipeline creation if every
   * stage was declared.
   */
  function HandlerCalls(env: Env, services: Services, event: Event): (calls: seq<Call>) {
    match Validate(event.repositories)
    case Failure(_) => []
    case Success(repos) =>
      CodePipeline.CreateProjectCalls(env, repos) +
      match StagesResult(env, services, repos, event.token)
      case Failure(_) => []
      case Success(stages) => CodePipeline.CreatePipelineCalls(env, PipelineName, stages)
  }

  /** `handler(event)`: the repository list, passed on, once the pipeline exists. */
  function HandlerResult(env: Env, services: Services, event: Event): (r: Result<seq<string>, Error>) {
    match Validate(event.repositories)
    case Failure(e) => Failure(e)
    case Success(repos) =>
      match StagesResult(env, services, repos, event.token)
      case Failure(e) => Failure(e)
      case Success(stages) =>
        match CodePipeline.CreatePipelineResult(env, services, PipelineName, stages)
        case Failure(e) => Failure(e)
        case Success(_) => Success(repos)
  }

  method Handler(cloud: Cloud, event: Event) returns (r: Result<seq<string>, Error>)
    modifies cloud
    ensures cloud.log == old(cloud.log) + HandlerCalls(cloud.env, cloud.services, event)
    ensures r == HandlerResult(cloud.env, cloud.services, event)
  {
    var valid := Validate(event.repositories);
    if valid.Failure? {
      return Failure(valid.error);
    }
    var repos := valid.value;
    ghost var projects := CodePipeline.CreateProjectCalls(cloud.env, repos);
    var sources := CodePipeline.DeclareStage(cloud, repos, Source, CodePipeline.NoOverrides(Source));
    assert cloud.log == old(cloud.log);
    var builds := CodePipeline.DeclareStage(cloud, repos, Build, CodePipeline.NoOverrides(Build));
    assert cloud.log == old(cloud.log) + projects;
    if builds.Failure? {
      assert StagesResult(cloud.env, cloud.services, repos, event.token) == Failure(builds.error);
      return Failure(builds.error);
    }
    var invoke := CodePipeline.DeclareStage(cloud, repos, Invoke, InvokeConfig(event.token));
    if invoke.Failure? {
      assert StagesResult(cloud.env, cloud.services, repos, event.token) == Failure(invoke.error);
      return Failure(invoke.error);
    }
    var stages := [sources.value, builds.value, invoke.value];
    assert StagesResult(cloud.env, cloud.services, repos, event.token) == Success(stages);
    var created := CodePipeline.CreatePipeline(cloud, PipelineName, stages);
    if created.Failure? {
      return Failure(created.error);
    }
    r := Success(repos);
  }

  // Properties of the handler.

  /** Invalid input is refused before any request is sent. */
  lemma InvalidInputSendsNothing(env: Env, services: Services, event: Event)
    requires !event.repositories.JArray? || !AllStrings(event.repositories.items)
    ensures HandlerCalls(env, services, event) == []
    ensures HandlerResult(env, services, event).Failure?
    ensures HandlerResult(env, services, event).error == Validate(event.repositories).error
  {
  }

  /**
   * The handler succeeds exactly when the input is a list of strings, every
   * build project is created, every environment variable the pipeline needs
   * is set and the pipeline is created; it then returns that very list.
   */
  lemma HandlerSucceedsIff(env: Env, services: Services, event: Event)
    ensures HandlerResult(env, services, event).Success? <==>
      && Validate(event.repositories).Success?
      && (var repos := Validate(event.repositories).value;
          && (forall i :: 0 <= i < |repos| ==> CodeBuild.CreateProjectResult(env, services, Normalize(repos[i])).Success?)
          && env.sendSuccessLambda.Some?
          && StagesResult(env, services, repos, event.token).Success?
          && CodePipeline.CreatePipelineResult(env, services, PipelineName, StagesResult(env, services, repos, event.token).value).Success?)
    ensures HandlerResult(env, services, event).Success? ==>
      event.repositories == Json.JArray(seq(|HandlerResult(env, services, event).value|,
        i requires 0 <= i < |HandlerResult(env, services, event).value| => Json.JString(HandlerResult(env, services, event).value[i])))
  {
    if Validate(event.repositories).Success? {
      var repos := Validate(event.repositories).value;
      CodePipeline.BuildActionsAllOrNothing(env, services, repos, CodePipeline.NoOverrides(Build));
    }
  }

  /**
   * Once every stage is declared, the pipeline request is named
   * `NPM-Audit-Pipeline` and holds the source, build and invoke stages in
   * that order; the build stage holds one action per repository and the
   * invoke stage one action carrying the serialised token.
   */
  lemma HandlerStagesInOrder(env: Env, services: Services, repos: seq<string>, token: Option<string>)
    requires StagesResult(env, services, repos, token).Success?
    ensures var stages := StagesResult(env, services, repos, token).value;
      && |stages| == 3
      && stages[0].name == "Source" && stages[1].name == "Build" && stages[2].name == "Invoke"
      && |stages[0].actions| == |repos| && |stages[1].actions| == |repos|
      && |stages[2].actions| == 1
      && stages[2].actions[0].InvokeAction?
      && stages[2].actions[0].userParameters == Json.StringifyOption(token)
      && (CodePipeline.PipelineRequestFor(env, PipelineName, stages).Success? ==>
            CodePipeline.CreatePipelineCalls(env, PipelineName, stages)
              == [CreatePipelineCall(CodePipeline.PipelineRequestFor(env, PipelineName, stages).value)]
            && CodePipeline.PipelineRequestFor(env, PipelineName, stages).value.stages == stages
            && CodePipeline.PipelineRequestFor(env, PipelineName, stages).value.name == "NPM-Audit-Pipeline")
  {
    CodePipeline.ActionsShape(env, services, repos, Source, CodePipeline.NoOverrides(Source));
    CodePipeline.ActionsShape(env, services, repos, Build, CodePipeline.NoOverrides(Build));
  }

  /**
   * Without SEND_SUCCESS_LAMBDA the handler fails after the build projects
   * were created: they are left behind and no pipeline is requested.
   */
  lemma MissingCallbackLeavesProjects(env: Env, services: Services, event: Event)
    requires Validate(event.repositories).Success?
    requires env.sendSuccessLambda.None?
    ensures HandlerResult(env, services, event).Failure?
    ensures CodePipeline.BuildActions(env, services, Validate(event.repositories).value, CodePipeline.NoOverrides(Build)).Success? ==>
      HandlerResult(env, services, event) == Failure("SEND_SUCCESS_LAMBDA is missing")
    ensures HandlerCalls(env, services, event) == CodePipeline.CreateProjectCalls(env, Validate(event.repositories).value)
  {
  }

  /** An empty list is valid: a pipeline is still requested, with empty source and build stages. */
  lemma EmptyListStillRequestsPipeline(env: Env, services: Services, token: Option<string>)
    requires env.sendSuccessLambda.Some?
    requires env.codepipelineServiceRoleArn.Some? && env.buildspecBucket.Some? && env.kmsKeyId.Some?
    ensures var calls := HandlerCalls(env, services, Event(Json.JArray([]), token));
      && |calls| == 1
      && calls[0].CreatePipelineCall?
      && calls[0].pipeline.stages[0].actions == []
      && calls[0].pipeline.stages[1].actions == []
  {
    assert Validate(Json.JArray([])) == Success([]);
    HandlerStagesInOrder(env, services, [], token);
  }
}
