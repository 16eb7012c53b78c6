/**
 * The pipeline topology builder and the pipeline lifecycle: actions and
 * stages for a repository list, pipeline creation and deletion, and the job
 * result an invoke action reports back to the pipeline.
 */
module CodePipeline {
  import opened Wrappers
  import opened Aws
  import opened Naming
  import CodeBuild

  /**
   * `Partial<Configuration[T]>`: caller-supplied configuration fields of one
   * action kind, spread over the defaults.
   */
  datatype Overrides =
    | SourceOverrides(repositoryName: Option<string>, branchName: Option<string>,
                      pollForSourceChanges: Option<string>)
    | BuildOverrides(projectName: Option<string>)
    | InvokeOverrides(functionName: Option<string>, userParameters: Option<string>)
  {
    function Kind(): ActionKind {
      if SourceOverrides? then Source else if BuildOverrides? then Build else Invoke
    }
  }

  /** An absent `config`. */
  function NoOverrides(kind: ActionKind): (o: Overrides)
    ensures o.Kind() == kind
  {
    match kind
    case Source => SourceOverrides(None, None, None)
    case Build => BuildOverrides(None)
    case Invoke => InvokeOverrides(None, None)
  }

  const SourceRoleArn: string := "arn:aws:iam::403591856115:role/do-reader-role"

  /** The name, and output artifact, of the action of `kind` for a repository. */
  function ActionName(repo: string, kind: ActionKind): (r: string) {
    Normalize(repo) + "-" + kind.Name()
  }

  function SourceActionFor(repo: string, config: Overrides): (r: Action)
    requires config.SourceOverrides?
  {
    SourceAction(ActionName(repo, Source), config.repositoryName.GetOr(repo),
      config.branchName.GetOr("develop"), config.pollForSourceChanges.GetOr("false"),
      ActionName(repo, Source), SourceRoleArn)
  }

  function BuildActionFor(repo: string, projectName: string, config: Overrides): (r: Action)
    requires config.BuildOverrides?
  {
    BuildAction(ActionName(repo, Build), config.projectName.GetOr(projectName),
      ActionName(repo, Source), ActionName(repo, Build))
  }

  function InvokeActionFor(functionName: string, config: Overrides): (r: Action)
    requires config.InvokeOverrides?
  {
    InvokeAction("SendTaskSuccess", config.functionName.GetOr(functionName), config.userParameters, "LambdaInvoke")
  }

  function SourceActions(repos: seq<string>, config: Overrides): (r: seq<Action>)
    requires config.SourceOverrides?
  {
    seq(|repos|, i requires 0 <= i < |repos| => SourceActionFor(repos[i], config))
  }

  /** Creation `i` is the first one in list order that fails. */
  predicate FirstFailedCreation(env: Env, services: Services, repos: seq<string>, i: int)
    requires 0 <= i < |repos|
  {
    && CodeBuild.CreateProjectResult(env, services, Normalize(repos[i])).Failure?
    && forall j :: 0 <= j < i ==> CodeBuild.CreateProjectResult(env, services, Normalize(repos[j])).Success?
  }

  /**
   * The build actions: one project is created per repository; the list is
   * returned only if every creation succeeded, otherwise the first failure
   * in list order is the error.
   */
  function BuildActions(env: Env, services: Services, repos: seq<string>, config: Overrides): (r: Result<seq<Action>, Error>)
    requires config.BuildOverrides?
    ensures r.Success? <==>
      forall i :: 0 <= i < |repos| ==> CodeBuild.CreateProjectResult(env, services, Normalize(repos[i])).Success?
    ensures r.Success? ==> |r.value| == |repos| && forall i :: 0 <= i < |r.value| ==> r.value[i].BuildAction?
    ensures r.Failure? ==>
      exists i :: (0 <= i < |repos| && FirstFailedCreation(env, services, repos, i)
                   && CodeBuild.CreateProjectResult(env, services, Normalize(repos[i])) == Failure(r.error))
  {
    if repos == [] then Success([])
    else
      var n := |repos| - 1;
      var last := repos[n];
      assert forall j :: 0 <= j < n ==> repos[..n][j] == repos[j];
      match BuildActions(env, services, repos[..n], config)
      case Failure(e) =>
        assert forall i :: 0 <= i < n && FirstFailedCreation(env, services, repos[..n], i) ==>
          FirstFailedCreation(env, services, repos, i);
        Failure(e)
      case Success(init) =>
        match CodeBuild.CreateProjectResult(env, services, Normalize(last))
        case Failure(e) =>
          assert FirstFailedCreation(env, services, repos, n);
          Failure(e)
        case Success(projectName) => Success(init + [BuildActionFor(last, projectName, config)])
  }

  /**
   * `actions(repositories, kind, config)`: source actions never fail; the
   * invoke action fails exactly when SEND_SUCCESS_LAMBDA is unset; build
   * actions fail with the first failed project creation. Every action is of
   * the requested kind: one per repository, or the single invoke action.
   */
  function ActionsResult(env: Env, services: Services, repos: seq<string>, kind: ActionKind, config: Overrides)
    : (r: Result<seq<Action>, Error>)
    requires config.Kind() == kind
    ensures kind == Source ==> r.Success?
    ensures kind == Invoke ==> (r.Success? <==> env.sendSuccessLambda.Some?)
    ensures kind == Invoke && r.Failure? ==> r.error == "SEND_SUCCESS_LAMBDA is missing"
    ensures kind == Build ==> r == BuildActions(env, services, repos, config)
    ensures r.Success? ==> |r.value| == (if kind == Invoke then 1 else |repos|)
    ensures r.Success? ==> forall i :: 0 <= i < |r.value| ==> r.value[i].Kind() == kind
  {
    match kind
    case Invoke =>
      (match env.sendSuccessLambda
       case None => Failure("SEND_SUCCESS_LAMBDA is missing")
       case Some(f) => Success([InvokeActionFor(f, config)]))
    case Source => Success(SourceActions(repos, config))
    case Build => BuildActions(env, services, repos, config)
  }

  /** One project creation per repository, in list order. */
  function CreateProjectCalls(env: Env, repos: seq<string>): (calls: seq<Call>) {
    seq(|repos|, i requires 0 <= i < |repos| => CreateProjectCall(CodeBuild.ProjectRequestFor(env, Normalize(repos[i]))))
  }

  /** The requests `actions(repositories, kind, config)` sends: only build actions send any. */
  function ActionsCalls(env: Env, repos: seq<string>, kind: ActionKind): (calls: seq<Call>) {
    if kind == Build then CreateProjectCalls(env, repos) else []
  }

  method Actions(cloud: Cloud, repos: seq<string>, kind: ActionKind, config: Overrides)
    returns (r: Result<seq<Action>, Error>)
    requires config.Kind() == kind
    modifies cloud
    ensures cloud.log == old(cloud.log) + ActionsCalls(cloud.env, repos, kind)
    ensures r == ActionsResult(cloud.env, cloud.services, repos, kind, config)
  {
    match kind
    case Invoke =>
      r := match cloud.env.sendSuccessLambda
        case None => Failure("SEND_SUCCESS_LAMBDA is missing")
        case Some(f) => Success([InvokeActionFor(f, config)]);
    case Source =>
      var actions := DeclareSourceActions(repos, config);
      r := Success(actions);
    case Build =>
      r := CreateBuildActions(cloud, repos, config);
  }

  /** The `map` of `actions` for kind `Source`: one action per repository, nothing sent. */
  method DeclareSourceActions(repos: seq<string>, config: Overrides) returns (actions: seq<Action>)
    requires config.SourceOverrides?
    ensures actions == SourceActions(repos, config)
  {
    actions := [];
    var i := 0;
    while i < |repos|
      invariant 0 <= i <= |repos|
      invariant actions == SourceActions(repos[..i], config)
    {
      actions := actions + [SourceActionFor(repos[i], config)];
      i := i + 1;
    }
    assert repos[..i] == repos;
  }

  /**
   * The `map` of `actions` for kind `Build`: one project creation per
   * repository, in list order; every creation is sent even after one fails,
   * and the first failure is the outcome.
   */
  method CreateBuildActions(cloud: Cloud, repos: seq<string>, config: Overrides) returns (r: Result<seq<Action>, Error>)
    requires config.BuildOverrides?
    modifies cloud
    ensures cloud.log == old(cloud.log) + CreateProjectCalls(cloud.env, repos)
    ensures r == BuildActions(cloud.env, cloud.services, repos, config)
  {
    var acc: seq<Action> := [];
    var firstError: Option<Error> := None;
    var i := 0;
    while i < |repos|
      invariant 0 <= i <= |repos|
      invariant cloud.log == old(cloud.log) + CreateProjectCalls(cloud.env, repos[..i])
      invariant BuildActions(cloud.env, cloud.services, repos[..i], config)
        == if firstError.Some? then Failure(firstError.value) else Success(acc)
    {
      CallsStep(cloud.env, repos, i);
      acc, firstError := CreateBuildAction(cloud, repos, i, config, acc, firstError);
      i := i + 1;
    }
    assert repos[..i] == repos;
    r := if firstError.Some? then Failure(firstError.value) else Success(acc);
  }

  /**
   * One iteration of that `map`: the project for `repos[i]` is created, and
   * the accumulated outcome of the first `i` repositories becomes that of
   * the first `i + 1`.
   */
  method CreateBuildAction(cloud: Cloud, repos: seq<string>, i: int, config: Overrides,
                           acc: seq<Action>, firstError: Option<Error>)
    returns (acc': seq<Action>, firstError': Option<Error>)
    requires config.BuildOverrides?
    requires 0 <= i < |repos|
    requires BuildActions(cloud.env, cloud.services, repos[..i], config)
      == if firstError.Some? then Failure(firstError.value) else Success(acc)
    modifies cloud
    ensures cloud.log == old(cloud.log) + [CreateProjectCall(CodeBuild.ProjectRequestFor(cloud.env, Normalize(repos[i])))]
    ensures BuildActions(cloud.env, cloud.services, repos[..i + 1], config)
      == if firstError'.Some? then Failure(firstError'.value) else Success(acc')
  {
    BuildStep(cloud.env, cloud.services, repos, i, config);
    var created := CodeBuild.CreateProject(cloud, Normalize(repos[i]));
    acc', firstError' := acc, firstError;
    if created.Failure? {
      if firstError.None? {
        firstError' := Some(created.error);
      }
    } else {
      acc' := acc + [BuildActionFor(repos[i], created.value, config)];
    }
  }

  /** One more repository: one more creation request. */
  lemma CallsStep(env: Env, repos: seq<string>, i: int)
    requires 0 <= i < |repos|
    ensures CreateProjectCalls(env, repos[..i + 1])
      == CreateProjectCalls(env, repos[..i]) + [CreateProjectCall(CodeBuild.ProjectRequestFor(env, Normalize(repos[i])))]
  {
    assert repos[..i + 1][..i] == repos[..i];
  }

  /** One more repository: the build actions extended by its creation's outcome. */
  lemma BuildStep(env: Env, services: Services, repos: seq<string>, i: int, config: Overrides)
    requires config.BuildOverrides?
    requires 0 <= i < |repos|
    ensures var init := BuildActions(env, services, repos[..i], config);
      var created := CodeBuild.CreateProjectResult(env, services, Normalize(repos[i]));
      BuildActions(env, services, repos[..i + 1], config)
        == if init.Failure? then init
           else if created.Failure? then Failure(created.error)
           else Success(init.value + [BuildActionFor(repos[i], created.value, config)])
  {
    assert repos[..i + 1][..i] == repos[..i];
  }

  /** `stage(repositories, kind, config)`: the stage named after the kind, holding its actions. */
  function StageResult(env: Env, services: Services, repos: seq<string>, kind: ActionKind, config: Overrides)
    : (r: Result<Stage, Error>)
    requires config.Kind() == kind
  {
    match ActionsResult(env, services, repos, kind, config)
    case Failure(e) => Failure(e)
    case Success(actions) => Success(Stage(kind.Name(), actions))
  }

  method DeclareStage(cloud: Cloud, repos: seq<string>, kind: ActionKind, config: Overrides)
    returns (r: Result<Stage, Error>)
    requires config.Kind() == kind
    modifies cloud
    ensures cloud.log == old(cloud.log) + ActionsCalls(cloud.env, repos, kind)
    ensures r == StageResult(cloud.env, cloud.services, repos, kind, config)
  {
    var actions := Actions(cloud, repos, kind, config);
    match actions
    case Failure(e) =>
      r := Failure(e);
    case Success(a) =>
      r := Success(Stage(kind.Name(), a));
  }

  /**
   * The request `createPipeline(name, stages)` sends, or the error it throws
   * before sending: no stages, or a missing environment variable.
   */
  function PipelineRequestFor(env: Env, name: string, stages: seq<Stage>): (r: Result<PipelineRequest, Error>)
    ensures stages == [] ==> r == Failure("No stages provided")
    ensures stages != [] && env.codepipelineServiceRoleArn.None? ==>
      r == Failure("CODEPIPELINE_SERVICE_ROLE_ARN is not defined")
    ensures stages != [] && env.codepipelineServiceRoleArn.Some? && env.buildspecBucket.None? ==>
      r == Failure("BUILDSPEC_BUCKET is not defined")
    ensures stages != [] && env.codepipelineServiceRoleArn.Some? && env.buildspecBucket.Some? && env.kmsKeyId.None? ==>
      r == Failure("KMS_KEY_ID is not defined")
    ensures r.Success? <==>
      stages != [] && env.codepipelineServiceRoleArn.Some? && env.buildspecBucket.Some? && env.kmsKeyId.Some?
    ensures r.Success? ==> r.value.name == name && r.value.stages == stages
    ensures r.Success? ==>
      && r.value.roleArn == env.codepipelineServiceRoleArn.value
      && r.value.artifactBucket == env.buildspecBucket.value
      && r.value.encryptionKeyId == env.kmsKeyId.value
  {
    if |stages| == 0 then Failure("No stages provided")
    else if env.codepipelineServiceRoleArn.None? then Failure("CODEPIPELINE_SERVICE_ROLE_ARN is not defined")
    else if env.buildspecBucket.None? then Failure("BUILDSPEC_BUCKET is not defined")
    else if env.kmsKeyId.None? then Failure("KMS_KEY_ID is not defined")
    else Success(PipelineRequest(name, env.codepipelineServiceRoleArn.value, env.buildspecBucket.value,
                                 env.kmsKeyId.value, stages))
  }

  function CreatePipelineCalls(env: Env, name: string, stages: seq<Stage>): (calls: seq<Call>) {
    match PipelineRequestFor(env, name, stages)
    case Failure(_) => []
    case Success(request) => [CreatePipelineCall(request)]
  }

  /** `createPipeline(name, stages)`: fails unless the response carries the created pipeline. */
  function CreatePipelineResult(env: Env, services: Services, name: string, stages: seq<Stage>): (r: Result<string, Error>)
    ensures PipelineRequestFor(env, name, stages).Failure? ==> r == Failure(PipelineRequestFor(env, name, stages).error)
    ensures r.Success? <==>
      && stages != [] && env.codepipelineServiceRoleArn.Some? && env.buildspecBucket.Some? && env.kmsKeyId.Some?
      && var response := services.createPipeline(PipelineRequestFor(env, name, stages).value);
         response.Success? && response.value.Some?
    ensures r.Success? ==> services.createPipeline(PipelineRequestFor(env, name, stages).value) == Success(Some(r.value))
    ensures PipelineRequestFor(env, name, stages).Success? ==>
      var response := services.createPipeline(PipelineRequestFor(env, name, stages).value);
      && (response == Success(None) ==> r == Failure("Error creating pipeline"))
      && (response.Failure? ==> r == Failure(response.error))
  {
    match PipelineRequestFor(env, name, stages)
    case Failure(e) => Failure(e)
    case Success(request) =>
      match services.createPipeline(request)
      case Failure(e) => Failure(e)
      case Success(None) => Failure("Error creating pipeline")
      case Success(Some(created)) => Success(created)
  }

  method CreatePipeline(cloud: Cloud, name: string, stages: seq<Stage>) returns (r: Result<string, Error>)
    modifies cloud
    ensures cloud.log == old(cloud.log) + CreatePipelineCalls(cloud.env, name, stages)
    ensures r == CreatePipelineResult(cloud.env, cloud.services, name, stages)
    ensures |cloud.log| <= |old(cloud.log)| + 1
  {
    var request := PipelineRequestFor(cloud.env, name, stages);
    if request.Failure? {
      return Failure(request.error);
    }
    cloud.log := cloud.log + [CreatePipelineCall(request.value)];
    var response := cloud.services.createPipeline(request.value);
    match response
    case Failure(e) =>
      r := Failure(e);
    case Success(None) =>
      r := Failure("Error creating pipeline");
    case Success(Some(created)) =>
      r := Success(created);
  }

  /** `deletePipeline(name)`: succeeds only on a 200 response. */
  function DeletePipelineResult(services: Services, name: string): (r: Result<(), Error>)
    ensures r.Success? <==> services.deletePipeline(name) == Success(ResponseMetadata(Some(200)))
    ensures services.deletePipeline(name).Failure? ==> r == Failure(services.deletePipeline(name).error)
    ensures services.deletePipeline(name).Success? && services.deletePipeline(name).value.httpStatusCode != Some(200) ==>
      r == Failure("Failed to delete " + name)
  {
    match services.deletePipeline(name)
    case Failure(e) => Failure(e)
    case Success(metadata) =>
      if metadata.httpStatusCode == Some(200) then Success(()) else Failure("Failed to delete " + name)
  }

  method DeletePipeline(cloud: Cloud, name: string) returns (r: Result<(), Error>)
    modifies cloud
    ensures cloud.log == old(cloud.log) + [DeletePipelineCall(name)]
    ensures r == DeletePipelineResult(cloud.services, name)
  {
    cloud.log := cloud.log + [DeletePipelineCall(name)];
    var response := cloud.services.deletePipeline(name);
    match response
    case Failure(e) =>
      r := Failure(e);
    case Success(metadata) =>
      if metadata.httpStatusCode == Some(200) {
        r := Success(());
      } else {
        r := Failure("Failed to delete " + name);
      }
  }

  /** The job result `sendJobResult(jobId, success)` reports. */
  function JobResultFor(jobId: string, success: bool): (result: JobResult)
    ensures result.jobId == jobId
    ensures result.JobSuccess? <==> success
    ensures result.JobFailure? ==> result.externalExecutionId == jobId
  {
    if success then JobSuccess(jobId)
    else JobFailure(jobId, "Failed to send task success", "JobFailed", jobId)
  }

  /** The requests `sendJobResult(jobId, success)` sends: none for an empty job id. */
  function SendJobResultCalls(jobId: string, success: bool): (calls: seq<Call>) {
    if jobId == "" then [] else [PutJobResultCall(JobResultFor(jobId, success))]
  }

  function SendJobResultResult(services: Services, jobId: string, success: bool): (r: Result<(), Error>)
    ensures jobId == "" ==> r == Failure("No jobId provided")
    ensures r.Success? <==> jobId != "" && services.putJobResult(JobResultFor(jobId, success)).Success?
    ensures jobId != "" && services.putJobResult(JobResultFor(jobId, success)).Failure? ==>
      r == Failure(services.putJobResult(JobResultFor(jobId, success)).error)
  {
    if jobId == "" then Failure("No jobId provided")
    else
      match services.putJobResult(JobResultFor(jobId, success))
      case Failure(e) => Failure(e)
      case Success(_) => Success(())
  }

  method SendJobResult(cloud: Cloud, jobId: string, success: bool) returns (r: Result<(), Error>)
    modifies cloud
    ensures cloud.log == old(cloud.log) + SendJobResultCalls(jobId, success)
    ensures r == SendJobResultResult(cloud.services, jobId, success)
  {
    if jobId == "" {
      return Failure("No jobId provided");
    }
    var command := JobResultFor(jobId, success);
    cloud.log := cloud.log + [PutJobResultCall(command)];
    var response := cloud.services.putJobResult(command);
    match response
    case Failure(e) =>
      r := Failure(e);
    case Success(_) =>
      r := Success(());
  }

  // Properties of the topology.

  /**
   * Building the build actions fails as a whole exactly when one project
   * creation fails; otherwise action `i` is the build action of repository
   * `i`, configured with the project name its creation returned.
   */
  lemma {:induction false} BuildActionsAllOrNothing(env: Env, services: Services, repos: seq<string>, config: Overrides)
    requires config.BuildOverrides?
    ensures BuildActions(env, services, repos, config).Success? <==>
      forall i :: 0 <= i < |repos| ==> CodeBuild.CreateProjectResult(env, services, Normalize(repos[i])).Success?
    ensures BuildActions(env, services, repos, config).Success? ==>
      var actions := BuildActions(env, services, repos, config).value;
      && |actions| == |repos|
      && forall i :: 0 <= i < |repos| ==>
           actions[i] == BuildActionFor(repos[i], CodeBuild.CreateProjectResult(env, services, Normalize(repos[i])).value, config)
  {
    if repos != [] {
      var n := |repos| - 1;
      var init := repos[..n];
      BuildActionsAllOrNothing(env, services, init, config);
      assert forall i :: 0 <= i < n ==> init[i] == repos[i];
      var last := CodeBuild.CreateProjectResult(env, services, Normalize(repos[n]));
      var prefix := BuildActions(env, services, init, config);
      if prefix.Success? && last.Success? {
        var actions := BuildActions(env, services, repos, config).value;
        assert actions == prefix.value + [BuildActionFor(repos[n], last.value, config)];
        forall i | 0 <= i < |repos|
          ensures CodeBuild.CreateProjectResult(env, services, Normalize(repos[i])).Success?
          ensures actions[i] == BuildActionFor(repos[i], CodeBuild.CreateProjectResult(env, services, Normalize(repos[i])).value, config)
        {
          if i < n {
            assert actions[i] == prefix.value[i] && init[i] == repos[i];
          }
        }
      }
    }
  }

  /**
   * Source and build actions: one per repository, in input order, each named
   * (and outputting the artifact) `<normalised repository>-<kind>`; invoke: exactly
   * one action `SendTaskSuccess` with output `LambdaInvoke`, whatever the list.
   * Every action's type is its kind, owned by AWS, version 1, with provider
   * CodeCommit, CodeBuild or Lambda.
   */
  lemma ActionsShape(env: Env, services: Services, repos: seq<string>, kind: ActionKind, config: Overrides)
    requires config.Kind() == kind
    requires ActionsResult(env, services, repos, kind, config).Success?
    ensures var actions := ActionsResult(env, services, repos, kind, config).value;
      && (forall i :: 0 <= i < |actions| ==>
            actions[i].TypeId() == ActionTypeId(kind.Name(), "AWS",
              if kind == Source then "CodeCommit" else if kind == Build then "CodeBuild" else "Lambda", "1"))
      && (kind == Invoke ==>
            |actions| == 1 && actions[0].name == "SendTaskSuccess" && actions[0].outputArtifact == "LambdaInvoke")
      && (kind != Invoke ==>
            && |actions| == |repos|
            && forall i :: 0 <= i < |repos| ==>
                 && actions[i].Kind() == kind
                 && actions[i].name == Normalize(repos[i]) + "-" + kind.Name()
                 && actions[i].outputArtifact == Normalize(repos[i]) + "-" + kind.Name())
  {
    if kind == Build {
      BuildActionsAllOrNothing(env, services, repos, config);
    }
  }

  /** The invoke stage does not depend on the repositories, and fails exactly when SEND_SUCCESS_LAMBDA is unset. */
  lemma InvokeIgnoresRepositories(env: Env, services: Services, repos1: seq<string>, repos2: seq<string>, config: Overrides)
    requires config.InvokeOverrides?
    ensures ActionsResult(env, services, repos1, Invoke, config) == ActionsResult(env, services, repos2, Invoke, config)
    ensures ActionsResult(env, services, repos1, Invoke, config).Failure? <==> env.sendSuccessLambda.None?
    ensures env.sendSuccessLambda.Some? ==>
      ActionsResult(env, services, repos1, Invoke, config).value[0].functionName
        == config.functionName.GetOr(env.sendSuccessLambda.value)
  {
  }

  /**
   * Without overrides, build action `i` takes its project from the creation
   * for `normalize(repos[i])` and consumes exactly the artifact source action
   * `i` outputs; the source action keeps the original repository name.
   */
  lemma BuildConsumesSourceOutput(env: Env, services: Services, repos: seq<string>)
    requires ActionsResult(env, services, repos, Build, NoOverrides(Build)).Success?
    ensures var builds := ActionsResult(env, services, repos, Build, NoOverrides(Build)).value;
      var sources := ActionsResult(env, services, repos, Source, NoOverrides(Source)).value;
      && |builds| == |sources| == |repos|
      && forall i :: 0 <= i < |repos| ==>
           && CodeBuild.CreateProjectResult(env, services, Normalize(repos[i])).Success?
           && builds[i].BuildAction?
           && builds[i].projectName == CodeBuild.CreateProjectResult(env, services, Normalize(repos[i])).value
           && builds[i].InputArtifacts() == Some([sources[i].outputArtifact])
           && sources[i].repositoryName == repos[i]
           && sources[i].branchName == "develop"
           && sources[i].pollForSourceChanges == "false"
  {
    BuildActionsAllOrNothing(env, services, repos, NoOverrides(Build));
  }

  /** Only source actions carry a role. */
  lemma OnlySourceActionsCarryRole(env: Env, services: Services, repos: seq<string>, kind: ActionKind, config: Overrides)
    requires config.Kind() == kind
    requires ActionsResult(env, services, repos, kind, config).Success?
    ensures forall a :: a in ActionsResult(env, services, repos, kind, config).value ==>
      (a.RoleArn().Some? <==> kind == Source) && (a.RoleArn().Some? ==> a.RoleArn().value == SourceRoleArn)
  {
    if kind == Build {
      BuildActionsAllOrNothing(env, services, repos, config);
    }
  }

  /** A stage is named after its kind and holds exactly that kind's actions. */
  lemma StageHoldsActions(env: Env, services: Services, repos: seq<string>, kind: ActionKind, config: Overrides)
    requires config.Kind() == kind
    ensures StageResult(env, services, repos, kind, config).Success?
      <==> ActionsResult(env, services, repos, kind, config).Success?
    ensures StageResult(env, services, repos, kind, config).Success? ==>
      StageResult(env, services, repos, kind, config).value
        == Stage(kind.Name(), ActionsResult(env, services, repos, kind, config).value)
  {
  }

  /** The scenario `["a.b", "c.d"]` with kind `Build`: actions `a-b-Build` and `c-d-Build`. */
  lemma TwoDottedRepositoriesScenario(env: Env, services: Services)
    requires ActionsResult(env, services, ["a.b", "c.d"], Build, NoOverrides(Build)).Success?
    ensures var actions := ActionsResult(env, services, ["a.b", "c.d"], Build, NoOverrides(Build)).value;
      && |actions| == 2
      && actions[0].BuildAction? && actions[1].BuildAction?
      && CodeBuild.CreateProjectResult(env, services, "a-b").Success?
      && CodeBuild.CreateProjectResult(env, services, "c-d").Success?
      && actions[0].name == "a-b-Build" && actions[1].name == "c-d-Build"
      && actions[0].projectName == CodeBuild.CreateProjectResult(env, services, "a-b").value
      && actions[1].projectName == CodeBuild.CreateProjectResult(env, services, "c-d").value
  {
    BuildActionsAllOrNothing(env, services, ["a.b", "c.d"], NoOverrides(Build));
    assert Normalize("a.b") == "a-b";
    assert Normalize("c.d") == "c-d";
  }

  /**
   * Names differing only by `.` against `-` collide: for `["a.b", "a-b"]` the
   * same project is requested twice and the build stage holds two actions
   * both named `a-b-Build`.
   */
  lemma DotDashCollision(env: Env, services: Services)
    ensures CreateProjectCalls(env, ["a.b", "a-b"])
      == [CreateProjectCall(CodeBuild.ProjectRequestFor(env, "a-b")), CreateProjectCall(CodeBuild.ProjectRequestFor(env, "a-b"))]
    ensures ActionName("a.b", Build) == ActionName("a-b", Build) == "a-b-Build"
    ensures ActionsResult(env, services, ["a.b", "a-b"], Build, NoOverrides(Build)).Success? ==>
      var actions := ActionsResult(env, services, ["a.b", "a-b"], Build, NoOverrides(Build)).value;
      |actions| == 2 && actions[0].name == actions[1].name == "a-b-Build"
  {
    var repos := ["a.b", "a-b"];
    assert Normalize(repos[0]) == "a-b";
    Naming.NormalizeFixesDotFree(repos[1]);
    var calls := CreateProjectCalls(env, repos);
    assert |calls| == 2 && calls[0] == calls[1] == CreateProjectCall(CodeBuild.ProjectRequestFor(env, "a-b"));
    if ActionsResult(env, services, repos, Build, NoOverrides(Build)).Success? {
      ActionsShape(env, services, repos, Build, NoOverrides(Build));
    }
  }
}
