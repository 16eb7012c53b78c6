/** Build-project lifecycle: one CodeBuild project per normalised repository name. */
module CodeBuild {
  import opened Wrappers
  import opened Aws
  import opened Naming

  /** What a `${...}` template writes for an environment variable: "undefined" when unset. */
  function TemplateText(v: Option<string>): (r: string) {
    match v
    case Some(s) => s
    case None => "undefined"
  }

  /**
   * The inline build specification: run the audit with its exit status
   * forced to success, then upload the report it wrote to the bucket.
   */
  function BuildSpecFor(env: Env, repoName: string): (spec: BuildSpec)
    ensures spec.version == "0.2"
    ensures spec.onFailure == "CONTINUE"
    ensures |spec.commands| == 2
    ensures spec.commands[0].NpmAuditJson? && spec.commands[0].exitZero
    ensures spec.commands[0].reportFile == repoName + "-audit-report.json"
    ensures spec.commands[1].S3Upload? && spec.commands[1].localFile == spec.commands[0].reportFile
    ensures spec.commands[1].sse == "aws:kms"
    ensures spec.commands[1].bucket == TemplateText(env.buildspecBucket)
    ensures spec.commands[1].key == ReportKey(repoName)
  {
    var report := ReportKey(repoName);
    BuildSpec("0.2", "CONTINUE",
      [NpmAuditJson(report, true), S3Upload("aws:kms", report, TemplateText(env.buildspecBucket), report)])
  }

  /**
   * The request `createProject(repoName)` sends: the project `<repoName>-npm-audit`,
   * whose build uploads `<repoName>-audit-report.json` to BUILDSPEC_BUCKET,
   * running under CODEBUILD_SERVICE_ROLE_ARN with KMS_KEY_ID as its key.
   */
  function ProjectRequestFor(env: Env, repoName: string): (request: ProjectRequest)
    ensures request.name == repoName + "-npm-audit"
    ensures request.buildspec == BuildSpecFor(env, repoName)
    ensures |request.buildspec.commands| == 2 && request.buildspec.commands[1].S3Upload?
    ensures request.buildspec.commands[1].key == repoName + "-audit-report.json"
    ensures request.buildspec.commands[1].bucket == TemplateText(env.buildspecBucket)
    ensures request.serviceRole == env.codebuildServiceRoleArn && request.encryptionKey == env.kmsKeyId
  {
    ProjectRequest(ProjectName(repoName), BuildSpecFor(env, repoName), env.codebuildServiceRoleArn,
      env.kmsKeyId, "aws/codebuild/standard:7.0", "BUILD_GENERAL1_SMALL")
  }

  /**
   * `createProject(repoName)`: the project name the response carries, or an
   * error when the send throws or the response names no project (an empty
   * name is falsy and counts as none).
   */
  function CreateProjectResult(env: Env, services: Services, repoName: string): (r: Result<string, Error>)
    ensures r.Success? <==>
      var response := services.createProject(ProjectRequestFor(env, repoName));
      response.Success? && response.value.Some? && response.value.value != ""
    ensures r.Success? ==> r.value != "" && services.createProject(ProjectRequestFor(env, repoName)) == Success(Some(r.value))
    ensures r.Failure? ==>
      || services.createProject(ProjectRequestFor(env, repoName)) == Failure(r.error)
      || r.error == "Error creating project"
    ensures services.createProject(ProjectRequestFor(env, repoName)).Failure? ==>
      r == Failure(services.createProject(ProjectRequestFor(env, repoName)).error)
  {
    match services.createProject(ProjectRequestFor(env, repoName))
    case Failure(e) => Failure(e)
    case Success(project) =>
      if project.Some? && project.value != "" then Success(project.value) else Failure("Error creating project")
  }

  method CreateProject(cloud: Cloud, repoName: string) returns (r: Result<string, Error>)
    modifies cloud
    ensures cloud.log == old(cloud.log) + [CreateProjectCall(ProjectRequestFor(cloud.env, repoName))]
    ensures r == CreateProjectResult(cloud.env, cloud.services, repoName)
  {
    var request := ProjectRequestFor(cloud.env, repoName);
    cloud.log := cloud.log + [CreateProjectCall(request)];
    var response := cloud.services.createProject(request);
    match response
    case Failure(e) =>
      r := Failure(e);
    case Success(project) =>
      if project.Some? && project.value != "" {
        r := Success(project.value);
      } else {
        r := Failure("Error creating project");
      }
  }

  /** The requests `deleteProject(repository)` sends: none for an empty name. */
  function DeleteProjectCalls(repository: string): (calls: seq<Call>)
    ensures |calls| <= 1
    ensures repository != "" <==> calls == [DeleteProjectCall(ProjectName(repository))]
  {
    if repository == "" then [] else [DeleteProjectCall(ProjectName(repository))]
  }

  /** `deleteProject(repository)`: succeeds only on a 200 response to deleting `<repository>-npm-audit`. */
  function DeleteProjectResult(services: Services, repository: string): (r: Result<(), Error>)
    ensures repository == "" ==> r == Failure("No repository name provided")
    ensures r.Success? <==>
      repository != "" && services.deleteProject(ProjectName(repository)) == Success(ResponseMetadata(Some(200)))
    ensures repository != "" && services.deleteProject(ProjectName(repository)).Failure? ==>
      r == Failure(services.deleteProject(ProjectName(repository)).error)
    ensures repository != "" && services.deleteProject(ProjectName(repository)).Success?
            && services.deleteProject(ProjectName(repository)).value.httpStatusCode != Some(200) ==>
      r == Failure("Failed to delete " + (repository + "-npm-audit"))
  {
    if repository == "" then Failure("No repository name provided")
    else
      match services.deleteProject(ProjectName(repository))
      case Failure(e) => Failure(e)
      case Success(metadata) =>
        if metadata.httpStatusCode == Some(200) then Success(())
        else Failure("Failed to delete " + ProjectName(repository))
  }

  method DeleteProject(cloud: Cloud, repository: string) returns (r: Result<(), Error>)
    modifies cloud
    ensures cloud.log == old(cloud.log) + DeleteProjectCalls(repository)
    ensures r == DeleteProjectResult(cloud.services, repository)
  {
    if repository == "" {
      return Failure("No repository name provided");
    }
    cloud.log := cloud.log + [DeleteProjectCall(ProjectName(repository))];
    var response := cloud.services.deleteProject(ProjectName(repository));
    match response
    case Failure(e) =>
      r := Failure(e);
    case Success(metadata) =>
      if metadata.httpStatusCode == Some(200) {
        r := Success(());
      } else {
        r := Failure("Failed to delete " + ProjectName(repository));
      }
  }

  /** Deleting a non-empty name targets the very project creating it requested. */
  lemma DeleteTargetsCreatedProject(env: Env, repoName: string)
    requires repoName != ""
    ensures DeleteProjectCalls(repoName) == [DeleteProjectCall(ProjectRequestFor(env, repoName).name)]
  {
  }
}
