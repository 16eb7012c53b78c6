/**
 * The shapes of the AWS requests and responses the functions use, the
 * environment variables they read, and the cloud they talk to.
 *
 * Every AWS service is an oracle: a function from the request to what the
 * `send` resolves with (`Success`) or the error it throws (`Failure`). A
 * response field that may be missing is an `Option`. The cloud records every
 * request it receives, in order, in a ghost call log.
 */
module Aws {
  import opened Wrappers

  type Error = string

  /** `process.env`: each variable is `None` when unset. */
  datatype Env = Env(
    sendSuccessLambda: Option<string>,           // SEND_SUCCESS_LAMBDA
    codepipelineServiceRoleArn: Option<string>,  // CODEPIPELINE_SERVICE_ROLE_ARN
    codebuildServiceRoleArn: Option<string>,     // CODEBUILD_SERVICE_ROLE_ARN
    buildspecBucket: Option<string>,             // BUILDSPEC_BUCKET
    kmsKeyId: Option<string>)                    // KMS_KEY_ID

  /** The action types of the pipeline; each is also the name of its stage. */
  datatype ActionKind = Source | Build | Invoke {

    function Name(): string {
      match this
      case Source => "Source"
      case Build => "Build"
      case Invoke => "Invoke"
    }

    /** The `Provider` enum. */
    function Provider(): string {
      match this
      case Source => "CodeCommit"
      case Build => "CodeBuild"
      case Invoke => "Lambda"
    }
  }

  datatype ActionTypeId = ActionTypeId(category: string, owner: string, provider: string, version: string)

  /**
   * A pipeline action declaration, one constructor per action kind carrying
   * exactly that kind's configuration and artifacts.
   */
  datatype Action =
    | SourceAction(name: string, repositoryName: string, branchName: string,
                   pollForSourceChanges: string, outputArtifact: string, roleArn: string)
    | BuildAction(name: string, projectName: string, inputArtifact: string, outputArtifact: string)
    | InvokeAction(name: string, functionName: string, userParameters: Option<string>,
                   outputArtifact: string)
  {
    function Kind(): ActionKind {
      if SourceAction? then Source else if BuildAction? then Build else Invoke
    }

    function TypeId(): ActionTypeId {
      ActionTypeId(Kind().Name(), "AWS", Kind().Provider(), "1")
    }

    /** `inputArtifacts`: only a build action consumes an artifact. */
    function InputArtifacts(): Option<seq<string>> {
      if BuildAction? then Some([inputArtifact]) else None
    }

    /** `roleArn`: only a source action carries one. */
    function RoleArn(): Option<string> {
      if SourceAction? then Some(roleArn) else None
    }
  }

  datatype Stage = Stage(name: string, actions: seq<Action>)

  /** One command of a build specification. */
  datatype BuildCommand =
      /** `npm audit --json > <reportFile>`, followed by `; exit 0` when `exitZero`. */
    | NpmAuditJson(reportFile: string, exitZero: bool)
      /** `aws s3 cp --sse <sse> <localFile> s3://<bucket>/<key>`. */
    | S3Upload(sse: string, localFile: string, bucket: string, key: string)

  datatype BuildSpec = BuildSpec(version: string, onFailure: string, commands: seq<BuildCommand>)

  /** The `CreateProjectCommand` input (constant source and artifact types left out). */
  datatype ProjectRequest = ProjectRequest(
    name: string,
    buildspec: BuildSpec,
    serviceRole: Option<string>,
    encryptionKey: Option<string>,
    image: string,
    computeType: string)

  /** The `CreatePipelineCommand` input. */
  datatype PipelineRequest = PipelineRequest(
    name: string,
    roleArn: string,
    artifactBucket: string,
    encryptionKeyId: string,
    stages: seq<Stage>)

  /** `PutJobSuccessResultCommand` or `PutJobFailureResultCommand`. */
  datatype JobResult =
    | JobSuccess(jobId: string)
    | JobFailure(jobId: string, message: string, failureType: string, externalExecutionId: string)

  datatype AssumeRoleRequest = AssumeRoleRequest(roleArn: string, roleSessionName: string, durationSeconds: int)

  /** `Credentials` of an `AssumeRole` response; each field may be missing. */
  datatype StsCredentials = StsCredentials(
    accessKeyId: Option<string>,
    secretAccessKey: Option<string>,
    sessionToken: Option<string>)

  datatype Credentials = Credentials(accessKeyId: string, secretAccessKey: string, sessionToken: string)

  /** An element of `ListRepositories`' `repositories`. */
  datatype RepositoryEntry = RepositoryEntry(repositoryName: Option<string>)

  /** `$metadata` of a response. */
  datatype ResponseMetadata = ResponseMetadata(httpStatusCode: Option<int>)

  /** One request sent to AWS. */
  datatype Call =
    | CreateProjectCall(project: ProjectRequest)
    | DeleteProjectCall(name: string)
    | CreatePipelineCall(pipeline: PipelineRequest)
    | DeletePipelineCall(name: string)
    | PutJobResultCall(result: JobResult)
    | SendTaskSuccessCall(token: string, output: string)
    | SendTaskFailureCall(token: string)
    | AssumeRoleCall(request: AssumeRoleRequest)
    | ListRepositoriesCall(credentials: Credentials)

  /** What each service answers to a request. */
  datatype Services = Services(
    /** `response.project?.name` */
    createProject: ProjectRequest -> Result<Option<string>, Error>,
    deleteProject: string -> Result<ResponseMetadata, Error>,
    /**
     * whether the response carries `pipeline`: `Some` with an identifier of
     * the created pipeline when it does, `None` when it does not
     */
    createPipeline: PipelineRequest -> Result<Option<string>, Error>,
    deletePipeline: string -> Result<ResponseMetadata, Error>,
    putJobResult: JobResult -> Result<(), Error>,
    /** the response of `SendTaskSuccess` for a token and an output, if any */
    sendTaskSuccess: (string, string) -> Result<Option<ResponseMetadata>, Error>,
    sendTaskFailure: string -> Result<(), Error>,
    /** `roleCredentials.Credentials`, if any */
    assumeRole: AssumeRoleRequest -> Result<Option<StsCredentials>, Error>,
    /** `response.repositories`, if any */
    listRepositories: Credentials -> Result<Option<seq<RepositoryEntry>>, Error>,
    /** the body of `GetObject(bucket, key)` as a string, if any */
    getObject: (string, string) -> Result<Option<string>, Error>)

  /** The AWS account the functions run against, with the log of what was sent to it. */
  class Cloud {
    const env: Env
    const services: Services
    ghost var log: seq<Call>

    constructor (env: Env, services: Services)
      ensures this.env == env && this.services == services && log == []
    {
      this.env := env;
      this.services := services;
      log := [];
    }
  }
}
