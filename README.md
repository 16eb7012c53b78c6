# gauditor: a Dafny model of the npm-audit orchestration functions

gauditor runs `npm audit` across a fleet of CodeCommit repositories from a
Step Functions workflow. Its Lambda functions under `packages/functions`:

- list the repositories to audit (a name filter over CodeCommit, reached with
  temporary STS credentials);
- create one CodeBuild project per repository and a CodePipeline named
  `NPM-Audit-Pipeline` with a `Source`, a `Build` and an `Invoke` stage;
- from the pipeline's invoke action, hand the workflow task token back to
  Step Functions and report the pipeline job's outcome;
- read each repository's uploaded audit report from S3 and summarise the
  high and critical counts, or bucket the vulnerability ids by severity;
- delete the build projects and the pipeline afterwards.

This project models that logic. Every AWS request is an oracle. `Aws.Services`
is a record of total functions from request to `Result` (a failure stands for
a thrown send). `Aws.Cloud` holds the environment variables, the oracle and a
ghost log of the requests sent to CodeBuild, CodePipeline, CodeCommit, STS
and Step Functions. Each operation that sends one of those requests is a
method over a `Cloud`, proved against two pure functions: the requests it
appends to the log (`...Calls`) and the value it returns or throws
(`...Result`). The report reader is the exception: it only reads S3 objects,
so it is modelled by pure functions that query the oracle, and its reads are
not logged. The properties are lemmas over those functions.

Files, one module each:

- `wrappers.dfy`: `Option` and `Result`.
- `naming.dfy`: dot-to-dash normalisation, project names, report keys and the
  pipeline name shared by all the functions.
- `json.dfy`: the untyped input value and `JSON.stringify` of a string.
- `aws.dfy`: environment, request and response shapes, the oracle and the
  call log.
- `codebuild.dfy`, `codepipeline.dfy`, `codecommit.dfy`, `sfn.dfy`: the
  library gateways in `packages/functions/lib`.
- `create_output.dfy`: severity bucketing, as an imperative loop.
- `parse_reports.dfy`, `create_pipeline_build_projects.dfy`, `send_token.dfy`,
  `delete_pipeline_build_projects.dfy`: the handlers in
  `packages/functions/src`.

Two behaviours of the code worth knowing, both modelled as written:

- A missing `SEND_SUCCESS_LAMBDA` makes the `Invoke` actions fail
  (`packages/functions/lib/codepipeline.ts:71-73`). The `Build` actions do not
  read it, so by then every build project was already created, and no
  pipeline is requested.
- A report produces a summary line whenever its `vulnerabilities` field is
  truthy, and an empty object counts
  (`packages/functions/src/parse-reports.ts:21-22`). When the field is falsy,
  the line is `undefined`, which `join` writes as an empty line.

## Model

| member | source | states |
|---|---|---|
| Naming.NormalizeAt | packages/functions/lib/codepipeline.ts:82 | normalising keeps the length and maps position i to `-` when it held `.`, otherwise to the same character |
| Naming.NormalizeLength | packages/functions/lib/codepipeline.ts:82 | normalising keeps the length |
| Naming.NormalizeHasNoDot | packages/functions/src/delete-pipeline-build-projects.ts:13 | a normalised name contains no `.` |
| Naming.NormalizeFixesDotFree | packages/functions/src/parse-reports.ts:17 | a name without `.` is left unchanged |
| Naming.NormalizeIdempotent | packages/functions/lib/codepipeline.ts:82 | normalising twice is normalising once |
| Naming.NormalizeEmptyIff | packages/functions/src/delete-pipeline-build-projects.ts:13 | a normalised name is empty exactly when the name is |
| Naming.ProjectNameInjective | packages/functions/lib/codebuild.ts:11 | distinct names give distinct `<name>-npm-audit` projects |
| Naming.ReportKeyInjective | packages/functions/lib/codebuild.ts:20-21 | distinct names give distinct `<name>-audit-report.json` keys |
| Json.StringifyOption | packages/functions/src/create-pipeline-build-projects.ts:36 | an absent token stays absent, a present one is serialised |
| Json.EscapeLength | packages/functions/src/create-pipeline-build-projects.ts:36 | escaping never shortens a string |
| Json.EscapePlain | packages/functions/src/create-pipeline-build-projects.ts:36 | a string without quotes, backslashes or control characters is escaped to itself |
| Json.StringifyIsNotIdentity | packages/functions/src/create-pipeline-build-projects.ts:36 | the serialised token is at least two characters longer than the token, so it never equals it |
| Json.StringifyPlain | packages/functions/src/create-pipeline-build-projects.ts:36 | a plain token is serialised as the token between double quotes |
| CodeBuild.BuildSpecFor | packages/functions/lib/codebuild.ts:14-22 | build spec version `0.2`; the build continues on failure; the audit writes `<name>-audit-report.json` and exits 0; that file is uploaded with `--sse aws:kms` to the bucket under the same key |
| CodeBuild.ProjectRequestFor | packages/functions/lib/codebuild.ts:10-42 | the request names the project `<name>-npm-audit` and carries exactly `BuildSpecFor`'s build spec, so the sent audit step continues on failure and exits 0 and uploads `<name>-audit-report.json` to `BUILDSPEC_BUCKET` (`undefined` when unset); it carries `CODEBUILD_SERVICE_ROLE_ARN` and `KMS_KEY_ID` |
| CodeBuild.CreateProjectResult | packages/functions/lib/codebuild.ts:43-51 | success exactly when the response names a non-empty project, and then that name is returned; a failed send is rethrown with its own error; an answer without a name fails with `Error creating project` |
| CodeBuild.CreateProject | packages/functions/lib/codebuild.ts:8-53 | sends one create request for `<name>-npm-audit` and returns `CreateProjectResult` |
| CodeBuild.DeleteProjectCalls | packages/functions/lib/codebuild.ts:56-61 | an empty name sends nothing; otherwise exactly one deletion of `<name>-npm-audit` |
| CodeBuild.DeleteProjectResult | packages/functions/lib/codebuild.ts:55-69 | an empty name fails with `No repository name provided`; success exactly when the deletion answers status 200; a failed send keeps its own error; any other status fails with `Failed to delete <name>-npm-audit` |
| CodeBuild.DeleteProject | packages/functions/lib/codebuild.ts:55-69 | sends `DeleteProjectCalls` and returns `DeleteProjectResult` |
| CodeBuild.DeleteTargetsCreatedProject | packages/functions/lib/codebuild.ts:59 | deleting a non-empty name targets the project name creating it requested |
| CodePipeline.BuildActions | packages/functions/lib/codepipeline.ts:80-113 | the build actions exist exactly when every project creation succeeded, one build action per repository; otherwise the error is that of the first creation in list order that failed |
| CodePipeline.ActionsResult | packages/functions/lib/codepipeline.ts:54-114 | `Source` never fails; `Invoke` fails exactly when `SEND_SUCCESS_LAMBDA` is unset, with `SEND_SUCCESS_LAMBDA is missing`; `Build` is `BuildActions`; every action has the requested kind, one per repository or the single invoke action |
| CodePipeline.Actions | packages/functions/lib/codepipeline.ts:54-114 | sends one project creation per repository for `Build` and none otherwise, and returns `ActionsResult` |
| CodePipeline.DeclareSourceActions | packages/functions/lib/codepipeline.ts:80-113 | the source actions, one per repository in order, with nothing sent |
| CodePipeline.CreateBuildActions | packages/functions/lib/codepipeline.ts:80-113 | sends one project creation per repository in order, even after one fails, and returns `BuildActions` |
| CodePipeline.BuildActionsAllOrNothing | packages/functions/lib/codepipeline.ts:80-113 | the build actions exist exactly when every project creation succeeded; action i is then repository i's, with the project name its creation returned |
| CodePipeline.ActionsShape | packages/functions/lib/codepipeline.ts:59-106 | `Invoke` gives one action `SendTaskSuccess` with output `LambdaInvoke`; `Source` and `Build` give one action per repository in order, named and outputting `<normalised>-<kind>`; every action's type is its kind, owner `AWS`, version `1`, provider `CodeCommit`, `CodeBuild` or `Lambda` |
| CodePipeline.InvokeIgnoresRepositories | packages/functions/lib/codepipeline.ts:59-78 | the invoke actions do not depend on the list, fail exactly when `SEND_SUCCESS_LAMBDA` is unset, and take a caller's function name over it |
| CodePipeline.BuildConsumesSourceOutput | packages/functions/lib/codepipeline.ts:84-106 | build action i names the project created for `normalize(repos[i])` and consumes source action i's output; source action i keeps the raw name, branch `develop` and polling `false` |
| CodePipeline.OnlySourceActionsCarryRole | packages/functions/lib/codepipeline.ts:107-110 | an action carries a role exactly when it is a source action, and then the fixed reader role |
| CodePipeline.StageHoldsActions | packages/functions/lib/codepipeline.ts:129-138 | a stage succeeds exactly when its actions do, and is named after the kind and holds exactly those actions |
| CodePipeline.DeclareStage | packages/functions/lib/codepipeline.ts:129-138 | sends what `actions` sends and returns `StageResult` |
| CodePipeline.TwoDottedRepositoriesScenario | packages/functions/lib/codepipeline.ts:80-106 | `["a.b", "c.d"]` gives build actions `a-b-Build` and `c-d-Build` on the projects created for `a-b` and `c-d` |
| CodePipeline.DotDashCollision | packages/functions/lib/codepipeline.ts:82-96 | `["a.b", "a-b"]` requests the project `a-b-npm-audit` twice and gives two build actions both named `a-b-Build` |
| CodePipeline.PipelineRequestFor | packages/functions/lib/codepipeline.ts:153-178 | the guards in order: no stages fails with `No stages provided`, then a missing `CODEPIPELINE_SERVICE_ROLE_ARN`, `BUILDSPEC_BUCKET` or `KMS_KEY_ID` with `<NAME> is not defined`; a request exists exactly when all pass, and it carries the name, the stages, the role, the bucket as artifact store and the key |
| CodePipeline.CreatePipelineResult | packages/functions/lib/codepipeline.ts:148-187 | a guard failure is the error; success exactly when there are stages, the role, bucket and key are set and the response carries the created pipeline, which is returned; a response without it fails with `Error creating pipeline`, a failed send with its own error |
| CodePipeline.CreatePipeline | packages/functions/lib/codepipeline.ts:148-187 | sends at most one request, none when a guard fails, and returns `CreatePipelineResult` |
| CodePipeline.DeletePipelineResult | packages/functions/lib/codepipeline.ts:195-206 | success exactly when the deletion answers status 200; a failed send keeps its own error; any other status fails with `Failed to delete <name>` |
| CodePipeline.DeletePipeline | packages/functions/lib/codepipeline.ts:195-206 | sends one deletion for the name and returns `DeletePipelineResult` |
| CodePipeline.JobResultFor | packages/functions/lib/codepipeline.ts:217-226 | the job result is a success exactly when asked for; a failure carries the job id as its external execution id |
| CodePipeline.SendJobResultResult | packages/functions/lib/codepipeline.ts:214-233 | an empty job id fails with `No jobId provided`; success exactly when the report is accepted; a failed send keeps its own error |
| CodePipeline.SendJobResult | packages/functions/lib/codepipeline.ts:214-233 | sends nothing for an empty job id, otherwise one job result, and returns `SendJobResultResult` |
| CodeCommit.ContainsIffOccurs | packages/functions/lib/codecommit.ts:67-69 | the substring scan standing for `includes` finds a string exactly when it occurs at some index |
| CodeCommit.Audited | packages/functions/lib/codecommit.ts:66-69 | a name is audited exactly when `de.ves.pt` occurs in it and neither `npm-audit` nor `docs` does |
| CodeCommit.FilterRepositories | packages/functions/lib/codecommit.ts:63-71 | every name kept contains `de.ves.pt` and neither `npm-audit` nor `docs`; a name is kept exactly when some entry carries it and it passes the filter |
| CodeCommit.FilterKeepsEveryMatch | packages/functions/lib/codecommit.ts:63-71 | the list holds one name per kept entry, duplicates included |
| CodeCommit.FilterKeepsOrder | packages/functions/lib/codecommit.ts:63-71 | the kept names are a subsequence, in order, of the entries' names |
| CodeCommit.CredentialsResult | packages/functions/lib/codecommit.ts:31-45 | success exactly when STS answered with all three credentials present and non-empty, which are returned as they came; an STS failure is passed through unchanged; any other answer fails with `No credentials returned from STS` |
| CodeCommit.GetCredentials | packages/functions/lib/codecommit.ts:20-46 | sends one role assumption for 900 seconds and returns `CredentialsResult` |
| CodeCommit.ListRepositories | packages/functions/lib/codecommit.ts:48-77 | no listing without credentials; a response without `repositories` fails with `No repositories found.`, otherwise the filtered names |
| CreateOutput.CreateOutput | packages/functions/lib/create-output.ts:11-26 | the buckets are the critical and the high keys in entry order: a key is in a bucket exactly when its severity is that bucket's, no key is in both, and together they are no larger than the entries |
| CreateOutput.KeysWithSeverityMembership | packages/functions/lib/create-output.ts:14-21 | a key is in a severity's bucket exactly when some entry with that key has that severity |
| CreateOutput.BucketsDisjoint | packages/functions/lib/create-output.ts:15-20 | with distinct keys, no key is both critical and high |
| CreateOutput.BucketSizes | packages/functions/lib/create-output.ts:14-21 | the two buckets together hold at most one key per entry |
| CreateOutput.BucketKeepsOrder | packages/functions/lib/create-output.ts:14-21 | a bucket lists the keys of the matching entries at strictly increasing positions |
| ParseReports.GetReportByKey | packages/functions/lib/s3.ts:6-28 | a body is returned exactly when the bucket is set and the object has a non-empty body, and it is that body |
| ParseReports.Line | packages/functions/src/parse-reports.ts:16-23 | a failed read is the line's error; a line exists exactly when the report is read and parsed and, if it has vulnerabilities, carries the counts; it is empty exactly when the report has none, and otherwise `<key>- High: <high> and Critical: <critical>` |
| ParseReports.LinesAllOrNothing | packages/functions/src/parse-reports.ts:15-25 | the lines exist exactly when every repository's line does, and line i is repository i's |
| ParseReports.Handler | packages/functions/src/parse-reports.ts:13-38 | the list comes back unchanged; a summary exactly when every line is produced, then the header, a newline and the lines joined by newlines in list order |
| ParseReports.ReadsKeyBuildWrites | packages/functions/src/parse-reports.ts:17 | the key read for a repository is the one the build of its normalised name uploads to, in the same bucket; two repositories share a key exactly when their normalised names agree |
| ParseReports.LineNamesUploadedKey | packages/functions/src/parse-reports.ts:17-22 | a non-empty line starts with the report key of the normalised name |
| ParseReports.OneHighOneCriticalLine | packages/functions/src/parse-reports.ts:21-22 | a report counting one high and one critical gives `<key>- High: 1 and Critical: 1` |
| ParseReports.TwoReportsScenario | packages/functions/src/parse-reports.ts:29-32 | two such reports give the header and the two lines in order, and the list alongside |
| ParseReports.UnreadableReportScenario | packages/functions/src/parse-reports.ts:34-37 | an unreadable first report yields the bare list |
| Sfn.SendTaskSuccessCalls | packages/functions/lib/sfn.ts:9-25 | the success signal goes first with output `{"success":true}`; a failure signal for the same token follows exactly when it threw; never more than two |
| Sfn.SendTaskSuccessResult | packages/functions/lib/sfn.ts:9-25 | the success response when the signal went through; otherwise a failure carrying the fallback's error if it threw, the original error if not |
| Sfn.SendTaskSuccess | packages/functions/lib/sfn.ts:9-25 | sends `SendTaskSuccessCalls` and returns `SendTaskSuccessResult` |
| CreatePipelineBuildProjects.Validate | packages/functions/src/create-pipeline-build-projects.ts:16-24 | a non-array and an array with a non-string fail with their messages; any array of strings passes, the empty one included, and is returned as it came |
| CreatePipelineBuildProjects.Handler | packages/functions/src/create-pipeline-build-projects.ts:12-55 | sends `HandlerCalls` and returns `HandlerResult` |
| CreatePipelineBuildProjects.InvalidInputSendsNothing | packages/functions/src/create-pipeline-build-projects.ts:16-24 | invalid input sends no request and fails with the validation message |
| CreatePipelineBuildProjects.HandlerSucceedsIff | packages/functions/src/create-pipeline-build-projects.ts:12-55 | success exactly when the input is valid, every project is created, the callback is set and the pipeline is created; the list returned is the input |
| CreatePipelineBuildProjects.HandlerStagesInOrder | packages/functions/src/create-pipeline-build-projects.ts:27-45 | three stages `Source`, `Build`, `Invoke` in order, one source and one build action per repository, one invoke action carrying the serialised token, and one pipeline request `NPM-Audit-Pipeline` with exactly those stages |
| CreatePipelineBuildProjects.MissingCallbackLeavesProjects | packages/functions/src/create-pipeline-build-projects.ts:31-37 | without `SEND_SUCCESS_LAMBDA` every project creation is still sent, no pipeline is requested, and the handler fails |
| CreatePipelineBuildProjects.EmptyListStillRequestsPipeline | packages/functions/src/create-pipeline-build-projects.ts:16-45 | an empty list requests a pipeline whose source and build stages are empty |
| SendToken.Handler | packages/functions/src/send-token.ts:13-31 | sends `HandlerCalls` and returns `HandlerResult` |
| SendToken.TokenRedeemedVerbatim | packages/functions/src/send-token.ts:16-21 | the first request is the one success signal, with the user parameters as they came; any failure signal names the same token |
| SendToken.JobOutcomeFollowsStatus | packages/functions/src/send-token.ts:22-26 | after a successful signal the job result follows, a success exactly when the response has status 200, and the handler fails exactly when reporting does |
| SendToken.NoJobResultAfterThrow | packages/functions/src/send-token.ts:21-30 | when the signal throws, only the failure signal follows, no job result is sent, and the handler fails with the failure signal's error if that threw too, the signal's own error otherwise |
| SendToken.EmptyJobIdAfterRedeem | packages/functions/src/send-token.ts:21-23 | an empty job id fails with `No jobId provided` only after the token was redeemed |
| SendToken.DeliveredTokenIsSerialised | packages/functions/src/send-token.ts:16-21 | the token handed to Step Functions is the serialised token stored in the invoke action, never the token itself |
| DeletePipelineBuildProjects.Handler | packages/functions/src/delete-pipeline-build-projects.ts:9-23 | sends every project deletion in list order whatever their outcomes, then the pipeline deletion, whose outcome is the handler's |
| DeletePipelineBuildProjects.DeletionsPerRepository | packages/functions/src/delete-pipeline-build-projects.ts:11-16 | with non-empty names there is one deletion per repository, deletion i removing `normalize(repos[i])-npm-audit` |
| DeletePipelineBuildProjects.CleanupMatchesCreation | packages/functions/src/delete-pipeline-build-projects.ts:11-18 | deletion i targets the project creation i requested for the same list, and the pipeline deletion comes last |
| DeletePipelineBuildProjects.EmptyNameIsNotCleanedUp | packages/functions/src/delete-pipeline-build-projects.ts:11-16 | an empty name creates `-npm-audit` but no deletion is sent for it |

## Left out

- Concurrency: `Promise.all` in `actions` and in the report reader, and the un-awaited `Promise.allSettled` in the delete handler, are sequential loops in list order. All the project creations are still sent when one fails, and the first failure in list order is the one reported. How the project deletions interleave with the pipeline deletion is not modelled.
- The AWS SDK clients, STS, S3 and Step Functions are oracles that answer the same request the same way. Retries, throttling and pagination are not modelled; the source does not follow `nextToken` either.
- `JSON.parse` of a report body is an oracle returning the fields the reader uses. A body that parses to `null` counts as a parse failure, since reading a field of `null` throws too.
- Report counts are integers; non-integer or non-numeric counts are not modelled.
- `CodeBuild.ProjectRequestFor` keeps the name, build spec, service role, key, image and compute type of the request. The constant source, artifact and environment-variable fields are left out.
- CodePipeline.CreatePipelineResult: the response is reduced to whether it carries `pipeline` and an identifier of it; the handler uses nothing else, so the rest of `CreatePipelineCommandOutput` that `createPipeline` returns is not modelled.
- ParseReports: the report reader's S3 reads are oracle lookups inside pure functions and are not recorded in the request log. The reader sends no other request, and no property depends on the order of its reads.
- CreatePipelineBuildProjects.Event: the workflow token is a string or absent. A token of another JSON type, which `JSON.stringify` would serialise differently, is not modelled.
- DeletePipelineBuildProjects.Handler: the event is a list of strings. A non-array event, on which `event.map` throws before the pipeline deletion is sent, is not modelled.
- DeletePipelineBuildProjects.Handler: the project deletions are not awaited, so the function may return before they are sent or answered. The model sends each of them, in list order, before the pipeline deletion.
- SendToken.Handler: the job event's `UserParameters` is a string. An event without it is not modelled.
- `packages/functions/src/list-repositories.ts` and `packages/functions/lib/utilty.ts` are not part of this model. The first only forwards a fixed role ARN to `listRepositories` and re-wraps its error; the second is a one-line throw helper.
- The CDK and SST stacks, the IAM roles and the test configuration are deployment wiring with no runtime behaviour. They are not part of this model.
- Console logging is left out.
- Redeeming the same task token twice is not detected, because the source does not detect it either.
