/**
 * The handler that closes an audit run: it deletes the build project of every
 * repository, ignoring each outcome, and then deletes the pipeline.
 */
module DeletePipelineBuildProjects {
  import opened Wrappers
  import opened Aws
  import opened Naming
  import CodeBuild
  import CodePipeline

  /** The project deletions, in list order; a repository with an empty name sends none. */
  function ProjectDeletions(repos: seq<string>): (calls: seq<Call>) {
    if repos == [] then []
    else ProjectDeletions(repos[..|repos| - 1]) + CodeBuild.DeleteProjectCalls(Normalize(repos[|repos| - 1]))
  }

  /** The requests the handler sends: every project deletion, then the pipeline deletion. */
  function DeleteCalls(repos: seq<string>): (calls: seq<Call>) {
    ProjectDeletions(repos) + [DeletePipelineCall(PipelineName)]
  }

  /**
   * `handler(repositories)`: the project deletions run without being awaited
   * and their failures are dropped; the outcome is the pipeline deletion's.
   */
  method Handler(cloud: Cloud, repos: seq<string>) returns (r: Result<(), Error>)
    modifies cloud
    ensures cloud.log == old(cloud.log) + DeleteCalls(repos)
    ensures r == CodePipeline.DeletePipelineResult(cloud.services, PipelineName)
  {
    var i := 0;
    while i < |repos|
      invariant 0 <= i <= |repos|
      invariant cloud.log == old(cloud.log) + ProjectDeletions(repos[..i])
    {
      assert repos[..i + 1][..i] == repos[..i];
      assert ProjectDeletions(repos[..i + 1])
        == ProjectDeletions(repos[..i]) + CodeBuild.DeleteProjectCalls(Normalize(repos[i]));
      var _ := CodeBuild.DeleteProject(cloud, Normalize(repos[i]));
      i := i + 1;
    }
    assert repos[..i] == repos;
    r := CodePipeline.DeletePipeline(cloud, PipelineName);
  }

  // Properties of the handler.

  /**
   * Without empty names, deletion `i` removes the project of repository `i`
   * and the pipeline deletion comes last.
   */
  lemma {:induction false} DeletionsPerRepository(repos: seq<string>)
    requires forall i :: 0 <= i < |repos| ==> repos[i] != ""
    ensures |ProjectDeletions(repos)| == |repos|
    ensures forall i :: 0 <= i < |repos| ==>
      ProjectDeletions(repos)[i] == DeleteProjectCall(ProjectName(Normalize(repos[i])))
  {
    if repos != [] {
      var init := repos[..|repos| - 1];
      DeletionsPerRepository(init);
      Naming.NormalizeEmptyIff(repos[|repos| - 1]);
      assert forall i :: 0 <= i < |init| ==> init[i] == repos[i];
    }
  }

  /**
   * Clean-up undoes creation: for the same list, deletion `i` names the
   * project creation `i` requested, and the pipeline deleted is the one the
   * create handler requests.
   */
  lemma CleanupMatchesCreation(env: Env, repos: seq<string>)
    requires forall i :: 0 <= i < |repos| ==> repos[i] != ""
    ensures |ProjectDeletions(repos)| == |CodePipeline.CreateProjectCalls(env, repos)| == |repos|
    ensures forall i :: 0 <= i < |repos| ==>
      ProjectDeletions(repos)[i] == DeleteProjectCall(CodePipeline.CreateProjectCalls(env, repos)[i].project.name)
    ensures DeleteCalls(repos)[|repos|] == DeletePipelineCall(PipelineName)
  {
    DeletionsPerRepository(repos);
  }

  /**
   * The gap in the clean-up: an empty repository name gets a project
   * `-npm-audit` on creation, but deletion refuses the empty name, so that
   * project is never deleted.
   */
  lemma EmptyNameIsNotCleanedUp(env: Env)
    ensures CodePipeline.CreateProjectCalls(env, [""]) == [CreateProjectCall(CodeBuild.ProjectRequestFor(env, ""))]
    ensures CodeBuild.ProjectRequestFor(env, "").name == "-npm-audit"
    ensures DeleteCalls([""]) == [DeletePipelineCall(PipelineName)]
  {
    assert Normalize("") == "";
    assert ProjectDeletions([""]) == ProjectDeletions([]) + CodeBuild.DeleteProjectCalls("");
  }
}
