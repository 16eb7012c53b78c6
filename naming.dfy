/**
 * The naming scheme the functions share: a repository name is normalised once
 * and every per-repository resource (build project, report object, stage
 * action) is named from the normalised form; the pipeline name is fixed.
 */
module Naming {

  /** `repo.replaceAll('.', '-')`: the resource-safe form of a repository name. */
  function Normalize(s: string): (r: string) {
    if s == [] then [] else [if s[0] == '.' then '-' else s[0]] + Normalize(s[1..])
  }

  /** The CodeBuild project made for a normalised repository name. */
  function ProjectName(repoName: string): (r: string) {
    repoName + "-npm-audit"
  }

  /** The object key under which the audit report of a normalised repository name is stored. */
  function ReportKey(repoName: string): (r: string) {
    repoName + "-audit-report.json"
  }

  /** The one pipeline every run creates and every cleanup deletes. */
  const PipelineName: string := "NPM-Audit-Pipeline"

  /** Normalisation keeps the length and replaces exactly the dots. */
  lemma {:induction false} NormalizeAt(s: string, i: nat)
    requires i < |s|
    ensures |Normalize(s)| == |s|
    ensures Normalize(s)[i] == if s[i] == '.' then '-' else s[i]
  {
    NormalizeLength(s);
    if i > 0 {
      NormalizeAt(s[1..], i - 1);
    }
  }

  lemma {:induction false} NormalizeLength(s: string)
    ensures |Normalize(s)| == |s|
  {
    if s != [] {
      NormalizeLength(s[1..]);
    }
  }

  /** No normalised name contains a dot. */
  lemma {:induction false} NormalizeHasNoDot(s: string)
    ensures '.' !in Normalize(s)
  {
    if s != [] {
      NormalizeHasNoDot(s[1..]);
    }
  }

  /** A name without dots is its own normal form. */
  lemma {:induction false} NormalizeFixesDotFree(s: string)
    requires '.' !in s
    ensures Normalize(s) == s
  {
    if s != [] {
      assert s[0] in s;
      assert forall c :: c in s[1..] ==> c in s;
      NormalizeFixesDotFree(s[1..]);
    }
  }

  /** Normalising twice is normalising once. */
  lemma NormalizeIdempotent(s: string)
    ensures Normalize(Normalize(s)) == Normalize(s)
  {
    NormalizeHasNoDot(s);
    NormalizeFixesDotFree(Normalize(s));
  }

  /** Only the empty name normalises to the empty name. */
  lemma NormalizeEmptyIff(s: string)
    ensures Normalize(s) == [] <==> s == []
  {
    NormalizeLength(s);
  }

  /** Distinct normalised names give distinct project names. */
  lemma ProjectNameInjective(a: string, b: string)
    requires ProjectName(a) == ProjectName(b)
    ensures a == b
  {
    assert a == ProjectName(a)[..|a|];
    assert b == ProjectName(b)[..|b|];
  }

  /** Distinct normalised names give distinct report keys. */
  lemma ReportKeyInjective(a: string, b: string)
    requires ReportKey(a) == ReportKey(b)
    ensures a == b
  {
    assert a == ReportKey(a)[..|a|];
    assert b == ReportKey(b)[..|b|];
  }
}
