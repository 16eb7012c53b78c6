/** Repository discovery: cross-account credentials, then the filtered repository list. */
module CodeCommit {
  import opened Wrappers
  import opened Aws

  const RoleSessionName: string := "abcdefghijklmnopqrstuvwxyz"

  /** The role session lasts 900 seconds (15 minutes). */
  const SessionSeconds: int := 900

  /** `s.includes(sub)`, scanning `s` from the left. */
  predicate Contains(s: string, sub: string) {
    if |sub| > |s| then false else s[..|sub|] == sub || Contains(s[1..], sub)
  }

  /** `sub` occurs in `s` starting at index `i`. */
  predicate OccursAt(s: string, sub: string, i: int) {
    0 <= i && i + |sub| <= |s| && s[i..i + |sub|] == sub
  }

  /** The scan finds `sub` exactly when it occurs somewhere in `s`. */
  lemma {:induction false} ContainsIffOccurs(s: string, sub: string)
    ensures Contains(s, sub) <==> exists i :: OccursAt(s, sub, i)
    decreases |s|
  {
    if |sub| <= |s| {
      if s[..|sub|] == sub {
        assert OccursAt(s, sub, 0);
      } else {
        ContainsIffOccurs(s[1..], sub);
        if exists i :: OccursAt(s, sub, i) {
          var i :| OccursAt(s, sub, i);
          assert i != 0;
          assert s[1..][i - 1..i - 1 + |sub|] == s[i..i + |sub|];
          assert OccursAt(s[1..], sub, i - 1);
        }
        if exists j :: OccursAt(s[1..], sub, j) {
          var j :| OccursAt(s[1..], sub, j);
          assert s[1..][j..j + |sub|] == s[j + 1..j + 1 + |sub|];
          assert OccursAt(s, sub, j + 1);
        }
      }
    }
  }

  /**
   * The repositories a run audits: the organisation's (`de.ves.pt` occurs in
   * the name), minus the scan's own (`npm-audit`) and documentation (`docs`).
   */
  predicate Audited(name: string): (b: bool)
    ensures b <==>
      && (exists i :: OccursAt(name, "de.ves.pt", i))
      && !(exists i :: OccursAt(name, "npm-audit", i))
      && !(exists i :: OccursAt(name, "docs", i))
  {
    ContainsIffOccurs(name, "de.ves.pt");
    ContainsIffOccurs(name, "npm-audit");
    ContainsIffOccurs(name, "docs");
    Contains(name, "de.ves.pt") && !Contains(name, "npm-audit") && !Contains(name, "docs")
  }

  /** The `filter` and `map` of `listRepositories`: the audited names, in response order. */
  function FilterRepositories(entries: seq<RepositoryEntry>): (names: seq<string>)
    ensures |names| <= |entries|
    ensures forall n :: n in names ==> Audited(n)
    ensures forall n :: n in names <==>
      exists i :: 0 <= i < |entries| && entries[i].repositoryName == Some(n) && Audited(n)
  {
    if entries == [] then []
    else
      var init := FilterRepositories(entries[..|entries| - 1]);
      var last := entries[|entries| - 1];
      assert forall i :: 0 <= i < |entries| - 1 ==> entries[..|entries| - 1][i] == entries[i];
      if last.repositoryName.Some? && Audited(last.repositoryName.value) then init + [last.repositoryName.value]
      else init
  }

  /** `a` is `b` with some elements left out, order kept. */
  predicate SubsequenceOf<T(==)>(a: seq<T>, b: seq<T>) {
    if a == [] then true
    else if b == [] then false
    else if a[|a| - 1] == b[|b| - 1] then SubsequenceOf(a[..|a| - 1], b[..|b| - 1])
    else SubsequenceOf(a, b[..|b| - 1])
  }

  /** The names a listing returns, in response order (`None` for an entry without a name). */
  function Names(entries: seq<RepositoryEntry>): (r: seq<Option<string>>) {
    seq(|entries|, i requires 0 <= i < |entries| => entries[i].repositoryName)
  }

  function Somes(names: seq<string>): (r: seq<Option<string>>) {
    seq(|names|, i requires 0 <= i < |names| => Some(names[i]))
  }

  /** The filtered list keeps the response order: it is a subsequence of the response's names. */
  lemma {:induction false} FilterKeepsOrder(entries: seq<RepositoryEntry>)
    ensures SubsequenceOf(Somes(FilterRepositories(entries)), Names(entries))
  {
    if entries != [] {
      var init := entries[..|entries| - 1];
      FilterKeepsOrder(init);
      assert Names(entries)[..|entries| - 1] == Names(init);
      var last := entries[|entries| - 1];
      if last.repositoryName.Some? && Audited(last.repositoryName.value) {
        var f := FilterRepositories(entries);
        assert Somes(f)[..|f| - 1] == Somes(FilterRepositories(init));
      } else {
        SubsequenceExtend(Somes(FilterRepositories(init)), Names(init), Names(entries));
      }
    }
  }

  /** An entry the listing keeps: it carries a name and that name is audited. */
  predicate Kept(entry: RepositoryEntry) {
    entry.repositoryName.Some? && Audited(entry.repositoryName.value)
  }

  /**
   * Every kept entry contributes its own name, duplicates included: the list
   * is as long as the number of kept entries. With `FilterKeepsOrder` this
   * makes it exactly the kept names in response order.
   */
  lemma {:induction false} FilterKeepsEveryMatch(entries: seq<RepositoryEntry>)
    ensures |FilterRepositories(entries)| == |set i | 0 <= i < |entries| && Kept(entries[i])|
  {
    if entries != [] {
      var n := |entries| - 1;
      FilterKeepsEveryMatch(entries[..n]);
      KeptIndicesStep(entries);
      assert FilterRepositories(entries)
        == if Kept(entries[n]) then FilterRepositories(entries[..n]) + [entries[n].repositoryName.value]
           else FilterRepositories(entries[..n]);
    }
  }

  /** The kept positions of a listing are those of its prefix, plus the last one if kept. */
  lemma KeptIndicesStep(entries: seq<RepositoryEntry>)
    requires entries != []
    ensures var n := |entries| - 1;
      |set i | 0 <= i < |entries| && Kept(entries[i])|
        == |set i | 0 <= i < n && Kept(entries[..n][i])| + if Kept(entries[n]) then 1 else 0
  {
    var n := |entries| - 1;
    var flags := seq(|entries|, i requires 0 <= i < |entries| => Kept(entries[i]));
    CountStep(flags);
    assert (set i | 0 <= i < |entries| && Kept(entries[i])) == set i | 0 <= i < |flags| && flags[i];
    assert (set i | 0 <= i < n && Kept(entries[..n][i])) == set i | 0 <= i < n && flags[i];
  }

  /** The set positions of a flag sequence are those of its prefix, plus the last one if set. */
  lemma CountStep(flags: seq<bool>)
    requires flags != []
    ensures var n := |flags| - 1;
      |set i | 0 <= i < |flags| && flags[i]| == |set i | 0 <= i < n && flags[i]| + if flags[n] then 1 else 0
  {
    var n := |flags| - 1;
    var before := set i | 0 <= i < n && flags[i];
    var after := set i | 0 <= i < |flags| && flags[i];
    if flags[n] {
      assert after == before + {n};
    } else {
      assert after == before;
    }
  }

  lemma {:induction false} SubsequenceExtend<T>(a: seq<T>, b: seq<T>, c: seq<T>)
    requires SubsequenceOf(a, b)
    requires |c| == |b| + 1 && c[..|b|] == b
    ensures SubsequenceOf(a, c)
    decreases |b|, 1
  {
    if a != [] {
      if a[|a| - 1] == c[|c| - 1] {
        SubsequenceOfDropLast(a, b);
        assert c[..|c| - 1] == b;
      } else {
        assert c[..|c| - 1] == b;
      }
    }
  }

  lemma {:induction false} SubsequenceOfDropLast<T>(a: seq<T>, b: seq<T>)
    requires a != [] && SubsequenceOf(a, b)
    ensures SubsequenceOf(a[..|a| - 1], b)
    decreases |b|, 0
  {
    if b != [] {
      if a[|a| - 1] == b[|b| - 1] {
        var b' := b[..|b| - 1];
        SubsequenceExtend(a[..|a| - 1], b', b);
      } else {
        SubsequenceOfDropLast(a, b[..|b| - 1]);
        SubsequenceExtend(a[..|a| - 1], b[..|b| - 1], b);
      }
    }
  }

  function AssumeRoleRequestFor(roleArn: string): (r: AssumeRoleRequest) {
    AssumeRoleRequest(roleArn, RoleSessionName, SessionSeconds)
  }

  /** A credential field is usable when present and non-empty (`!x` rejects both). */
  predicate Usable(field: Option<string>) {
    field.Some? && field.value != ""
  }

  /** `getCredentials(roleArn)`: the three temporary credentials, all of them or an error. */
  function CredentialsResult(services: Services, roleArn: string): (r: Result<Credentials, Error>)
    ensures r.Success? ==>
      var sts := services.assumeRole(AssumeRoleRequestFor(roleArn));
      && sts.Success? && sts.value.Some?
      && sts.value.value == StsCredentials(Some(r.value.accessKeyId), Some(r.value.secretAccessKey), Some(r.value.sessionToken))
      && r.value.accessKeyId != "" && r.value.secretAccessKey != "" && r.value.sessionToken != ""
    ensures r.Success? <==>
      var sts := services.assumeRole(AssumeRoleRequestFor(roleArn));
      && sts.Success? && sts.value.Some?
      && Usable(sts.value.value.accessKeyId) && Usable(sts.value.value.secretAccessKey)
      && Usable(sts.value.value.sessionToken)
    ensures services.assumeRole(AssumeRoleRequestFor(roleArn)).Failure? ==>
      r == Failure(services.assumeRole(AssumeRoleRequestFor(roleArn)).error)
    ensures services.assumeRole(AssumeRoleRequestFor(roleArn)).Success? && r.Failure? ==>
      r.error == "No credentials returned from STS"
  {
    match services.assumeRole(AssumeRoleRequestFor(roleArn))
    case Failure(e) => Failure(e)
    case Success(credentials) =>
      if credentials.Some? && Usable(credentials.value.accessKeyId) && Usable(credentials.value.secretAccessKey)
         && Usable(credentials.value.sessionToken)
      then Success(Credentials(credentials.value.accessKeyId.value, credentials.value.secretAccessKey.value,
                               credentials.value.sessionToken.value))
      else Failure("No credentials returned from STS")
  }

  method GetCredentials(cloud: Cloud, roleArn: string) returns (r: Result<Credentials, Error>)
    modifies cloud
    ensures cloud.log == old(cloud.log) + [AssumeRoleCall(AssumeRoleRequestFor(roleArn))]
    ensures r == CredentialsResult(cloud.services, roleArn)
  {
    var request := AssumeRoleRequestFor(roleArn);
    cloud.log := cloud.log + [AssumeRoleCall(request)];
    var response := cloud.services.assumeRole(request);
    match response
    case Failure(e) =>
      r := Failure(e);
    case Success(credentials) =>
      if credentials.Some? && Usable(credentials.value.accessKeyId) && Usable(credentials.value.secretAccessKey)
         && Usable(credentials.value.sessionToken) {
        r := Success(Credentials(credentials.value.accessKeyId.value, credentials.value.secretAccessKey.value,
                                 credentials.value.sessionToken.value));
      } else {
        r := Failure("No credentials returned from STS");
      }
  }

  /**
   * `listRepositories(roleArn)`: the credentials, then one listing with them;
   * a response without `repositories` is an error, an empty one is not.
   */
  method ListRepositories(cloud: Cloud, roleArn: string) returns (r: Result<seq<string>, Error>)
    modifies cloud
    ensures var credentials := CredentialsResult(cloud.services, roleArn);
      && (credentials.Failure? ==>
            r == Failure(credentials.error) && cloud.log == old(cloud.log) + [AssumeRoleCall(AssumeRoleRequestFor(roleArn))])
      && (credentials.Success? ==>
            && cloud.log == old(cloud.log) + [AssumeRoleCall(AssumeRoleRequestFor(roleArn)), ListRepositoriesCall(credentials.value)]
            && r == match cloud.services.listRepositories(credentials.value)
                    case Failure(e) => Failure(e)
                    case Success(None) => Failure("No repositories found.")
                    case Success(Some(entries)) => Success(FilterRepositories(entries)))
  {
    var credentials := GetCredentials(cloud, roleArn);
    if credentials.Failure? {
      return Failure(credentials.error);
    }
    cloud.log := cloud.log + [ListRepositoriesCall(credentials.value)];
    var response := cloud.services.listRepositories(credentials.value);
    match response
    case Failure(e) =>
      r := Failure(e);
    case Success(None) =>
      r := Failure("No repositories found.");
    case Success(Some(entries)) =>
      r := Success(FilterRepositories(entries));
  }
}
