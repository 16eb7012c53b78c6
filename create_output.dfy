/** Bucketing the vulnerabilities of an audit report by severity. */
module CreateOutput {

  /**
   * One vulnerability of an audit report. The severity is a free string: the
   * report is parsed JSON, not restricted to the two severities the types name.
   */
  datatype Vuln = Vuln(name: string, severity: string, isDirect: bool)

  datatype MetadataVulnerabilities = MetadataVulnerabilities(
    info: int, low: int, moderate: int, high: int, critical: int, total: int)

  /** An audit report; `vulnerabilities` is the object's entries in iteration order. */
  datatype AuditReport = AuditReport(
    auditReportVersion: int,
    vulnerabilities: seq<(string, Vuln)>,
    metadata: MetadataVulnerabilities)

  /** Object keys are unique. */
  predicate DistinctKeys(entries: seq<(string, Vuln)>) {
    forall i, j :: 0 <= i < j < |entries| ==> entries[i].0 != entries[j].0
  }

  /** The keys of the entries with the given severity, in iteration order. */
  function KeysWithSeverity(entries: seq<(string, Vuln)>, severity: string): (r: seq<string>) {
    if entries == [] then []
    else
      var init := KeysWithSeverity(entries[..|entries| - 1], severity);
      var last := entries[|entries| - 1];
      if last.1.severity == severity then init + [last.0] else init
  }

  /**
   * `createOutput(input)`: the keys of the critical and of the high
   * vulnerabilities; any other severity lands in neither bucket.
   */
  method CreateOutput(input: AuditReport) returns (criticals: seq<string>, highs: seq<string>)
    requires DistinctKeys(input.vulnerabilities)
    ensures criticals == KeysWithSeverity(input.vulnerabilities, "critical")
    ensures highs == KeysWithSeverity(input.vulnerabilities, "high")
    ensures forall k :: k in criticals <==>
      exists i :: 0 <= i < |input.vulnerabilities| && input.vulnerabilities[i].0 == k
                  && input.vulnerabilities[i].1.severity == "critical"
    ensures forall k :: k in highs <==>
      exists i :: 0 <= i < |input.vulnerabilities| && input.vulnerabilities[i].0 == k
                  && input.vulnerabilities[i].1.severity == "high"
    ensures forall k :: !(k in criticals && k in highs)
    ensures |criticals| + |highs| <= |input.vulnerabilities|
  {
    var entries := input.vulnerabilities;
    criticals, highs := [], [];
    for i := 0 to |entries|
      invariant criticals == KeysWithSeverity(entries[..i], "critical")
      invariant highs == KeysWithSeverity(entries[..i], "high")
    {
      assert entries[..i + 1][..i] == entries[..i];
      var (key, val) := entries[i];
      if val.severity == "critical" {
        criticals := criticals + [key];
      }
      if val.severity == "high" {
        highs := highs + [key];
      }
    }
    assert entries[..|entries|] == entries;
    KeysWithSeverityMembership(entries, "critical");
    KeysWithSeverityMembership(entries, "high");
    BucketsDisjoint(entries);
    BucketSizes(entries);
  }

  /** A key is in a bucket exactly when some entry with that key has the bucket's severity. */
  lemma {:induction false} KeysWithSeverityMembership(entries: seq<(string, Vuln)>, severity: string)
    ensures forall k :: k in KeysWithSeverity(entries, severity) <==>
      exists i :: 0 <= i < |entries| && entries[i].0 == k && entries[i].1.severity == severity
  {
    if entries != [] {
      var init := entries[..|entries| - 1];
      KeysWithSeverityMembership(init, severity);
      assert forall i :: 0 <= i < |init| ==> init[i] == entries[i];
    }
  }

  /** With unique keys, no key is both critical and high. */
  lemma BucketsDisjoint(entries: seq<(string, Vuln)>)
    requires DistinctKeys(entries)
    ensures forall k :: !(k in KeysWithSeverity(entries, "critical") && k in KeysWithSeverity(entries, "high"))
  {
    KeysWithSeverityMembership(entries, "critical");
    KeysWithSeverityMembership(entries, "high");
  }

  /** The two buckets together hold at most one key per entry. */
  lemma {:induction false} BucketSizes(entries: seq<(string, Vuln)>)
    ensures |KeysWithSeverity(entries, "critical")| + |KeysWithSeverity(entries, "high")| <= |entries|
  {
    if entries != [] {
      BucketSizes(entries[..|entries| - 1]);
    }
  }

  /** The positions of the entries with the given severity, ascending. */
  function Positions(entries: seq<(string, Vuln)>, severity: string): (ps: seq<nat>)
    ensures forall p :: 0 <= p < |ps| ==> ps[p] < |entries|
  {
    if entries == [] then []
    else
      var init := Positions(entries[..|entries| - 1], severity);
      if entries[|entries| - 1].1.severity == severity then init + [|entries| - 1] else init
  }

  /**
   * A bucket keeps iteration order: its `p`-th key is the key of the `p`-th
   * matching entry, and the positions of the matching entries increase.
   */
  lemma {:induction false} BucketKeepsOrder(entries: seq<(string, Vuln)>, severity: string)
    ensures var ps := Positions(entries, severity);
      && |ps| == |KeysWithSeverity(entries, severity)|
      && (forall p, q :: 0 <= p < q < |ps| ==> ps[p] < ps[q])
      && (forall p :: 0 <= p < |ps| ==>
            KeysWithSeverity(entries, severity)[p] == entries[ps[p]].0 && entries[ps[p]].1.severity == severity)
  {
    if entries != [] {
      var init := entries[..|entries| - 1];
      BucketKeepsOrder(init, severity);
      assert forall i :: 0 <= i < |init| ==> init[i] == entries[i];
    }
  }
}
