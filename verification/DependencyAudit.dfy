/** The dependency audit of src/dependencyAudit.ts: a depth-first search over a report whose
    references may form cycles, and the evaluation against reviewed exceptions. */
module DependencyAudit {
  import opened Prelude

  datatype Severity = Info | Low | Moderate | High | Critical

  function Rank(s: Severity): nat {
    match s
    case Info => 0
    case Low => 1
    case Moderate => 2
    case High => 3
    case Critical => 4
  }

  predicate IsHigh(s: Severity) { s.High? || s.Critical? }

  /** One entry of `via`: a reference to another record, an advisory, or neither. Fields that
      the report leaves out or gives another type are None. */
  datatype Via =
    | Reference(name: string)
    | Advisory(url: Option<string>, dependency: Option<string>, severity: Option<Severity>, title: Option<string>)
    | Unreadable

  /** A vulnerability record as read; via is None when it is not a list. */
  datatype Vulnerability = Vulnerability(name: Option<string>, severity: Option<Severity>, via: Option<seq<Via>>)

  /** The records by name, and their names in key order. */
  datatype Report = Report(order: seq<string>, records: map<string, Vulnerability>)

  ghost predicate Listed(r: Report)
  {
    && (forall name :: name in r.records <==> name in r.order)
    && (forall i, j :: 0 <= i < j < |r.order| ==> r.order[i] != r.order[j])
  }

  /** Findings are keyed by advisory and package; the key text is taken to be unambiguous. */
  datatype FindingKey = FindingKey(findingId: string, package: string)

  datatype Finding = Finding(severity: Severity, title: string)

  type Findings = map<FindingKey, Finding>

  function ViaOf(r: Report, name: string): seq<Via> {
    if name in r.records && r.records[name].via.Some? then r.records[name].via.value else []
  }

  /** An advisory that is evidence of a high or critical vulnerability. */
  predicate Qualifies(v: Via) {
    v.Advisory? && v.url.Some? && v.dependency.Some? && v.severity.Some? && IsHigh(v.severity.value)
  }

  function RankOf(v: Via): nat { if v.Advisory? && v.severity.Some? then Rank(v.severity.value) else 0 }

  function KeyOf(v: Via): FindingKey {
    if v.Advisory? && v.url.Some? && v.dependency.Some? then FindingKey(v.url.value, v.dependency.value)
    else FindingKey("", "")
  }

  // ------------------------------------------------------------------ reachability

  ghost predicate Edge(r: Report, a: string, b: string) { Reference(b) in ViaOf(r, a) }

  ghost predicate Path(r: Report, p: seq<string>)
  {
    |p| > 0 && forall i :: 0 <= i < |p| - 1 ==> Edge(r, p[i], p[i + 1])
  }

  ghost predicate Joins(r: Report, p: seq<string>, a: string, b: string)
  {
    Path(r, p) && p[0] == a && p[|p| - 1] == b
  }

  ghost predicate Reaches(r: Report, a: string, b: string) { exists p :: Joins(r, p, a, b) }

  lemma ReachesSelf(r: Report, a: string)
    ensures Reaches(r, a, a)
  {
    assert Joins(r, [a], a, a);
  }

  lemma ReachesThrough(r: Report, a: string, b: string, c: string)
    requires Edge(r, a, b) && Reaches(r, b, c)
    ensures Reaches(r, a, c)
  {
    var p :| Joins(r, p, b, c);
    var q := [a] + p;
    assert forall i :: 0 < i < |q| ==> q[i] == p[i - 1];
    assert Joins(r, q, a, c);
  }

  ghost predicate ClosedUnder(r: Report, inner: set<string>, outer: set<string>)
  {
    forall a, b :: a in inner && Edge(r, a, b) ==> b in outer
  }

  /** A closed set contains everything reachable from its members. */
  lemma {:induction false} ClosedContains(r: Report, nodes: set<string>, p: seq<string>, k: nat)
    requires ClosedUnder(r, nodes, nodes) && Path(r, p) && p[0] in nodes && k < |p|
    ensures p[k] in nodes
  {
    if k > 0 {
      ClosedContains(r, nodes, p, k - 1);
      assert Edge(r, p[k - 1], p[k]);
    }
  }

  // --------------------------------------------------------------------- evidence

  ghost function Evidence(r: Report, nodes: set<string>): set<Via>
  {
    set n, v | n in nodes && v in ViaOf(r, n) && Qualifies(v) :: v
  }

  /** The largest rank among the advisories, -1 when there are none. */
  ghost predicate IsMaxRank(rank: int, evidence: set<Via>)
  {
    && -1 <= rank
    && (forall v :: v in evidence ==> RankOf(v) <= rank)
    && (rank > -1 ==> exists v :: v in evidence && RankOf(v) == rank)
  }

  /** Every advisory is retained with at least its severity. */
  ghost predicate Covers(f: Findings, evidence: set<Via>)
  {
    forall v :: v in evidence ==> KeyOf(v) in f && RankOf(v) <= Rank(f[KeyOf(v)].severity)
  }

  ghost predicate Raises(before: Findings, after: Findings)
  {
    forall k :: k in before ==> k in after && Rank(before[k].severity) <= Rank(after[k].severity)
  }

  /** The finding repeats an advisory of the report, or a high record itself. */
  ghost predicate Witnessed(r: Report, k: FindingKey, severity: Severity)
  {
    || (exists n, v :: v in ViaOf(r, n) && Qualifies(v) && KeyOf(v) == k && v.severity.value == severity)
    || (exists name :: IsHighRecord(r, name) && PackageKey(name) == k && r.records[name].severity.value == severity)
  }

  ghost predicate Grounded(r: Report, f: Findings)
  {
    forall k :: k in f ==> Witnessed(r, k, f[k].severity)
  }

  function PackageKey(name: string): FindingKey { FindingKey("package:" + name, name) }

  predicate IsHighRecord(r: Report, name: string) {
    name in r.records && r.records[name].severity.Some? && IsHigh(r.records[name].severity.value)
  }

  /** The source's retainFinding: keep the first finding of the highest severity. */
  function Retain(f: Findings, key: FindingKey, finding: Finding): (f': Findings)
    ensures Raises(f, f') && key in f' && Rank(finding.severity) <= Rank(f'[key].severity)
  {
    if key !in f || Rank(finding.severity) > Rank(f[key].severity) then f[key := finding] else f
  }

  function AdvisoryFinding(v: Via): Finding
    requires Qualifies(v)
  {
    Finding(v.severity.value, if v.title.Some? then v.title.value else v.url.value)
  }

  // ----------------------------------------------------------------------- search

  /** What a (nested) search adds: the nodes it visited first, closed and reachable; their
      highest rank; their advisories retained. */
  ghost predicate Searched(r: Report, name: string, visited: set<string>, visited': set<string>,
                           rank: int, findings: Findings, findings': Findings)
  {
    var added := visited' - visited;
    && visited <= visited' && name in visited'
    && (forall n :: n in added ==> Reaches(r, name, n))
    && ClosedUnder(r, added, visited')
    && IsMaxRank(rank, Evidence(r, added))
    && Covers(findings', Evidence(r, added))
    && Raises(findings, findings')
    && (Grounded(r, findings) ==> Grounded(r, findings'))
  }

  /** Where the loop over a record's entries stands. */
  ghost predicate Scanned(r: Report, name: string, i: nat, visited: set<string>, seen: set<string>,
                          rank: int, findings: Findings, findings': Findings)
    requires i <= |ViaOf(r, name)|
  {
    var children := seen - visited - {name};
    && visited + {name} <= seen
    && (forall n :: n in children ==> Reaches(r, name, n))
    && ClosedUnder(r, children, seen)
    && (forall b :: Reference(b) in ViaOf(r, name)[..i] ==> b in seen)
    && IsMaxRank(rank, Evidence(r, children) + Entries(ViaOf(r, name)[..i]))
    && Covers(findings', Evidence(r, children) + Entries(ViaOf(r, name)[..i]))
    && Raises(findings, findings')
    && (Grounded(r, findings) ==> Grounded(r, findings'))
  }

  ghost function Entries(vs: seq<Via>): set<Via> { set v | v in vs && Qualifies(v) }

  lemma EntriesStep(vs: seq<Via>, i: nat)
    requires i < |vs|
    ensures Entries(vs[..i + 1]) == Entries(vs[..i]) + (if Qualifies(vs[i]) then {vs[i]} else {})
    ensures forall v :: v in vs[..i + 1] <==> v in vs[..i] || v == vs[i]
  {
    assert vs[..i + 1] == vs[..i] + [vs[i]];
  }

  lemma MaxOfUnion(r1: int, e1: set<Via>, r2: int, e2: set<Via>)
    requires IsMaxRank(r1, e1) && IsMaxRank(r2, e2)
    ensures IsMaxRank(Max(r1, r2), e1 + e2)
  {
  }

  lemma CoversUnion(f1: Findings, e1: set<Via>, f2: Findings, e2: set<Via>)
    requires Covers(f1, e1) && Covers(f2, e2) && Raises(f1, f2)
    ensures Covers(f2, e1 + e2)
  {
  }

  lemma EvidenceUnion(r: Report, a: set<string>, b: set<string>)
    ensures Evidence(r, a + b) == Evidence(r, a) + Evidence(r, b)
  {
  }

  lemma ReachesBeyond(r: Report, name: string, child: string, nodes: set<string>)
    requires Edge(r, name, child) && forall n :: n in nodes ==> Reaches(r, child, n)
    ensures forall n :: n in nodes ==> Reaches(r, name, n)
  {
    forall n | n in nodes
      ensures Reaches(r, name, n)
    {
      ReachesThrough(r, name, child, n);
    }
  }

  lemma ClosedUnion(r: Report, a: set<string>, outerA: set<string>, b: set<string>, outerB: set<string>)
    requires ClosedUnder(r, a, outerA) && ClosedUnder(r, b, outerB) && outerA <= outerB
    ensures ClosedUnder(r, a + b, outerB)
  {
  }

  lemma EntriesSkip(vs: seq<Via>, i: nat)
    requires i < |vs| && !Qualifies(vs[i])
    ensures Entries(vs[..i + 1]) == Entries(vs[..i])
    ensures forall v :: v in vs[..i + 1] <==> v in vs[..i] || v == vs[i]
  {
    EntriesStep(vs, i);
  }

  lemma Reassociate(a: set<Via>, b: set<Via>, c: set<Via>)
    ensures (a + b) + c == (a + c) + b
  {
  }

  lemma SplitFresh(visited: set<string>, name: string, seen: set<string>, seen': set<string>)
    requires visited + {name} <= seen <= seen'
    ensures seen' - visited - {name} == (seen - visited - {name}) + (seen' - seen)
  {
  }

  /** A nested search joins the scan. */
  lemma ScanReference(r: Report, name: string, i: nat, visited: set<string>, seen: set<string>, seen': set<string>,
                      rank: int, nested: int, f0: Findings, f1: Findings, f2: Findings)
    requires i < |ViaOf(r, name)| && ViaOf(r, name)[i].Reference?
    requires Scanned(r, name, i, visited, seen, rank, f0, f1)
    requires Searched(r, ViaOf(r, name)[i].name, seen, seen', nested, f1, f2)
    requires name !in visited
    ensures Scanned(r, name, i + 1, visited, seen', Max(rank, nested), f0, f2)
  {
    var child := ViaOf(r, name)[i].name;
    var kept, added := seen - visited - {name}, seen' - seen;
    var here := Entries(ViaOf(r, name)[..i]);
    assert Edge(r, name, child);
    ReachesBeyond(r, name, child, added);
    EntriesSkip(ViaOf(r, name), i);
    hide Grounded, Covers, Raises, IsMaxRank, Reaches, Evidence, Entries, ClosedUnder, Edge, ViaOf;
    CoversUnion(f1, Evidence(r, kept) + here, f2, Evidence(r, added));
    RaisesTransitive(f0, f1, f2);
    MaxOfUnion(rank, Evidence(r, kept) + here, nested, Evidence(r, added));
    ClosedUnion(r, kept, seen, added, seen');
    SplitFresh(visited, name, seen, seen');
    EvidenceUnion(r, kept, added);
    Reassociate(Evidence(r, kept), here, Evidence(r, added));
  }

  lemma RetainGrounded(r: Report, name: string, v: Via, f: Findings)
    requires v in ViaOf(r, name) && Qualifies(v)
    ensures Grounded(r, f) ==> Grounded(r, Retain(f, KeyOf(v), AdvisoryFinding(v)))
  {
    assert Witnessed(r, KeyOf(v), v.severity.value);
  }

  lemma RetainCovers(f: Findings, v: Via, evidence: set<Via>)
    requires Qualifies(v) && Covers(f, evidence)
    ensures Covers(Retain(f, KeyOf(v), AdvisoryFinding(v)), evidence + {v})
  {
  }

  lemma RaisesTransitive(a: Findings, b: Findings, c: Findings)
    requires Raises(a, b) && Raises(b, c)
    ensures Raises(a, c)
  {
  }

  /** An advisory joins the scan. */
  lemma ScanAdvisory(r: Report, name: string, i: nat, visited: set<string>, seen: set<string>,
                     rank: int, f0: Findings, f1: Findings)
    requires i < |ViaOf(r, name)| && Qualifies(ViaOf(r, name)[i])
    requires Scanned(r, name, i, visited, seen, rank, f0, f1)
    ensures var v := ViaOf(r, name)[i];
            Scanned(r, name, i + 1, visited, seen, Max(rank, RankOf(v)),
                    f0, Retain(f1, KeyOf(v), AdvisoryFinding(v)))
  {
    var v := ViaOf(r, name)[i];
    var before := Evidence(r, seen - visited - {name}) + Entries(ViaOf(r, name)[..i]);
    EntriesStep(ViaOf(r, name), i);
    assert Evidence(r, seen - visited - {name}) + Entries(ViaOf(r, name)[..i + 1]) == before + {v};
    assert IsMaxRank(RankOf(v), {v});
    RetainGrounded(r, name, v, f1);
    RetainCovers(f1, v, before);
    RaisesTransitive(f0, f1, Retain(f1, KeyOf(v), AdvisoryFinding(v)));
    hide Grounded, Retain, Covers, Raises, IsMaxRank, Evidence, Entries, Reaches;
    MaxOfUnion(rank, before, RankOf(v), {v});
  }

  /** A finished scan is a search. */
  lemma ScanDone(r: Report, name: string, visited: set<string>, seen: set<string>,
                 rank: int, f0: Findings, f1: Findings)
    requires name !in visited
    requires Scanned(r, name, |ViaOf(r, name)|, visited, seen, rank, f0, f1)
    ensures Searched(r, name, visited, seen, rank, f0, f1)
  {
    var children := seen - visited - {name};
    var added := seen - visited;
    assert added == children + {name};
    assert ViaOf(r, name)[..|ViaOf(r, name)|] == ViaOf(r, name);
    assert Evidence(r, added) == Evidence(r, children) + Entries(ViaOf(r, name));
    ReachesSelf(r, name);
    assert ClosedUnder(r, added, seen);
  }

  /** The recursive search with its shared visited set. */
  method ReachableHighAdvisories(r: Report, name: string, visited: set<string>, findings: Findings)
    returns (rank: int, visited': set<string>, findings': Findings)
    ensures Searched(r, name, visited, visited', rank, findings, findings')
    decreases r.records.Keys - visited
  {
    if name in visited {
      assert Evidence(r, visited - visited) == {};
      return -1, visited, findings;
    }
    visited', findings', rank := visited + {name}, findings, -1;
    assert visited' - visited - {name} == {};
    assert Evidence(r, {}) == {} && Entries(ViaOf(r, name)[..0]) == {};
    if name !in r.records {
      ScanDone(r, name, visited, visited', rank, findings, findings');
      return;
    }
    var vs := ViaOf(r, name);
    for i := 0 to |vs|
      invariant visited + {name} <= visited'
      invariant Scanned(r, name, i, visited, visited', rank, findings, findings')
    {
      match vs[i]
      case Reference(child) =>
        var nested, seen, more := ReachableHighAdvisories(r, child, visited', findings');
        ScanReference(r, name, i, visited, visited', seen, rank, nested, findings, findings', more);
        rank, visited', findings' := Max(rank, nested), seen, more;
      case Advisory(_, _, _, _) =>
        if Qualifies(vs[i]) {
          ScanAdvisory(r, name, i, visited, visited', rank, findings, findings');
          findings' := Retain(findings', KeyOf(vs[i]), AdvisoryFinding(vs[i]));
          rank := Max(rank, RankOf(vs[i]));
        } else {
          EntriesStep(vs, i);
        }
      case Unreadable => EntriesStep(vs, i);
    }
    ScanDone(r, name, visited, visited', rank, findings, findings');
  }

  /** Called for a root, the search returns the highest rank of all high or critical
      advisories reachable from it, through any cycles, or -1. */
  lemma SearchIsMaximum(r: Report, root: string, visited: set<string>, rank: int, f: Findings, f': Findings)
    requires Searched(r, root, {}, visited, rank, f, f')
    ensures forall n, v :: Reaches(r, root, n) && v in ViaOf(r, n) && Qualifies(v) ==> RankOf(v) <= rank
    ensures rank == -1 || exists n, v :: Reaches(r, root, n) && v in ViaOf(r, n) && Qualifies(v) && RankOf(v) == rank
    ensures forall n, v :: Reaches(r, root, n) && v in ViaOf(r, n) && Qualifies(v) ==> v in Evidence(r, visited)
  {
    assert visited - {} == visited;
    forall n, v | Reaches(r, root, n) && v in ViaOf(r, n) && Qualifies(v)
      ensures v in Evidence(r, visited)
    {
      var p :| Joins(r, p, root, n);
      ClosedContains(r, visited, p, |p| - 1);
    }
    if rank > -1 {
      var v :| v in Evidence(r, visited) && RankOf(v) == rank;
      var n :| n in visited && v in ViaOf(r, n) && Qualifies(v);
      assert Reaches(r, root, n);
    }
  }

  // --------------------------------------------------------------------- findings

  /** The record's own severity is accounted for by what is reachable, or by a finding of its own. */
  ghost predicate Accounted(r: Report, name: string, f: Findings)
    requires name in r.records && r.records[name].severity.Some?
  {
    var rank := Rank(r.records[name].severity.value);
    || (exists n, v :: Reaches(r, name, n) && v in ViaOf(r, n) && Qualifies(v) && RankOf(v) >= rank)
    || (PackageKey(name) in f && Rank(f[PackageKey(name)].severity) >= rank)
  }

  ghost predicate Complete(r: Report, names: set<string>, f: Findings)
  {
    && Covers(f, Evidence(r, names))
    && forall name :: name in names && IsHighRecord(r, name) ==> Accounted(r, name, f)
  }

  /** Higher findings stay complete. */
  lemma CompleteRaised(r: Report, names: set<string>, f: Findings, f': Findings)
    requires Complete(r, names, f) && Raises(f, f')
    ensures Complete(r, names, f')
  {
    forall name | name in names && IsHighRecord(r, name)
      ensures Accounted(r, name, f')
    {
      assert Accounted(r, name, f);
    }
  }

  lemma CompleteStep(r: Report, names: set<string>, name: string, visited: set<string>, rank: int,
                     f: Findings, f': Findings, f'': Findings)
    requires Complete(r, names, f) && Searched(r, name, {}, visited, rank, f, f') && Raises(f', f'')
    requires IsHighRecord(r, name) && rank < Rank(r.records[name].severity.value) ==>
               PackageKey(name) in f'' && Rank(f''[PackageKey(name)].severity) >= Rank(r.records[name].severity.value)
    ensures Complete(r, names + {name}, f'')
  {
    SearchIsMaximum(r, name, visited, rank, f, f');
    RaisesTransitive(f, f', f'');
    CompleteRaised(r, names, f, f'');
    assert visited - {} == visited;
    assert Evidence(r, names + {name}) == Evidence(r, names) + Evidence(r, {name});
    assert Evidence(r, {name}) <= Evidence(r, visited);
  }

  /** Search from every record and keep what the reachable advisories do not account for. */
  method CollectFindings(r: Report) returns (findings: Findings)
    requires Listed(r)
    ensures Complete(r, r.records.Keys, findings)
    ensures Grounded(r, findings)
  {
    findings := map[];
    ghost var done: set<string> := {};
    assert Evidence(r, {}) == {};
    for i := 0 to |r.order|
      invariant done == set name | name in r.order[..i]
      invariant Complete(r, done, findings) && Grounded(r, findings)
    {
      var name := r.order[i];
      ghost var before := findings;
      var rank, visited, found := ReachableHighAdvisories(r, name, {}, findings);
      findings := found;
      if IsHighRecord(r, name) && rank < Rank(r.records[name].severity.value) {
        assert Witnessed(r, PackageKey(name), r.records[name].severity.value);
        findings := Retain(findings, PackageKey(name), Finding(r.records[name].severity.value, "unresolved"));
      }
      CompleteStep(r, done, name, visited, rank, before, found, findings);
      assert r.order[..i + 1] == r.order[..i] + [name];
      done := done + {name};
    }
    assert r.order[..|r.order|] == r.order;
    assert done == r.records.Keys;
  }

  // ------------------------------------------------------------------- validation

  /** Declared counts by severity; a count of another type is None. */
  datatype Declared = Declared(
    info: Option<nat>, low: Option<nat>, moderate: Option<nat>, high: Option<nat>, critical: Option<nat>, total: Option<nat>)

  /** report is None when `vulnerabilities` is not an object. */
  datatype RawReport = Unsupported | Supported(report: Option<Report>, declared: Declared)

  datatype AuditError =
    | UnsupportedReport | NotAnObject | MalformedRecord(name: string) | MalformedEvidence(name: string)
    | UnresolvedReference(name: string) | InconsistentSeverity(name: string) | MalformedCounts | WrongCounts
    | BaselineMismatch | MissingEvidence | DuplicateException(key: FindingKey) | ExpiredException(key: FindingKey)
    | StaleException(key: FindingKey) | UncoveredFinding(key: FindingKey) | CommandFailed

  predicate GoodEntry(v: Via) {
    || (v.Reference? && v.name != "")
    || (v.Advisory? && v.url.Some? && v.url.value != "" && v.dependency.Some? && v.dependency.value != ""
        && v.severity.Some?)
  }

  predicate GoodRecord(name: string, record: Vulnerability) {
    record.name == Some(name) && record.severity.Some? && record.via.Some?
    && forall i :: 0 <= i < |record.via.value| ==> GoodEntry(record.via.value[i])
  }

  function NestedSeverity(r: Report, v: Via): Option<Severity> {
    match v
    case Reference(name) => if name in r.records then r.records[name].severity else None
    case Advisory(_, _, severity, _) => severity
    case Unreadable => None
  }

  /** Nothing a record rests on is more severe than the record. */
  predicate Consistent(r: Report, record: Vulnerability) {
    record.severity.Some? && record.via.Some? ==>
      forall i :: 0 <= i < |record.via.value| ==>
        var nested := NestedSeverity(r, record.via.value[i]);
        if nested.None? then !record.via.value[i].Reference?
        else Rank(nested.value) <= Rank(record.severity.value)
  }

  ghost predicate WellFormed(r: Report)
  {
    forall name :: name in r.records ==> GoodRecord(name, r.records[name]) && Consistent(r, r.records[name])
  }

  method CheckRecord(name: string, record: Vulnerability) returns (errors: seq<AuditError>)
    ensures errors == [] <==> GoodRecord(name, record)
  {
    if record.name != Some(name) || record.severity.None? || record.via.None? {
      return [MalformedRecord(name)];
    }
    for i := 0 to |record.via.value|
      invariant forall j :: 0 <= j < i ==> GoodEntry(record.via.value[j])
    {
      if !GoodEntry(record.via.value[i]) {
        return [MalformedEvidence(name)];
      }
    }
    return [];
  }

  method CheckConsistency(r: Report, name: string, record: Vulnerability) returns (errors: seq<AuditError>)
    ensures errors == [] <==> Consistent(r, record)
  {
    errors := [];
    if record.severity.None? || record.via.None? {
      return;
    }
    for i := 0 to |record.via.value|
      invariant errors == [] <==> forall j :: 0 <= j < i ==>
        var nested := NestedSeverity(r, record.via.value[j]);
        if nested.None? then !record.via.value[j].Reference?
        else Rank(nested.value) <= Rank(record.severity.value)
    {
      var nested := NestedSeverity(r, record.via.value[i]);
      if nested.None? {
        if record.via.value[i].Reference? {
          errors := errors + [UnresolvedReference(name)];
        }
      } else if Rank(nested.value) > Rank(record.severity.value) {
        errors := errors + [InconsistentSeverity(name)];
        return;
      }
    }
  }

  /** How many of the named records carry a severity. */
  function Having(r: Report, names: seq<string>, severity: Severity): nat
  {
    if names == [] then 0
    else
      var name := names[|names| - 1];
      Having(r, names[..|names| - 1], severity)
      + (if name in r.records && r.records[name].severity == Some(severity) then 1 else 0)
  }

  method CountSeverity(r: Report, severity: Severity) returns (n: nat)
    ensures n == Having(r, r.order, severity)
  {
    n := 0;
    for i := 0 to |r.order|
      invariant n == Having(r, r.order[..i], severity)
    {
      assert r.order[..i + 1][..i] == r.order[..i];
      if r.order[i] in r.records && r.records[r.order[i]].severity == Some(severity) {
        n := n + 1;
      }
    }
    assert r.order[..|r.order|] == r.order;
  }

  ghost predicate CountsMatch(r: Report, d: Declared)
  {
    && d.info == Some(Having(r, r.order, Info)) && d.low == Some(Having(r, r.order, Low))
    && d.moderate == Some(Having(r, r.order, Moderate)) && d.high == Some(Having(r, r.order, High))
    && d.critical == Some(Having(r, r.order, Critical)) && d.total == Some(|r.order|)
  }

  method ValidateAuditReport(r: Report, d: Declared) returns (errors: seq<AuditError>)
    requires Listed(r)
    ensures errors == [] <==> WellFormed(r) && CountsMatch(r, d)
  {
    errors := [];
    for i := 0 to |r.order|
      invariant errors == [] <==> forall j :: 0 <= j < i ==> GoodRecord(r.order[j], r.records[r.order[j]])
    {
      var more := CheckRecord(r.order[i], r.records[r.order[i]]);
      errors := errors + more;
    }
    ghost var good := errors == [];
    for i := 0 to |r.order|
      invariant errors == [] <==> good && forall j :: 0 <= j < i ==> Consistent(r, r.records[r.order[j]])
    {
      var more := CheckConsistency(r, r.order[i], r.records[r.order[i]]);
      errors := errors + more;
    }
    assert errors == [] <==> WellFormed(r);
    if d.info.None? || d.low.None? || d.moderate.None? || d.high.None? || d.critical.None? || d.total.None? {
      return errors + [MalformedCounts];
    }
    var info := CountSeverity(r, Info);
    var low := CountSeverity(r, Low);
    var moderate := CountSeverity(r, Moderate);
    var high := CountSeverity(r, High);
    var critical := CountSeverity(r, Critical);
    if Declared(Some(info), Some(low), Some(moderate), Some(high), Some(critical), Some(|r.order|)) != d {
      errors := errors + [WrongCounts];
    }
  }

  // ------------------------------------------------------------------- evaluation

  /** expiresAt is None when the expiry date does not parse. */
  datatype Exception = Exception(key: FindingKey, severity: Severity, expiresAt: Option<int>)

  datatype Evaluation = Evaluation(findings: Findings, excepted: seq<FindingKey>, errors: seq<AuditError>)

  const DAY_MS: int := 86400000

  function StartOfDay(now: int): int { now - now % DAY_MS }

  predicate Unexpired(e: Exception, now: int) { e.expiresAt.Some? && e.expiresAt.value >= StartOfDay(now) }

  predicate Matches(f: Findings, e: Exception) { e.key in f && f[e.key].severity == e.severity }

  /** The exceptions are distinct, unexpired, each used, and together cover every finding. */
  ghost predicate ExactlyExcepted(f: Findings, exceptions: seq<Exception>, now: int)
  {
    && (forall i, j :: 0 <= i < j < |exceptions| ==>
          exceptions[i].key != exceptions[j].key || exceptions[i].severity != exceptions[j].severity)
    && (forall i :: 0 <= i < |exceptions| ==> Unexpired(exceptions[i], now) && Matches(f, exceptions[i]))
    && (forall k :: k in f ==> Excused(f[k].severity, k, exceptions))
  }

  ghost predicate Excused(severity: Severity, k: FindingKey, exceptions: seq<Exception>)
  {
    exists i :: 0 <= i < |exceptions| && exceptions[i].key == k && exceptions[i].severity == severity
  }

  /** Check the exceptions against the findings, one by one. */
  method CheckExceptions(f: Findings, exceptions: seq<Exception>, now: int)
    returns (errors: seq<AuditError>, excepted: seq<FindingKey>, keys: set<(FindingKey, Severity)>)
    ensures forall k, s :: (k, s) in keys <==> Excused(s, k, exceptions)
    ensures errors == [] <==>
      && (forall i, j :: 0 <= i < j < |exceptions| ==>
            exceptions[i].key != exceptions[j].key || exceptions[i].severity != exceptions[j].severity)
      && (forall i :: 0 <= i < |exceptions| ==> Unexpired(exceptions[i], now) && Matches(f, exceptions[i]))
    ensures errors == [] ==> |excepted| == |exceptions|
  {
    errors, excepted, keys := [], [], {};
    for i := 0 to |exceptions|
      invariant forall k, s :: (k, s) in keys <==> exists j :: 0 <= j < i && exceptions[j].key == k && exceptions[j].severity == s
      invariant errors == [] <==>
        && (forall a, b :: 0 <= a < b < i ==>
              exceptions[a].key != exceptions[b].key || exceptions[a].severity != exceptions[b].severity)
        && (forall a :: 0 <= a < i ==> Unexpired(exceptions[a], now) && Matches(f, exceptions[a]))
      invariant errors == [] ==> |excepted| == i
    {
      var e := exceptions[i];
      if (e.key, e.severity) in keys {
        errors := errors + [DuplicateException(e.key)];
      }
      keys := keys + {(e.key, e.severity)};
      if !Unexpired(e, now) {
        errors := errors + [ExpiredException(e.key)];
      }
      if Matches(f, e) {
        excepted := excepted + [e.key];
      } else {
        errors := errors + [StaleException(e.key)];
      }
    }
  }

  /** Findings no exception names. */
  method Uncovered(f: Findings, keys: set<(FindingKey, Severity)>) returns (errors: seq<AuditError>)
    ensures errors == [] <==> forall k :: k in f ==> (k, f[k].severity) in keys
  {
    errors := [];
    var rest := f.Keys;
    while rest != {}
      invariant rest <= f.Keys
      invariant errors == [] <==> forall k :: k in f && k !in rest ==> (k, f[k].severity) in keys
      decreases rest
    {
      var k :| k in rest;
      if (k, f[k].severity) !in keys {
        errors := errors + [UncoveredFinding(k)];
      }
      rest := rest - {k};
    }
  }

  function Declares(count: Option<nat>): nat { if count.Some? then count.value else 0 }

  ghost predicate Acceptable(raw: RawReport, exceptions: seq<Exception>, baseline: bool, now: int,
                             exitCode: Option<int>, f: Findings)
    requires raw.Supported? && raw.report.Some? ==> Listed(raw.report.value)
  {
    && baseline
    && raw.Supported? && raw.report.Some?
    && WellFormed(raw.report.value) && CountsMatch(raw.report.value, raw.declared)
    && (Declares(raw.declared.high) > 0 || Declares(raw.declared.critical) > 0 ==> |f| > 0)
    && ExactlyExcepted(f, exceptions, now)
    && (exitCode == Some(0) || (exitCode == Some(1) && |f| > 0 && |exceptions| == |f|))
  }

  /** Validate, collect, and judge; no errors means that the audit passes. */
  method EvaluateDependencyAudit(raw: RawReport, exceptions: seq<Exception>, baseline: bool, now: int, exitCode: Option<int>)
    returns (evaluation: Evaluation)
    requires raw.Supported? && raw.report.Some? ==> Listed(raw.report.value)
    ensures evaluation.errors == [] <==> Acceptable(raw, exceptions, baseline, now, exitCode, evaluation.findings)
    ensures raw.Supported? && raw.report.Some? ==>
      Complete(raw.report.value, raw.report.value.records.Keys, evaluation.findings)
      && Grounded(raw.report.value, evaluation.findings)
  {
    hide Complete, Grounded, WellFormed, CountsMatch;
    var errors: seq<AuditError> := if baseline then [] else [BaselineMismatch];
    var findings: Findings := map[];
    var serious := false;
    if raw.Unsupported? {
      errors := errors + [UnsupportedReport];
    } else {
      serious := Declares(raw.declared.high) > 0 || Declares(raw.declared.critical) > 0;
      if raw.report.None? {
        errors := errors + [NotAnObject];
      } else {
        var more := ValidateAuditReport(raw.report.value, raw.declared);
        errors := errors + more;
        findings := CollectFindings(raw.report.value);
      }
    }
    if serious && |findings| == 0 {
      errors := errors + [MissingEvidence];
    }
    var wrong, excepted, keys := CheckExceptions(findings, exceptions, now);
    var bare := Uncovered(findings, keys);
    assert wrong + bare == [] <==> ExactlyExcepted(findings, exceptions, now);
    errors := errors + wrong + bare;
    if exitCode != Some(0)
       && !(exitCode == Some(1) && |findings| > 0 && |excepted| == |findings| && errors == []) {
      errors := errors + [CommandFailed];
    }
    return Evaluation(findings, excepted, errors);
  }

  // --------------------------------------------------------------- what passing means

  /** An unexpired exception for the key, of at least this rank. */
  ghost predicate Waived(exceptions: seq<Exception>, now: int, k: FindingKey, rank: nat)
  {
    exists i :: 0 <= i < |exceptions| && exceptions[i].key == k && Rank(exceptions[i].severity) >= rank
                && Unexpired(exceptions[i], now)
  }

  lemma FindingIsWaived(f: Findings, exceptions: seq<Exception>, now: int, k: FindingKey, rank: nat)
    requires ExactlyExcepted(f, exceptions, now) && k in f && rank <= Rank(f[k].severity)
    ensures Waived(exceptions, now, k, rank)
  {
    assert Excused(f[k].severity, k, exceptions);
  }

  /** A passing audit covers every high or critical advisory of the report by an unexpired
      exception of the severity retained for it. */
  lemma PassingCoversAdvisories(raw: RawReport, exceptions: seq<Exception>, baseline: bool, now: int,
                                exitCode: Option<int>, f: Findings, name: string, v: Via)
    requires raw.Supported? && raw.report.Some? ==> Listed(raw.report.value)
    requires Acceptable(raw, exceptions, baseline, now, exitCode, f)
    requires Complete(raw.report.value, raw.report.value.records.Keys, f)
    requires v in ViaOf(raw.report.value, name) && v.Advisory? && v.severity.Some? && IsHigh(v.severity.value)
    ensures Qualifies(v) && Waived(exceptions, now, KeyOf(v), Rank(v.severity.value))
  {
    var r := raw.report.value;
    assert GoodRecord(name, r.records[name]);
    assert GoodEntry(v);
    hide ExactlyExcepted, WellFormed, CountsMatch, GoodRecord;
    assert name in r.records.Keys && Qualifies(v);
    assert v in Evidence(r, r.records.Keys);
    FindingIsWaived(f, exceptions, now, KeyOf(v), Rank(v.severity.value));
  }

  /** And every high or critical record: by an exception for an advisory reachable from it, or
      for the package itself, of at least the record's severity. */
  lemma PassingCoversRecords(raw: RawReport, exceptions: seq<Exception>, baseline: bool, now: int,
                             exitCode: Option<int>, f: Findings, name: string)
    requires raw.Supported? && raw.report.Some? ==> Listed(raw.report.value)
    requires Acceptable(raw, exceptions, baseline, now, exitCode, f)
    requires Complete(raw.report.value, raw.report.value.records.Keys, f)
    requires IsHighRecord(raw.report.value, name)
    ensures var r := raw.report.value;
            var rank := Rank(r.records[name].severity.value);
            || Waived(exceptions, now, PackageKey(name), rank)
            || exists n, v :: Reaches(r, name, n) && v in ViaOf(r, n) && Qualifies(v)
                              && Waived(exceptions, now, KeyOf(v), rank)
  {
    var r := raw.report.value;
    var rank := Rank(r.records[name].severity.value);
    assert Accounted(r, name, f);
    if PackageKey(name) in f && Rank(f[PackageKey(name)].severity) >= rank {
      FindingIsWaived(f, exceptions, now, PackageKey(name), rank);
    } else {
      var n, v :| Reaches(r, name, n) && v in ViaOf(r, n) && Qualifies(v) && RankOf(v) >= rank;
      assert v in Evidence(r, r.records.Keys);
      FindingIsWaived(f, exceptions, now, KeyOf(v), rank);
    }
  }
}
