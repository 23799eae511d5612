/** Folding one saved collection into the persistent findings of an environment. */
module Findings {
  import opened Common
  import opened FindingModel
  import opened Observation
  import opened FindingWorkflow

  /** An incomplete part of a collection: the kinds, and possibly the one path, it casts doubt on. */
  datatype Issue = Issue(kinds: set<Kind>, path: Path)

  predicate Affects(issues: seq<Issue>, key: Key) {
    exists i | i in issues :: key.kind in i.kinds && (i.path == "" || i.path == key.path || key.kind == TagUsage)
  }

  datatype Report = Report(
    objects: seq<Row>,
    rules: seq<Row>,
    policies: seq<Row>,
    tags: seq<Row>,
    searchCoverage: Json,
    issues: seq<Issue>)

  function PathOf(row: Row): Path {
    if Get(row, "path").Str? then Get(row, "path").s else ""
  }

  predicate HasPrefix(s: string, prefix: string) {
    prefix <= s
  }

  predicate IsService(row: Row) {
    || Get(row, "kind") == Str("custom_service")
    || HasPrefix(PathOf(row), "/infra/services/")
    || HasPrefix(PathOf(row), "/global-infra/services/")
  }

  datatype Section = Objects | Rules | Policies | Tags

  function KindsOf(section: Section): seq<Kind> {
    match section
    case Objects => [Unused, UnusedService, EmptyGroup, Membership]
    case Rules => [ZeroHits, Disabled, Statistics]
    case Policies => [EmptyPolicy, PolicyInventory]
    case Tags => [TagUsage]
  }

  predicate Applies(kind: Kind, row: Row) {
    match kind
    case Unused => Get(row, "usage") == Str("unused_candidate") && !IsService(row)
    case UnusedService => Get(row, "usage") == Str("unused_candidate") && IsService(row)
    case EmptyGroup => Get(row, "membership") == Str("empty")
    case Membership => Get(row, "membership") == Str("unknown")
    case ZeroHits => Get(row, "hit_status") == Str("zero_hits") && !Truthy(Get(row, "disabled"))
    case Disabled => Truthy(Get(row, "disabled"))
    case Statistics => Get(row, "hit_status") == Str("unknown")
    case EmptyPolicy => Get(row, "status") == Str("empty")
    case PolicyInventory => Get(row, "status") == Str("unknown")
    case TagUsage => Get(row, "status") == Str("unknown")
  }

  const EVIDENCE_KEYS := {
    "configuration", "configuration_fingerprint", "unique_id", "created_at",
    "rule_id", "policy_rule_id", "action", "disabled", "source_groups", "destination_groups",
    "services", "scope", "membership", "membership_definition", "usage", "referenced_by",
    "hit_status", "statistics_source", "status", "rule_count", "vm_usage", "group_usage", "group_conditions",
    "group_assignments", "other_assignments"}

  function EvidenceOf(row: Row): Row {
    map key | key in EVIDENCE_KEYS && key in row :: row[key]
  }

  datatype Candidate = Candidate(key: Key, evidence: Row, row: Row)

  function CandidatesOfRow(row: Row, kinds: seq<Kind>): seq<Candidate> {
    if kinds == [] then []
    else
      (if Applies(kinds[0], row) then [Candidate(Key(kinds[0], PathOf(row)), EvidenceOf(row), row)] else [])
      + CandidatesOfRow(row, kinds[1..])
  }

  function CandidatesOfRows(rows: seq<Row>, section: Section): seq<Candidate> {
    if rows == [] then []
    else
      (if Truthy(Get(rows[0], "audit_exclusions")) then [] else CandidatesOfRow(rows[0], KindsOf(section)))
      + CandidatesOfRows(rows[1..], section)
  }

  function Candidates(report: Report): seq<Candidate> {
    CandidatesOfRows(report.objects, Objects) + CandidatesOfRows(report.rules, Rules)
    + CandidatesOfRows(report.policies, Policies) + CandidatesOfRows(report.tags, Tags)
  }

  function RowsByPath(rows: seq<Row>): map<Path, Row> {
    if rows == [] then map[]
    else RowsByPath(rows[..|rows| - 1])[PathOf(rows[|rows| - 1]) := rows[|rows| - 1]]
  }

  function SourceRows(report: Report): map<Path, Row> {
    RowsByPath(report.objects + report.rules + report.policies)
  }

  function SourceRow(report: Report, path: Path): Option<Row> {
    if path in SourceRows(report) then Some(SourceRows(report)[path]) else None
  }

  function RowOrEmpty(row: Option<Row>): Row {
    if row.Some? then row.value else map[]
  }

  /** Identities of objects this application deleted; a path without a new identity stays superseded. */
  type DeletedIdentities = map<Path, set<(Json, Json)>>

  predicate Superseded(deleted: DeletedIdentities, path: Path, evidence: Row) {
    var id, created := Get(evidence, "unique_id"), Get(evidence, "created_at");
    path in deleted && (!Truthy(id) || created == Null || (id, created) in deleted[path])
  }

  /** One full collection together with the settings in force when it is folded in. */
  datatype Collection = Collection(
    id: SnapshotId,
    stamp: Time,
    report: Report,
    policy: FindingPolicy,
    interval: nat,
    approvals: ApprovalPolicy,
    deleted: DeletedIdentities)

  // ----- The effect on one finding -----

  /** A different object at the path of a decommissioned finding starts a new review. */
  predicate NewIdentity(finding: FindingRow, evidence: Row) {
    && finding.review.state == Decommissioned
    && Truthy(Get(evidence, "unique_id")) && Get(evidence, "created_at") != Null
    && (|| Get(evidence, "unique_id") != Get(finding.evidence, "unique_id")
        || Get(evidence, "created_at") != Get(finding.evidence, "created_at"))
  }

  function Reidentified(finding: FindingRow, evidence: Row): Review {
    if !NewIdentity(finding, evidence) then finding.review
    else finding.review.(state := RestartState(finding.review.owner), approvals := NO_APPROVALS, ticket := "")
  }

  predicate ReviewChanged(finding: FindingRow, evidence: Row) {
    || !finding.present
    || ReviewFingerprintOf(finding.key.kind, evidence) != ReviewFingerprintOf(finding.key.kind, finding.evidence)
  }

  function CheckOf(finding: FindingRow, evidence: Row, c: Collection): Check {
    Check(c.policy, c.interval, c.stamp,
          || ConditionFingerprint(finding.key.kind, evidence) != ConditionFingerprint(finding.key.kind, finding.evidence)
          || !finding.present,
          RowOrEmpty(SourceRow(c.report, finding.key.path)))
  }

  predicate Accepted(key: Key, c: Collection) {
    EvidenceSupports(key.kind, SourceRow(c.report, key.path), c.report.searchCoverage, c.stamp, c.interval)
  }

  function ObservedWatch(finding: FindingRow, evidence: Row, c: Collection): Watch {
    Advanced(finding.watch, finding.key.kind, finding.lastSeen, CheckOf(finding, evidence, c))
  }

  /** The review after the checks that precede the observation period. */
  function CheckedReview(finding: FindingRow, evidence: Row, c: Collection): Review {
    var renewed := Reidentified(finding, evidence);
    var kept := if ReviewChanged(finding, evidence) then Invalidate(renewed, EvidenceChanged) else renewed;
    if CoverageDiffers(finding.key.kind, kept.approvals, c.report.searchCoverage)
    then Invalidate(kept, CoverageChanged) else kept
  }

  function QualifiedReview(review: Review, accepted: bool, qualification: Qualification): Review {
    if !accepted then Invalidate(review, EvidenceRejected)
    else if qualification != Eligible then Invalidate(review, NoLongerQualifies)
    else review
  }

  function ObservedReview(finding: FindingRow, evidence: Row, c: Collection): Review {
    QualifiedReview(CheckedReview(finding, evidence, c), Accepted(finding.key, c),
                    ObservedWatch(finding, evidence, c).qualification)
  }

  function Observed(finding: FindingRow, evidence: Row, c: Collection): (row: FindingRow)
    ensures row.key == finding.key
  {
    FindingRow(finding.key, evidence, true, c.stamp, Some(c.id), finding.revision + 1,
               ObservedWatch(finding, evidence, c), ObservedReview(finding, evidence, c))
  }

  function NewFinding(key: Key, evidence: Row, c: Collection): FindingRow {
    FindingRow(key, evidence, true, c.stamp, Some(c.id), 0, UNWATCHED,
               Review(Unassigned, NO_APPROVALS, RequiredApprovals(key.kind, c.approvals), None, "", []))
  }

  function Created(key: Key, evidence: Row, c: Collection): FindingRow {
    var check := Check(c.policy, c.interval, c.stamp, true, RowOrEmpty(SourceRow(c.report, key.path)));
    NewFinding(key, evidence, c).(watch := Advanced(UNWATCHED, key.kind, c.stamp, check))
  }

  /** While verification is paused only a definite change of the object itself is acted on. */
  predicate ChangedWhilePausedBy(finding: FindingRow, row: Row) {
    || (Get(finding.evidence, "unique_id") != Null && Get(row, "unique_id") != Null
        && Get(finding.evidence, "unique_id") != Get(row, "unique_id"))
    || (Get(finding.evidence, "created_at") != Null && Get(row, "created_at") != Null
        && Get(finding.evidence, "created_at") != Get(row, "created_at"))
    || (Truthy(Get(finding.evidence, "configuration")) && Truthy(Get(row, "configuration"))
        && Get(finding.evidence, "configuration") != Get(row, "configuration"))
  }

  function Paused(finding: FindingRow, c: Collection): (row: FindingRow)
    ensures row.key == finding.key
  {
    if ChangedWhilePausedBy(finding, RowOrEmpty(SourceRow(c.report, finding.key.path)))
    then finding.(review := Invalidate(finding.review, ChangedWhilePaused), revision := finding.revision + 1)
    else finding
  }

  function Missing(finding: FindingRow, c: Collection): (row: FindingRow)
    ensures row.key == finding.key
  {
    finding.(review := Invalidate(finding.review, NotObserved),
             watch := Lapsed(finding.watch, finding.key.kind, RowOrEmpty(SourceRow(c.report, finding.key.path))),
             present := false, snapshot := Some(c.id), revision := finding.revision + 1)
  }

  /** The first of the leading n candidates with this key. */
  function FirstCandidate(candidates: seq<Candidate>, n: nat, key: Key): Option<Candidate>
    requires n <= |candidates|
  {
    if n == 0 then None
    else if FirstCandidate(candidates, n - 1, key).Some? then FirstCandidate(candidates, n - 1, key)
    else if candidates[n - 1].key == key then Some(candidates[n - 1])
    else None
  }

  function CandidateFor(report: Report, key: Key): Option<Candidate> {
    FirstCandidate(Candidates(report), |Candidates(report)|, key)
  }

  predicate Evaluates(candidate: Option<Candidate>, key: Key, c: Collection) {
    candidate.Some? && !Superseded(c.deleted, key.path, candidate.value.evidence) && !Affects(c.report.issues, key)
  }

  function AfterCandidates(finding: Option<FindingRow>, candidate: Option<Candidate>, key: Key, c: Collection):
      (after: Option<FindingRow>)
    ensures finding.Some? ==> after.Some?
    ensures finding.Some? && finding.value.key == key && after.Some? ==> after.value.key == key
    ensures finding == None && after.Some? ==> after.value.key == key
  {
    if !Evaluates(candidate, key, c) then finding
    else if finding.Some? then Some(Observed(finding.value, candidate.value.evidence, c))
    else Some(Created(key, candidate.value.evidence, c))
  }

  function AfterExisting(before: Option<FindingRow>, current: Option<FindingRow>, seen: bool, key: Key, c: Collection):
      Option<FindingRow>
  {
    if before == None || current == None then current
    else if Affects(c.report.issues, key) then Some(Paused(current.value, c))
    else if seen then current
    else Some(Missing(current.value, c))
  }

  /** What folding in collection c makes of one finding (or of its absence). */
  function Folded(finding: Option<FindingRow>, key: Key, c: Collection): Option<FindingRow> {
    var candidate := CandidateFor(c.report, key);
    AfterExisting(finding, AfterCandidates(finding, candidate, key, c), candidate.Some?, key, c)
  }

  function Lookup(findings: map<Key, FindingRow>, key: Key): Option<FindingRow> {
    if key in findings then Some(findings[key]) else None
  }

  predicate Keyed(findings: map<Key, FindingRow>) {
    forall key | key in findings :: findings[key].key == key
  }

  /** Nothing to do: every finding already reflects this collection. */
  predicate UpToDate(findings: map<Key, FindingRow>, c: Collection) {
    findings != map[] && forall key | key in findings :: findings[key].snapshot == Some(c.id)
  }

  /** The relation between the findings before and after one call of Synchronize. */
  ghost predicate Synchronized(before: map<Key, FindingRow>, after: map<Key, FindingRow>, c: Collection) {
    if UpToDate(before, c) then after == before
    else forall key :: Lookup(after, key) == Folded(Lookup(before, key), key, c)
  }

  class Environment {
    var findings: map<Key, FindingRow>

    constructor ()
      ensures findings == map[]
    {
      findings := map[];
    }

    method Synchronize(c: Collection)
      requires Keyed(findings)
      modifies this
      ensures Keyed(findings)
      ensures Synchronized(old(findings), findings, c)
    {
      if UpToDate(findings, c) {
        return;
      }
      hide Affects, CandidateFor, Folded, AfterCandidates;
      var existing := findings;
      var seen := FoldCandidates(c);
      FoldExisting(existing, seen, c);
    }

    /** First pass: the first candidate of each finding counts, unless its evidence is in doubt. */
    method FoldCandidates(c: Collection) returns (seen: set<Key>)
      requires Keyed(findings)
      modifies this
      ensures Keyed(findings)
      ensures forall key :: !Affects(c.report.issues, key) ==> (key in seen <==> CandidateFor(c.report, key).Some?)
      ensures forall key :: Lookup(findings, key)
                == AfterCandidates(Lookup(old(findings), key), CandidateFor(c.report, key), key, c)
    {
      hide Affects, Superseded, Candidates, Observed, Created;
      var existing := findings;
      var candidates := Candidates(c.report);
      seen := {};
      for i := 0 to |candidates|
        invariant Keyed(findings)
        invariant forall key :: !Affects(c.report.issues, key) ==>
                    (key in seen <==> FirstCandidate(candidates, i, key).Some?)
        invariant forall key :: Lookup(findings, key)
                    == AfterCandidates(Lookup(existing, key), FirstCandidate(candidates, i, key), key, c)
      {
        var key := candidates[i].key;
        if Superseded(c.deleted, key.path, candidates[i].evidence) {
          seen := seen + {key};
        } else if Affects(c.report.issues, key) {
          // Keep prior decisions and observations; never count uncertain evidence.
        } else if key !in seen {
          seen := seen + {key};
          var row := FoldCandidate(Lookup(existing, key), candidates[i], c);
          findings := findings[key := row];
        }
      }
    }

    /** Second pass: paused findings and findings that were not observed. */
    method FoldExisting(existing: map<Key, FindingRow>, seen: set<Key>, c: Collection)
      requires Keyed(findings) && Keyed(existing)
      requires forall key :: Lookup(findings, key)
                 == AfterCandidates(Lookup(existing, key), CandidateFor(c.report, key), key, c)
      requires forall key :: !Affects(c.report.issues, key) ==> (key in seen <==> CandidateFor(c.report, key).Some?)
      modifies this
      ensures Keyed(findings)
      ensures forall key :: Lookup(findings, key) == Folded(Lookup(existing, key), key, c)
    {
      hide AfterCandidates, Affects, CandidateFor, Paused, Missing;
      var remaining := existing.Keys;
      ghost var before := findings;
      while remaining != {}
        invariant remaining <= existing.Keys
        invariant Keyed(findings)
        invariant forall key :: Lookup(findings, key) ==
                    if key in remaining then Lookup(before, key) else Folded(Lookup(existing, key), key, c)
      {
        var key :| key in remaining;
        assert Lookup(findings, key) == Lookup(before, key);
        assert Lookup(existing, key).Some?;
        var row := FoldExistingRow(findings[key], key in seen, c);
        assert Some(row) == Folded(Lookup(existing, key), key, c);
        findings := findings[key := row];
        remaining := remaining - {key};
      }
    }
  }

  method FoldCandidate(finding: Option<FindingRow>, candidate: Candidate, c: Collection) returns (row: FindingRow)
    requires finding.Some? ==> finding.value.key == candidate.key
    requires Evaluates(Some(candidate), candidate.key, c)
    ensures Some(row) == AfterCandidates(finding, Some(candidate), candidate.key, c)
  {
    hide Observed, Advanced, SourceRow, Superseded, Affects;
    var key, evidence := candidate.key, candidate.evidence;
    if finding == None {
      var created := new Finding.Load(NewFinding(key, evidence, c));
      Advance(created, Check(c.policy, c.interval, c.stamp, true, RowOrEmpty(SourceRow(c.report, key.path))));
      row := created.Row();
    } else {
      var loaded := new Finding.Load(finding.value);
      Observe(loaded, evidence, c);
      row := loaded.Row();
    }
  }

  method FoldExistingRow(finding: FindingRow, seen: bool, c: Collection) returns (row: FindingRow)
    ensures Some(row) == AfterExisting(Some(finding), Some(finding), seen, finding.key, c)
  {
    hide Affects, SourceRow, Paused, Missing;
    if Affects(c.report.issues, finding.key) {
      row := FoldPaused(finding, c);
    } else if seen {
      row := finding;
    } else {
      row := FoldMissing(finding, c);
    }
  }

  method FoldPaused(finding: FindingRow, c: Collection) returns (row: FindingRow)
    ensures row == Paused(finding, c)
  {
    hide ChangedWhilePausedBy, SourceRow;
    var loaded := new Finding.Load(finding);
    if ChangedWhilePausedBy(finding, RowOrEmpty(SourceRow(c.report, finding.key.path))) {
      InvalidateFinding(loaded, ChangedWhilePaused);
      loaded.revision := loaded.revision + 1;
    }
    row := loaded.Row();
  }

  method FoldMissing(finding: FindingRow, c: Collection) returns (row: FindingRow)
    ensures row == Missing(finding, c)
  {
    hide Lapsed, Invalidate, SourceRow;
    var loaded := new Finding.Load(finding);
    InvalidateFinding(loaded, NotObserved);
    Absent(loaded, RowOrEmpty(SourceRow(c.report, finding.key.path)));
    MarkMissing(loaded, c);
    row := loaded.Row();
  }

  method MarkMissing(finding: Finding, c: Collection)
    modifies finding`present, finding`snapshot, finding`revision
    ensures finding.Row() == old(finding.Row()).(present := false, snapshot := Some(c.id),
                                                 revision := old(finding.revision) + 1)
  {
    finding.present, finding.snapshot, finding.revision := false, Some(c.id), finding.revision + 1;
  }

  /** Folds fresh evidence into an existing finding. */
  method Observe(finding: Finding, evidence: Row, c: Collection)
    modifies finding
    ensures finding.Row() == Observed(old(finding.Row()), evidence, c)
  {
    hide Advanced, CheckedReview, QualifiedReview, CheckOf, Accepted;
    ghost var before := finding.Row();
    var check := CheckOf(finding.Row(), evidence, c);
    CheckReview(finding, evidence, c);
    Advance(finding, check);
    assert finding.WatchFields() == ObservedWatch(before, evidence, c);
    QualifyReview(finding, Accepted(finding.key, c));
    SaveEvidence(finding, evidence, c);
  }

  method SaveEvidence(finding: Finding, evidence: Row, c: Collection)
    modifies finding`present, finding`evidence, finding`lastSeen, finding`snapshot, finding`revision
    ensures finding.present && finding.evidence == evidence && finding.lastSeen == c.stamp && finding.snapshot == Some(c.id)
    ensures finding.revision == old(finding.revision) + 1
  {
    finding.present := true;
    finding.evidence := evidence;
    finding.lastSeen := c.stamp;
    finding.snapshot := Some(c.id);
    finding.revision := finding.revision + 1;
  }

  method CheckReview(finding: Finding, evidence: Row, c: Collection)
    modifies finding`workflowState, finding`approvals, finding`changeTicket, finding`events
    ensures finding.ReviewFields() == CheckedReview(old(finding.Row()), evidence, c)
  {
    var row := finding.Row();
    if NewIdentity(row, evidence) {
      finding.workflowState := RestartState(finding.owner);
      finding.approvals := NO_APPROVALS;
      finding.changeTicket := "";
    }
    assert finding.ReviewFields() == Reidentified(row, evidence);
    if ReviewChanged(row, evidence) {
      InvalidateFinding(finding, EvidenceChanged);
    }
    if CoverageDiffers(finding.key.kind, finding.approvals, c.report.searchCoverage) {
      InvalidateFinding(finding, CoverageChanged);
    }
  }

  method QualifyReview(finding: Finding, accepted: bool)
    modifies finding`workflowState, finding`approvals, finding`events
    ensures finding.ReviewFields() == QualifiedReview(old(finding.ReviewFields()), accepted, finding.qualification)
  {
    if !accepted {
      InvalidateFinding(finding, EvidenceRejected);
    } else if finding.qualification != Eligible {
      InvalidateFinding(finding, NoLongerQualifies);
    }
  }
}
