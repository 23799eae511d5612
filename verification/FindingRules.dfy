/** What folding a collection in does to a finding, in terms of the collected rows themselves. */
module FindingRules {
  import opened Common
  import opened FindingModel
  import opened Observation
  import opened FindingWorkflow
  import opened Findings
  import opened ReviewRules

  // ----- Which rows give findings, and of which kinds -----

  function SectionOf(kind: Kind): Section {
    match kind
    case Unused | UnusedService | EmptyGroup | Membership => Objects
    case ZeroHits | Disabled | Statistics => Rules
    case EmptyPolicy | PolicyInventory => Policies
    case TagUsage => Tags
  }

  function RowsFor(report: Report, kind: Kind): seq<Row> {
    match SectionOf(kind)
    case Objects => report.objects
    case Rules => report.rules
    case Policies => report.policies
    case Tags => report.tags
  }

  predicate CustomService(row: Row) {
    || Get(row, "kind") == Str("custom_service")
    || (Get(row, "path").Str?
        && ("/infra/services/" <= Get(row, "path").s || "/global-infra/services/" <= Get(row, "path").s))
  }

  /** The row at this path shows a condition of this kind. */
  predicate Indicates(row: Row, key: Key) {
    && key.path == (if Get(row, "path").Str? then Get(row, "path").s else "")
    && !Truthy(Get(row, "audit_exclusions"))
    && (key.kind in {Unused, UnusedService} ==>
          Get(row, "usage") == Str("unused_candidate") && (key.kind == UnusedService <==> CustomService(row)))
    && (key.kind == EmptyGroup ==> Get(row, "membership") == Str("empty"))
    && (key.kind == Membership ==> Get(row, "membership") == Str("unknown"))
    && (key.kind == ZeroHits ==> Get(row, "hit_status") == Str("zero_hits") && !Truthy(Get(row, "disabled")))
    && (key.kind == Disabled ==> Truthy(Get(row, "disabled")))
    && (key.kind == Statistics ==> Get(row, "hit_status") == Str("unknown"))
    && (key.kind == EmptyPolicy ==> Get(row, "status") == Str("empty"))
    && (key.kind in {PolicyInventory, TagUsage} ==> Get(row, "status") == Str("unknown"))
  }

  /** The first row of its section that shows it, with the fields kept as evidence. */
  predicate FirstOf(rows: seq<Row>, key: Key, candidate: Candidate) {
    && candidate.key == key && candidate.evidence == EvidenceOf(candidate.row)
    && exists i | 0 <= i < |rows| :: rows[i] == candidate.row && Indicates(rows[i], key)
                                     && forall j | 0 <= j < i :: !Indicates(rows[j], key)
  }

  lemma {:induction false} FirstOfBoth(first: seq<Candidate>, second: seq<Candidate>, n: nat, key: Key)
    requires n <= |second|
    ensures var both := first + second;
            FirstCandidate(both, |first| + n, key) ==
              var found := FirstCandidate(first, |first|, key);
              if found.Some? then found else FirstCandidate(second, n, key)
  {
    if n == 0 {
      SameStart(first, first + second, |first|, key);
    } else {
      FirstOfBoth(first, second, n - 1, key);
    }
  }

  lemma {:induction false} SameStart(first: seq<Candidate>, longer: seq<Candidate>, n: nat, key: Key)
    requires n <= |first| && first <= longer
    ensures FirstCandidate(longer, n, key) == FirstCandidate(first, n, key)
  {
    if n > 0 {
      SameStart(first, longer, n - 1, key);
    }
  }

  function Found(candidates: seq<Candidate>, key: Key): Option<Candidate> {
    FirstCandidate(candidates, |candidates|, key)
  }

  lemma {:induction false} RowFinds(row: Row, kinds: seq<Kind>, key: Key)
    ensures var found := Found(CandidatesOfRow(row, kinds), key);
            found == if key.kind in kinds && Applies(key.kind, row) && key.path == PathOf(row)
                     then Some(Candidate(key, EvidenceOf(row), row)) else None
  {
    hide Applies, EvidenceOf;
    if kinds != [] {
      var head := if Applies(kinds[0], row) then [Candidate(Key(kinds[0], PathOf(row)), EvidenceOf(row), row)] else [];
      RowFinds(row, kinds[1..], key);
      FirstOfBoth(head, CandidatesOfRow(row, kinds[1..]), |CandidatesOfRow(row, kinds[1..])|, key);
    }
  }

  lemma KindsInSection(key: Key, row: Row)
    ensures forall section: Section :: key.kind in KindsOf(section) <==> section == SectionOf(key.kind)
    ensures Applies(key.kind, row) && key.path == PathOf(row) && !Truthy(Get(row, "audit_exclusions")) <==> Indicates(row, key)
  {
  }

  function CandidatesOfHead(row: Row, section: Section): seq<Candidate> {
    if Truthy(Get(row, "audit_exclusions")) then [] else CandidatesOfRow(row, KindsOf(section))
  }

  lemma HeadFinds(row: Row, section: Section, key: Key)
    ensures Found(CandidatesOfHead(row, section), key) ==
              if section == SectionOf(key.kind) && Indicates(row, key) then Some(Candidate(key, EvidenceOf(row), row)) else None
  {
    hide Applies, EvidenceOf, Indicates, SectionOf, KindsOf;
    RowFinds(row, KindsOf(section), key);
    KindsInSection(key, row);
  }

  /** Looking at one more row in front changes what comes first only when that row shows the condition. */
  lemma FirstWithHead(rows: seq<Row>, key: Key, candidate: Candidate)
    requires rows != [] && candidate.key == key && candidate.evidence == EvidenceOf(candidate.row)
    requires if Indicates(rows[0], key) then candidate.row == rows[0] else FirstOf(rows[1..], key, candidate)
    ensures FirstOf(rows, key, candidate)
  {
    hide EvidenceOf, Indicates;
    if !Indicates(rows[0], key) {
      var rest := rows[1..];
      var i :| 0 <= i < |rest| && rest[i] == candidate.row && Indicates(rest[i], key)
               && forall j | 0 <= j < i :: !Indicates(rest[j], key);
      assert rows[i + 1] == rest[i];
      forall j | 0 <= j < i + 1
        ensures !Indicates(rows[j], key)
      {
        assert j > 0 ==> rows[j] == rest[j - 1];
      }
    }
  }

  lemma {:induction false} RowsFind(rows: seq<Row>, section: Section, key: Key)
    ensures var found := Found(CandidatesOfRows(rows, section), key);
            && (found.Some? ==> SectionOf(key.kind) == section && FirstOf(rows, key, found.value))
            && (found == None && SectionOf(key.kind) == section ==> forall i | 0 <= i < |rows| :: !Indicates(rows[i], key))
  {
    hide Applies, EvidenceOf, Indicates, SectionOf, KindsOf, CandidatesOfRow;
    if rows != [] {
      var head, rest := CandidatesOfHead(rows[0], section), CandidatesOfRows(rows[1..], section);
      assert CandidatesOfRows(rows, section) == head + rest;
      HeadFinds(rows[0], section, key);
      RowsFind(rows[1..], section, key);
      FirstOfBoth(head, rest, |rest|, key);
      var found := Found(head + rest, key);
      if found.Some? {
        HoldsItsKey(rows[1..], key, Found(rest, key));
        FirstWithHead(rows, key, found.value);
      }
    }
  }

  lemma HoldsItsKey(rows: seq<Row>, key: Key, found: Option<Candidate>)
    requires found.Some? ==> FirstOf(rows, key, found.value)
    ensures found.Some? ==> found.value.key == key && found.value.evidence == EvidenceOf(found.value.row)
  {
  }

  /** A key has a candidate exactly when a row of its section shows the condition; the first such row counts. */
  lemma CandidateIff(report: Report, key: Key)
    ensures var found, rows := CandidateFor(report, key), RowsFor(report, key.kind);
            && (found.Some? <==> exists i | 0 <= i < |rows| :: Indicates(rows[i], key))
            && (found.Some? ==> FirstOf(rows, key, found.value))
  {
    hide Indicates, CandidatesOfRows, SectionOf, FirstOf;
    var a, b := CandidatesOfRows(report.objects, Objects), CandidatesOfRows(report.rules, Rules);
    var c, d := CandidatesOfRows(report.policies, Policies), CandidatesOfRows(report.tags, Tags);
    RowsFind(report.objects, Objects, key);
    RowsFind(report.rules, Rules, key);
    RowsFind(report.policies, Policies, key);
    RowsFind(report.tags, Tags, key);
    FirstOfBoth(a, b, |b|, key);
    FirstOfBoth(a + b, c, |c|, key);
    FirstOfBoth(a + b + c, d, |d|, key);
    assert Candidates(report) == a + b + c + d;
    var found := CandidateFor(report, key);
    if found.Some? {
      FirstIsIndicated(RowsFor(report, key.kind), key, found.value);
    }
  }

  lemma FirstIsIndicated(rows: seq<Row>, key: Key, candidate: Candidate)
    requires FirstOf(rows, key, candidate)
    ensures exists i | 0 <= i < |rows| :: Indicates(rows[i], key)
  {
    hide Indicates;
  }

  /** The fields of a row kept as evidence: identity, configuration and condition, not counters or times. */
  lemma EvidenceKeeps(row: Row, field: string)
    ensures Get(EvidenceOf(row), field) ==
              if field in {"configuration", "configuration_fingerprint", "unique_id", "created_at", "rule_id", "policy_rule_id",
                           "action", "disabled", "source_groups", "destination_groups", "services", "scope", "membership",
                           "membership_definition", "usage", "referenced_by", "hit_status", "statistics_source", "status",
                           "rule_count", "vm_usage", "group_usage", "group_conditions", "group_assignments", "other_assignments"}
              then Get(row, field) else Null
  {
  }

  // ----- Objects this application deleted -----

  /** An object at a deleted path that cannot be told from the deleted one is ignored altogether. */
  lemma DeletedStaysDeleted(before: map<Key, FindingRow>, after: map<Key, FindingRow>, c: Collection, key: Key)
    requires Keyed(before) && !UpToDate(before, c) && Synchronized(before, after, c)
    requires !Affects(c.report.issues, key) && CandidateFor(c.report, key).Some? && key.path in c.deleted
    requires var evidence := CandidateFor(c.report, key).value.evidence;
             || !Truthy(Get(evidence, "unique_id")) || Get(evidence, "created_at") == Null
             || (Get(evidence, "unique_id"), Get(evidence, "created_at")) in c.deleted[key.path]
    ensures Lookup(after, key) == Lookup(before, key)
  {
    hide Affects, CandidateFor, Observed, Created, Missing, Paused;
    assert Lookup(after, key) == Folded(Lookup(before, key), key, c);
  }

  /** A new object at a deleted path is observed like any other, and its review starts over. */
  lemma RecreatedIsObserved(before: map<Key, FindingRow>, after: map<Key, FindingRow>, c: Collection, key: Key)
    requires Keyed(before) && !UpToDate(before, c) && Synchronized(before, after, c)
    requires !Affects(c.report.issues, key) && CandidateFor(c.report, key).Some? && key.path in c.deleted
    requires var evidence := CandidateFor(c.report, key).value.evidence;
             && Truthy(Get(evidence, "unique_id")) && Get(evidence, "created_at") != Null
             && (Get(evidence, "unique_id"), Get(evidence, "created_at")) !in c.deleted[key.path]
    ensures IsObserved(before, after, c, key)
    ensures key in before && before[key].review.state == Decommissioned
            && (|| Get(before[key].evidence, "unique_id") != Get(after[key].evidence, "unique_id")
                || Get(before[key].evidence, "created_at") != Get(after[key].evidence, "created_at")) ==>
              && after[key].review.state == (if before[key].review.owner.Some? then OwnerReview else Unassigned)
              && after[key].review.approvals == NO_APPROVALS && after[key].review.ticket == ""
  {
    hide Affects, CandidateFor, Advanced, CheckOf, Accepted, CoverageDiffers, ReviewFingerprintOf, SourceRow;
    assert Lookup(after, key) == Folded(Lookup(before, key), key, c);
  }

  /** The finding is present with the evidence of the collection, and new if there was none. */
  predicate IsObserved(before: map<Key, FindingRow>, after: map<Key, FindingRow>, c: Collection, key: Key) {
    && key in after && after[key].key == key && after[key].present && after[key].snapshot == Some(c.id)
    && after[key].lastSeen == c.stamp && CandidateFor(c.report, key).Some?
    && after[key].evidence == CandidateFor(c.report, key).value.evidence
    && (key !in before ==> after[key].revision == 0 && after[key].review.state == Unassigned
                           && after[key].review.approvals == NO_APPROVALS && after[key].review.owner == None)
    && (key in before ==> after[key].revision == before[key].revision + 1 && after[key].review.owner == before[key].review.owner)
  }

  /** Away from deleted paths every candidate is observed. */
  lemma CandidateIsObserved(before: map<Key, FindingRow>, after: map<Key, FindingRow>, c: Collection, key: Key)
    requires Keyed(before) && !UpToDate(before, c) && Synchronized(before, after, c)
    requires !Affects(c.report.issues, key) && CandidateFor(c.report, key).Some? && key.path !in c.deleted
    ensures IsObserved(before, after, c, key)
  {
    hide Affects, CandidateFor, Advanced, CheckOf, Accepted, CoverageDiffers, ReviewFingerprintOf, SourceRow;
    assert Lookup(after, key) == Folded(Lookup(before, key), key, c);
  }

  // ----- Evidence in doubt, and objects not found -----

  /** An issue concerns the findings of its kinds: at its path, everywhere when it has none, and always those
      about tags. */
  lemma AffectsIff(issues: seq<Issue>, key: Key)
    ensures Affects(issues, key) <==>
              exists k | 0 <= k < |issues| ::
                key.kind in issues[k].kinds && (issues[k].path in {"", key.path} || key.kind == TagUsage)
  {
    if Affects(issues, key) {
      var i :| i in issues && key.kind in i.kinds && (i.path == "" || i.path == key.path || key.kind == TagUsage);
      var k :| 0 <= k < |issues| && issues[k] == i;
    }
  }

  /** Two known values that differ. */
  predicate KnownToDiffer(before: Json, after: Json) {
    before != Null && after != Null && before != after
  }

  /** While its evidence is in doubt a finding keeps everything but, if the object is known to have changed, its
      approvals. */
  lemma DoubtKeepsFinding(before: map<Key, FindingRow>, after: map<Key, FindingRow>, c: Collection, key: Key)
    requires Keyed(before) && !UpToDate(before, c) && Synchronized(before, after, c)
    requires Affects(c.report.issues, key)
    ensures key in after <==> key in before
    ensures key in before ==>
              var now := RowOrEmpty(SourceRow(c.report, key.path));
              var was := before[key].evidence;
              var changed := || KnownToDiffer(Get(was, "unique_id"), Get(now, "unique_id"))
                             || KnownToDiffer(Get(was, "created_at"), Get(now, "created_at"))
                             || (Truthy(Get(was, "configuration")) && Truthy(Get(now, "configuration"))
                                 && Get(was, "configuration") != Get(now, "configuration"));
              && after[key] == before[key].(review := after[key].review, revision := after[key].revision)
              && (!changed ==> after[key] == before[key])
              && (changed ==> && after[key].revision == before[key].revision + 1
                              && after[key].review.state !in {SecondReview, Ready})
              && (changed && before[key].review.state in {SecondReview, Ready} ==>
                    && after[key].review.approvals == NO_APPROVALS
                    && after[key].review.events
                       == before[key].review.events + [Invalidated(ChangedWhilePaused, before[key].review.approvals)])
  {
    hide Affects, CandidateFor, SourceRow, Observed, Created, Missing;
    assert Lookup(after, key) == Folded(Lookup(before, key), key, c);
  }

  /** The row shows the opposite of the condition. */
  predicate Refutes(row: Row, kind: Kind) {
    && !Truthy(Get(row, "audit_exclusions"))
    && (|| (kind == EmptyGroup && Get(row, "membership") in {Str("non_empty"), Str("nonempty")})
        || (kind in {Unused, UnusedService} && Get(row, "usage") == Str("referenced"))
        || (kind == ZeroHits && Get(row, "hit_status") == Str("traffic_recorded"))
        || (kind == Disabled && Get(row, "disabled") == Bool(false))
        || (kind == EmptyPolicy && (match Get(row, "rule_count") case Num(n) => n > 0 case Bool(b) => b case _ => false)))
  }

  /** A finding without candidate is no longer present or observed. It counts as cleared exactly when its object is
      listed with the opposite of the condition, and keeps no approval. */
  lemma NotFoundIsMissing(before: map<Key, FindingRow>, after: map<Key, FindingRow>, c: Collection, key: Key)
    requires Keyed(before) && !UpToDate(before, c) && Synchronized(before, after, c)
    requires !Affects(c.report.issues, key) && CandidateFor(c.report, key) == None
    ensures key in after <==> key in before
    ensures key in before ==>
              && !after[key].present && after[key].snapshot == Some(c.id)
              && after[key].revision == before[key].revision + 1
              && after[key].evidence == before[key].evidence && after[key].lastSeen == before[key].lastSeen
              && after[key].watch == Watch(
                   if Refutes(RowOrEmpty(SourceRow(c.report, key.path)), key.kind) then Cleared else Insufficient,
                   None, 0, 0, before[key].watch.requiredDays, None, before[key].watch.signature)
              && after[key].review.owner == before[key].review.owner
              && (before[key].review.state in {SecondReview, Ready} ==>
                    && after[key].review.approvals == NO_APPROVALS
                    && after[key].review.state == (if before[key].review.owner.Some? then OwnerReview else Unassigned)
                    && after[key].review.events
                       == before[key].review.events + [Invalidated(NotObserved, before[key].review.approvals)])
              && (before[key].review.state !in {SecondReview, Ready} ==> after[key].review == before[key].review)
  {
    hide Affects, CandidateFor, SourceRow, Observed, Created, Paused;
    assert Lookup(after, key) == Folded(Lookup(before, key), key, c);
  }

  // ----- Reviews under fresh evidence -----

  /** Nothing but how counters were fetched differs. */
  ghost predicate SameEvidence(before: Row, after: Row) {
    forall key | key != "statistics_source" ::
      (key in before <==> key in after) && (key in before ==> before[key] == after[key])
  }

  /** A finding observed again keeps its review exactly when it was present with the same evidence, was approved for
      the same search, is supported by the row found under its path, and is still eligible; otherwise its approvals
      are withdrawn, and archived with the first reason that applies. */
  lemma ApprovalsSurviveIff(before: map<Key, FindingRow>, after: map<Key, FindingRow>, c: Collection, key: Key)
    requires Keyed(before) && !UpToDate(before, c) && Synchronized(before, after, c)
    requires !Affects(c.report.issues, key) && CandidateFor(c.report, key).Some? && key.path !in c.deleted
    requires key in before && before[key].review.state in {SecondReview, Ready}
    ensures key in after
    ensures var was, now, row := before[key], after[key], SourceRow(c.report, key.path);
            var kept := && was.present && SameEvidence(was.evidence, now.evidence)
                        && CoverageKept(was, c.report.searchCoverage)
                        && row.Some? && Evident(key.kind, row.value, c.report.searchCoverage, c.stamp, c.interval)
                        && now.watch.qualification == Eligible;
            && now.review.owner == was.review.owner && now.review.required == was.review.required
            && (kept ==> now.review == was.review)
            && (!kept ==>
                  && now.review.approvals == NO_APPROVALS
                  && now.review.state == (if was.review.owner.Some? then OwnerReview else Unassigned)
                  && var reason :=
                       if !was.present || !SameEvidence(was.evidence, now.evidence) then EvidenceChanged
                       else if !CoverageKept(was, c.report.searchCoverage) then CoverageChanged
                       else if row == None || !Evident(key.kind, row.value, c.report.searchCoverage, c.stamp, c.interval)
                       then EvidenceRejected else NoLongerQualifies;
                     now.review.events == was.review.events + [Invalidated(reason, was.review.approvals)])
  {
    hide Affects, CandidateFor, Advanced, CheckOf, SourceRow, Evident, TypeLimited, TypesIn, EvidenceSupports,
         CoverageDiffers, ReviewFingerprintOf;
    assert Lookup(after, key) == Folded(Lookup(before, key), key, c);
    var was, evidence, search := before[key], CandidateFor(c.report, key).value.evidence, c.report.searchCoverage;
    FingerprintIff(key.kind, key.kind, evidence, was.evidence);
    var row := SourceRow(c.report, key.path);
    SupportsIff(key.kind, row, search, c.stamp, c.interval);
    if key.kind in {Unused, UnusedService} && was.review.approvals.owner.Some? {
      CoverageDiffersIff(key.kind, was.review.approvals, search);
    } else {
      CoverageMattersOnlyToUnused(key.kind, was.review.approvals, search);
    }
    CoverageMattersOnlyToUnused(key.kind, NO_APPROVALS, search);
  }

  // ----- What interrupts an observation -----

  /** The gap allowed between checks is the configured one or, without one, a day or two sync intervals. */
  lemma AllowedGapIs(policy: FindingPolicy, interval: nat)
    ensures policy.maximumGapHours > 0 ==> AllowedGap(policy, interval) == policy.maximumGapHours * 60 * MINUTE
    ensures policy.maximumGapHours == 0 ==>
              && AllowedGap(policy, interval) >= 24 * HOUR && AllowedGap(policy, interval) >= 2 * interval * MINUTE
              && AllowedGap(policy, interval) in {24 * HOUR, 2 * interval * MINUTE}
  {
  }

  /** A rule counts as observed without hits only by an explicit zero, read since it was last seen (unless the
      observation starts over), not after the collection and not longer before it than the gap allowed. */
  lemma FreshZeroIff(check: Check, lastSeen: Time)
    ensures FreshZero(check, lastSeen) <==>
              && Get(check.row, "hit_count") in {Num(0), Bool(false)}
              && Get(check.row, "statistics_checked_at").Stamp?
              && var read := Get(check.row, "statistics_checked_at").t;
                 && read <= check.stamp && check.stamp - read <= AllowedGap(check.policy, check.interval)
                 && (read <= lastSeen ==> check.reset)
  {
  }

  /** Six kinds have a waiting period, each its own, and these are the ones recalculated. */
  lemma WaitingPeriods(policy: FindingPolicy, kind: Kind)
    ensures DaysFor(policy, kind) ==
              if kind == ZeroHits then Some(policy.zeroHitsDays)
              else if kind == EmptyGroup then Some(policy.emptyGroupDays)
              else if kind == Unused then Some(policy.unusedDays)
              else if kind == UnusedService then Some(policy.unusedServiceDays)
              else if kind == EmptyPolicy then Some(policy.emptyPolicyDays)
              else if kind == Disabled then Some(policy.disabledDays)
              else None
    ensures Replayable(kind) <==> DaysFor(policy, kind).Some?
  {
  }

  /** The fields whose change starts a new observation of this kind. */
  predicate Identifying(kind: Kind, field: string) {
    || field in {"unique_id", "created_at", "rule_id", "policy_rule_id"}
    || (field == "configuration" && kind in {Unused, UnusedService, ZeroHits, Disabled, EmptyPolicy})
    || (field in {"configuration_fingerprint", "action", "source_groups", "destination_groups", "services", "scope"}
        && kind in {ZeroHits, Disabled})
    || (field == "disabled" && kind == ZeroHits)
    || (field == "membership_definition" && kind == EmptyGroup)
  }

  /** Of a membership definition only the definition itself counts. */
  function Essence(field: string, value: Json): Json {
    if field == "membership_definition" && value.Dict? && "definition" in value.fields then value.fields["definition"] else value
  }

  /** The condition is the same exactly when all these fields are. */
  lemma ConditionIff(kind: Kind, before: Row, after: Row)
    ensures ConditionFingerprint(kind, before) == ConditionFingerprint(kind, after) <==>
              forall field | Identifying(kind, field) ::
                (field in before <==> field in after)
                && (field in before ==> Essence(field, before[field]) == Essence(field, after[field]))
  {
    hide ConditionFingerprint, Identifying, Essence;
    var a, b := ConditionFingerprint(kind, before), ConditionFingerprint(kind, after);
    forall field
      ensures field in a <==> field in before && Identifying(kind, field)
      ensures field in b <==> field in after && Identifying(kind, field)
      ensures field in a ==> a[field] == Essence(field, before[field])
      ensures field in b ==> b[field] == Essence(field, after[field])
    {
      ConditionAt(kind, before, field);
      ConditionAt(kind, after, field);
    }
    if forall field | Identifying(kind, field) ::
         (field in before <==> field in after)
         && (field in before ==> Essence(field, before[field]) == Essence(field, after[field])) {
      assert a == b;
    }
    if a == b {
      forall field | Identifying(kind, field)
        ensures (field in before <==> field in after)
                && (field in before ==> Essence(field, before[field]) == Essence(field, after[field]))
      {
        assert field in a <==> field in before;
        assert field in b <==> field in after;
      }
    }
  }

  lemma ConditionAt(kind: Kind, row: Row, field: string)
    ensures var condition := ConditionFingerprint(kind, row);
            && (field in condition <==> field in row && Identifying(kind, field))
            && (field in condition ==> condition[field] == Essence(field, row[field]))
  {
    hide Identifying;
    KeysIdentify(kind, field);
    hide ConditionKeys;
  }

  lemma KeysIdentify(kind: Kind, field: string)
    ensures field in ConditionKeys(kind) <==> Identifying(kind, field)
  {
    match kind
    case EmptyGroup =>
    case Unused =>
    case UnusedService =>
    case ZeroHits =>
    case Disabled =>
    case EmptyPolicy =>
    case _ =>
  }
}
