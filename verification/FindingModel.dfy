/** Saved rows and value types shared by the finding lifecycle.

    Digests are modelled by the value that is hashed: SHA-256 over canonical JSON is taken to be
    injective, so two fingerprints are equal exactly when the hashed contents are. */
module FindingModel {
  import opened Common

  /** Instants and durations in microseconds. */
  type Time = int
  const MINUTE: Time := 60_000_000
  const HOUR: Time := 60 * MINUTE
  const DAY: Time := 24 * HOUR

  type Path = string
  type UserId = nat
  type SnapshotId = nat

  /** JSON as stored. `Stamp` stands for a string that parses as an instant with a time zone. */
  datatype Json =
    | Null
    | Bool(b: bool)
    | Num(n: int)
    | Str(s: string)
    | Stamp(t: Time)
    | List(items: seq<Json>)
    | Dict(fields: map<string, Json>)

  type Row = map<string, Json>

  function Get(row: Row, key: string): Json {
    if key in row then row[key] else Null
  }

  predicate Truthy(v: Json) {
    match v
    case Null => false
    case Bool(b) => b
    case Num(n) => n != 0
    case Str(s) => s != ""
    case Stamp(_) => true
    case List(items) => items != []
    case Dict(fields) => fields != map[]
  }

  /** Only absent, zero and empty values are not truthy. */
  lemma FalsyValues(v: Json)
    ensures !Truthy(v) <==> v in {Null, Bool(false), Num(0), Str(""), List([]), Dict(map[])}
  {
  }

  /** Python's `value == 0`, which also accepts False. */
  predicate EqualsZero(v: Json) {
    v == Num(0) || v == Bool(false)
  }

  datatype Kind =
    | ZeroHits | EmptyGroup | Unused | UnusedService | EmptyPolicy | Disabled
    | Membership | Statistics | PolicyInventory | TagUsage

  datatype Key = Key(kind: Kind, path: Path)

  datatype Qualification = Insufficient | Observing | Eligible | Cleared

  datatype PolicySignature = PolicySignature(days: nat, minimum: nat, gap: Time)

  /** The observation fields of a finding. */
  datatype Watch = Watch(
    qualification: Qualification,
    started: Option<Time>,
    count: nat,
    days: nat,
    requiredDays: nat,
    qualifiedAt: Option<Time>,
    signature: Option<PolicySignature>)

  const UNWATCHED := Watch(Insufficient, None, 0, 0, 0, None, None)

  datatype ReviewFingerprint = ReviewFingerprint(kind: Kind, stable: Row)

  datatype CoverageKey = CoverageKey(mode: Json, types: set<string>)

  datatype Decision = Decision(
    actor: UserId,
    required: int,
    fingerprint: ReviewFingerprint,
    evidence: Row,
    coverageKey: Option<CoverageKey>,
    manualVerified: bool,
    snapshot: Option<SnapshotId>)

  datatype Approvals = Approvals(owner: Option<Decision>, second: Option<Decision>)

  const NO_APPROVALS := Approvals(None, None)

  datatype WorkflowState = Unassigned | OwnerReview | SecondReview | Ready | Decommissioned | Rejected

  datatype InvalidationReason =
    | NoLongerQualifies | EvidenceRejected | EvidenceChanged | CoverageChanged
    | ChangedWhilePaused | NotObserved | CriteriaRecalculated

  datatype WorkflowEvent =
    | Invalidated(reason: InvalidationReason, prior: Approvals)
    | Acted(action: string)

  /** The review fields of a finding, with its workflow history, oldest event first. */
  datatype Review = Review(
    state: WorkflowState,
    approvals: Approvals,
    required: int,
    owner: Option<UserId>,
    ticket: string,
    events: seq<WorkflowEvent>)

  datatype FindingRow = FindingRow(
    key: Key,
    evidence: Row,
    present: bool,
    lastSeen: Time,
    snapshot: Option<SnapshotId>,
    revision: nat,
    watch: Watch,
    review: Review)

  /** A finding while a request or a worker holds it: loaded from its row, changed in place, saved back. */
  class Finding {
    const key: Key
    var evidence: Row
    var present: bool
    var lastSeen: Time
    var snapshot: Option<SnapshotId>
    var revision: nat

    var qualification: Qualification
    var observationStarted: Option<Time>
    var observationCount: nat
    var observationDays: nat
    var requiredDays: nat
    var qualifiedAt: Option<Time>
    var policyFingerprint: Option<PolicySignature>

    var workflowState: WorkflowState
    var approvals: Approvals
    var requiredApprovals: int
    var owner: Option<UserId>
    var changeTicket: string
    var events: seq<WorkflowEvent>

    constructor Load(row: FindingRow)
      ensures Row() == row
    {
      key := row.key;
      evidence, present, lastSeen := row.evidence, row.present, row.lastSeen;
      snapshot, revision := row.snapshot, row.revision;
      qualification, observationStarted := row.watch.qualification, row.watch.started;
      observationCount, observationDays := row.watch.count, row.watch.days;
      requiredDays, qualifiedAt := row.watch.requiredDays, row.watch.qualifiedAt;
      policyFingerprint := row.watch.signature;
      workflowState, approvals := row.review.state, row.review.approvals;
      requiredApprovals, owner := row.review.required, row.review.owner;
      changeTicket, events := row.review.ticket, row.review.events;
    }

    function WatchFields(): Watch
      reads this
    {
      Watch(qualification, observationStarted, observationCount, observationDays, requiredDays,
                  qualifiedAt, policyFingerprint)
    }

    function ReviewFields(): Review
      reads this
    {
      Review(workflowState, approvals, requiredApprovals, owner, changeTicket, events)
    }

    function Row(): FindingRow
      reads this
    {
      FindingRow(key, evidence, present, lastSeen, snapshot, revision, WatchFields(), ReviewFields())
    }
  }
}
