/** Observation periods: how long a condition has been seen without interruption. */
module Observation {
  import opened Common
  import opened FindingModel

  datatype FindingPolicy = FindingPolicy(
    zeroHitsDays: nat,
    emptyGroupDays: nat,
    unusedDays: nat,
    unusedServiceDays: nat,
    emptyPolicyDays: nat,
    disabledDays: nat,
    minimumObservations: nat,
    maximumGapHours: nat)

  /** Kinds without a configured number of days can never qualify. */
  function DaysFor(policy: FindingPolicy, kind: Kind): Option<nat> {
    match kind
    case ZeroHits => Some(policy.zeroHitsDays)
    case EmptyGroup => Some(policy.emptyGroupDays)
    case Unused => Some(policy.unusedDays)
    case UnusedService => Some(policy.unusedServiceDays)
    case EmptyPolicy => Some(policy.emptyPolicyDays)
    case Disabled => Some(policy.disabledDays)
    case _ => None
  }

  /** The kinds the replay covers. */
  predicate Replayable(kind: Kind) {
    kind in {ZeroHits, EmptyGroup, Unused, UnusedService, EmptyPolicy, Disabled}
  }

  function AllowedGap(policy: FindingPolicy, interval: nat): Time {
    if policy.maximumGapHours != 0 then policy.maximumGapHours * HOUR
    else (if 1440 < 2 * interval then 2 * interval else 1440) * MINUTE
  }

  /** Everything one evaluation depends on besides the finding itself. */
  datatype Check = Check(policy: FindingPolicy, interval: nat, stamp: Time, reset: bool, row: Row)

  function Gap(check: Check): Time {
    AllowedGap(check.policy, check.interval)
  }

  /** A zero-hit counter counts only when it is a new, recent reading of exactly zero. */
  predicate FreshZero(check: Check, lastSeen: Time) {
    match Get(check.row, "statistics_checked_at")
    case Stamp(checked) =>
      && checked <= check.stamp
      && check.stamp - checked <= Gap(check)
      && (check.reset || checked > lastSeen)
      && EqualsZero(Get(check.row, "hit_count"))
    case _ => false
  }

  function Advanced(watch: Watch, kind: Kind, lastSeen: Time, check: Check): Watch {
    match DaysFor(check.policy, kind)
    case None => UNWATCHED
    case Some(days) =>
      if kind == ZeroHits && !FreshZero(check, lastSeen) then
        UNWATCHED.(requiredDays := days, signature := watch.signature)
      else
        var signature := PolicySignature(days, check.policy.minimumObservations, Gap(check));
        var restart :=
          || check.reset
          || watch.started == None
          || watch.signature != Some(signature)
          || check.stamp <= lastSeen
          || check.stamp - lastSeen > Gap(check);
        var started := if restart then check.stamp else watch.started.value;
        var count := if restart then 1 else watch.count + 1;
        var since := if restart then None else watch.qualifiedAt;
        var observed := if check.stamp < started then 0 else (check.stamp - started) / DAY;
        if days == 0 || (observed >= days && count >= check.policy.minimumObservations) then
          Watch(Eligible, Some(started), count, observed, days,
                if since.Some? then since else Some(check.stamp), Some(signature))
        else
          Watch(Observing, Some(started), count, observed, days, since, Some(signature))
  }

  method Advance(finding: Finding, check: Check)
    modifies finding`qualification, finding`observationStarted, finding`observationCount, finding`observationDays,
             finding`requiredDays, finding`qualifiedAt, finding`policyFingerprint
    ensures finding.WatchFields() == Advanced(old(finding.WatchFields()), finding.key.kind, finding.lastSeen, check)
  {
    var configured := DaysFor(check.policy, finding.key.kind);
    finding.requiredDays := if configured.Some? then configured.value else 0;
    if configured == None {
      finding.qualification := Insufficient;
      finding.observationStarted := None;
      finding.observationCount, finding.observationDays := 0, 0;
      finding.qualifiedAt := None;
      finding.policyFingerprint := None;
      return;
    }
    var days := configured.value;
    var gap := Gap(check);
    var signature := PolicySignature(days, check.policy.minimumObservations, gap);
    var restart := check.reset || finding.observationStarted == None || finding.policyFingerprint != Some(signature)
                   || check.stamp <= finding.lastSeen || check.stamp - finding.lastSeen > gap;
    if finding.key.kind == ZeroHits {
      if !FreshZero(check, finding.lastSeen) {
        finding.qualification := Insufficient;
        finding.observationStarted := None;
        finding.observationCount, finding.observationDays := 0, 0;
        finding.qualifiedAt := None;
        return;
      }
    }
    finding.policyFingerprint := Some(signature);
    if restart {
      finding.observationStarted := Some(check.stamp);
      finding.observationCount := 0;
      finding.qualifiedAt := None;
    }
    finding.observationCount := finding.observationCount + 1;
    var started := finding.observationStarted.value;
    finding.observationDays := if check.stamp < started then 0 else (check.stamp - started) / DAY;
    if days == 0 || (finding.observationDays >= days && finding.observationCount >= check.policy.minimumObservations) {
      finding.qualification := Eligible;
      finding.qualifiedAt := if finding.qualifiedAt.Some? then finding.qualifiedAt else Some(check.stamp);
    } else {
      finding.qualification := Observing;
    }
  }

  /** Only affirmative opposite evidence clears a condition; a missing row does not. */
  predicate Clears(kind: Kind, row: Row) {
    if Truthy(Get(row, "audit_exclusions")) then false
    else
      match kind
      case EmptyGroup => Get(row, "membership") in {Str("non_empty"), Str("nonempty")}
      case Unused => Get(row, "usage") == Str("referenced")
      case UnusedService => Get(row, "usage") == Str("referenced")
      case ZeroHits => Get(row, "hit_status") == Str("traffic_recorded")
      case Disabled => Get(row, "disabled") == Bool(false)
      case EmptyPolicy =>
        (match Get(row, "rule_count")
         case Num(n) => n > 0
         case Bool(b) => b
         case _ => false)
      case _ => false
  }

  function Lapsed(watch: Watch, kind: Kind, row: Row): Watch {
    watch.(qualification := if Clears(kind, row) then Cleared else Insufficient,
           started := None, count := 0, days := 0, qualifiedAt := None)
  }

  method Absent(finding: Finding, row: Row)
    modifies finding`qualification, finding`observationStarted, finding`observationCount, finding`observationDays,
             finding`qualifiedAt
    ensures finding.WatchFields() == Lapsed(old(finding.WatchFields()), finding.key.kind, row)
  {
    finding.qualification := if Clears(finding.key.kind, row) then Cleared else Insufficient;
    finding.observationStarted := None;
    finding.observationCount, finding.observationDays := 0, 0;
    finding.qualifiedAt := None;
  }

  /** Continuity of a condition looks at identity and configuration only. */
  function ConditionKeys(kind: Kind): set<string> {
    {"unique_id", "created_at", "rule_id", "policy_rule_id"} +
    match kind
    case EmptyGroup => {"membership_definition"}
    case Unused => {"configuration"}
    case UnusedService => {"configuration"}
    case ZeroHits => {"configuration_fingerprint", "configuration", "action", "disabled",
                      "source_groups", "destination_groups", "services", "scope"}
    case Disabled => {"configuration_fingerprint", "configuration", "action",
                      "source_groups", "destination_groups", "services", "scope"}
    case EmptyPolicy => {"configuration"}
    case _ => {}
  }

  function ConditionFingerprint(kind: Kind, evidence: Row): Row {
    map key | key in ConditionKeys(kind) && key in evidence ::
      if key == "membership_definition" && evidence[key].Dict? && "definition" in evidence[key].fields
      then evidence[key].fields["definition"] else evidence[key]
  }
}
