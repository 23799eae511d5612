/** Attributing the counters of one bulk response to the rules of a firewall policy.

    Bulk evidence is used for a rule only when nothing about the whole response is doubtful; everything else
    falls back to asking for that rule alone. */
module PolicyStatistics {
  import opened Common

  type Path = string
  type Scope = string

  /** A numeric rule ID doubles as the internal one when that is not given. */
  datatype RuleId = RuleId(text: string, positive: bool)

  datatype Rule = Rule(path: Path, id: string, ruleId: Option<RuleId>, internalRuleId: Option<string>)

  /** Valid counts are non-negative integers; anything else a server may send is Invalid. */
  datatype Count = Absent | Invalid | Valid(n: nat)

  datatype Counter =
    | NotAnObject
    | Counter(rule: Option<string>, ruleId: Option<string>, rulePath: Option<string>, internalRuleId: Option<string>,
              failed: bool, hits: Count, packets: Count, bytes: Count, sessions: Count)

  /** The counters of one enforcement point: a single one, or a nested list with its own bookkeeping. */
  datatype Body = Flat(counter: Counter) | Nested(results: seq<Counter>, wellFormed: bool, complete: bool)

  datatype Entry = BadEntry | Entry(scope: Scope, body: Body)

  datatype Response = Unavailable | Entries(entries: seq<Entry>)

  datatype Sample = Sample(scope: Scope, counter: Counter)

  /** Evidence for one rule: taken from the bulk response, or to be fetched for the rule alone. */
  datatype Evidence = PerRule | Bulk(hits: nat, samples: seq<Sample>)

  // ----- Which rule a counter belongs to -----

  predicate Named(rule: Rule, name: string) {
    name == rule.path || name == rule.id || (rule.ruleId.Some? && name == rule.ruleId.value.text)
  }

  function InternalId(rule: Rule): Option<string> {
    if rule.internalRuleId.Some? then rule.internalRuleId
    else if rule.ruleId.Some? && rule.ruleId.value.positive then Some(rule.ruleId.value.text)
    else None
  }

  /** The names a counter gives for its rule. */
  function NamesIn(counter: Counter): seq<string>
    requires counter.Counter?
  {
    (if counter.rule.Some? then [counter.rule.value] else [])
    + (if counter.ruleId.Some? then [counter.ruleId.value] else [])
    + (if counter.rulePath.Some? then [counter.rulePath.value] else [])
  }

  predicate Identified(counter: Counter)
    requires counter.Counter?
  {
    NamesIn(counter) != [] || counter.internalRuleId.Some?
  }

  /** A counter belongs to a rule when every identity it gives is that rule's. */
  predicate BelongsTo(counter: Counter, rule: Rule) {
    && counter.Counter? && Identified(counter)
    && (forall name | name in NamesIn(counter) :: Named(rule, name))
    && (counter.internalRuleId.Some? ==> InternalId(rule) == counter.internalRuleId)
  }

  function RulesOf(rules: seq<Rule>, counter: Counter): set<Path> {
    set rule | rule in rules && BelongsTo(counter, rule) :: rule.path
  }

  predicate DistinctPaths(rules: seq<Rule>) {
    forall i, j :: 0 <= i < j < |rules| ==> rules[i].path != rules[j].path
  }

  // ----- What the response says -----

  predicate Trusted(entry: Entry) {
    entry.Entry? && (entry.body.Nested? ==> entry.body.wellFormed && entry.body.complete)
  }

  function CountersIn(body: Body): seq<Counter> {
    match body
    case Flat(counter) => [counter]
    case Nested(results, _, _) => results
  }

  function SamplesOf(scope: Scope, counters: seq<Counter>): seq<Sample> {
    seq(|counters|, i requires 0 <= i < |counters| => Sample(scope, counters[i]))
  }

  function AllSamples(entries: seq<Entry>): seq<Sample> {
    if entries == [] then []
    else
      var last := entries[|entries| - 1];
      AllSamples(entries[..|entries| - 1])
      + if last.Entry? then SamplesOf(last.scope, CountersIn(last.body)) else []
  }

  function Scopes(entries: seq<Entry>): set<Scope> {
    set entry | entry in entries && entry.Entry? :: entry.scope
  }

  /** Every counter of the response belongs to exactly one rule. */
  predicate Attributable(rules: seq<Rule>, entries: seq<Entry>) {
    && (forall entry | entry in entries :: Trusted(entry))
    && forall sample | sample in AllSamples(entries) :: |RulesOf(rules, sample.counter)| == 1
  }

  function Own(rules: seq<Rule>, samples: seq<Sample>, path: Path): seq<Sample> {
    if samples == [] then []
    else
      var last := samples[|samples| - 1];
      Own(rules, samples[..|samples| - 1], path) + if RulesOf(rules, last.counter) == {path} then [last] else []
  }

  function ScopesIn(samples: seq<Sample>): set<Scope> {
    set sample | sample in samples :: sample.scope
  }

  lemma OwnAppends(rules: seq<Rule>, samples: seq<Sample>, last: Sample, path: Path)
    ensures Own(rules, samples + [last], path)
         == Own(rules, samples, path) + if RulesOf(rules, last.counter) == {path} then [last] else []
  {
    assert (samples + [last])[..|samples|] == samples;
  }

  predicate OncePerScope(samples: seq<Sample>, scopes: set<Scope>) {
    samples != [] && |samples| == |scopes| && ScopesIn(samples) == scopes
  }

  predicate Readable(counter: Counter) {
    counter.Counter? && !counter.failed && counter.hits.Valid? && !counter.packets.Invalid? && !counter.bytes.Invalid?
    && !counter.sessions.Invalid?
  }

  function Hits(counter: Counter): nat {
    if counter.Counter? && counter.hits.Valid? then counter.hits.n else 0
  }

  function TotalHits(samples: seq<Sample>): nat {
    if samples == [] then 0 else TotalHits(samples[..|samples| - 1]) + Hits(samples[|samples| - 1].counter)
  }

  lemma TotalAppends(samples: seq<Sample>, last: Sample)
    ensures TotalHits(samples + [last]) == TotalHits(samples) + Hits(last.counter)
  {
    assert (samples + [last])[..|samples|] == samples;
  }

  function RuleEvidence(samples: seq<Sample>, scopes: set<Scope>): Evidence {
    if OncePerScope(samples, scopes) && forall sample | sample in samples :: Readable(sample.counter)
    then Bulk(TotalHits(samples), samples) else PerRule
  }

  /** The evidence each rule should get. */
  function EvidenceFor(rules: seq<Rule>, response: Response, path: Path): Evidence {
    if response.Unavailable? || !Attributable(rules, response.entries) then PerRule
    else RuleEvidence(Own(rules, AllSamples(response.entries), path), Scopes(response.entries))
  }

  // ----- The attribution -----

  type Aliases = map<string, set<Path>>

  function Find(aliases: Aliases, name: string): set<Path> {
    if name in aliases then aliases[name] else {}
  }

  ghost predicate AliasesOf(aliases: Aliases, internal: Aliases, rules: seq<Rule>) {
    && (forall name, path :: path in Find(aliases, name) <==>
          exists rule :: rule in rules && rule.path == path && Named(rule, name))
    && (forall name, path :: path in Find(internal, name) <==>
          exists rule :: rule in rules && rule.path == path && InternalId(rule) == Some(name))
  }

  function Add(aliases: Aliases, name: string, path: Path): Aliases {
    aliases[name := Find(aliases, name) + {path}]
  }

  function WithNames(aliases: Aliases, rule: Rule): Aliases {
    var named := Add(Add(aliases, rule.path, rule.path), rule.id, rule.path);
    if rule.ruleId.Some? then Add(named, rule.ruleId.value.text, rule.path) else named
  }

  function WithInternal(aliases: Aliases, rule: Rule): Aliases {
    if InternalId(rule).Some? then Add(aliases, InternalId(rule).value, rule.path) else aliases
  }

  method BuildAliases(rules: seq<Rule>) returns (aliases: Aliases, internal: Aliases)
    ensures AliasesOf(aliases, internal, rules)
  {
    aliases, internal := map[], map[];
    for i := 0 to |rules|
      invariant AliasesOf(aliases, internal, rules[..i])
    {
      AliasesGrow(aliases, internal, rules[..i], rules[i]);
      assert rules[..i + 1] == rules[..i] + [rules[i]];
      aliases, internal := WithNames(aliases, rules[i]), WithInternal(internal, rules[i]);
    }
    assert rules[..|rules|] == rules;
  }

  lemma AliasesGrow(aliases: Aliases, internal: Aliases, rules: seq<Rule>, rule: Rule)
    requires AliasesOf(aliases, internal, rules)
    ensures AliasesOf(WithNames(aliases, rule), WithInternal(internal, rule), rules + [rule])
  {
    forall name, path
      ensures path in Find(WithNames(aliases, rule), name) <==>
                exists r :: r in rules + [rule] && r.path == path && Named(r, name)
      ensures path in Find(WithInternal(internal, rule), name) <==>
                exists r :: r in rules + [rule] && r.path == path && InternalId(r) == Some(name)
    {
      Grows(aliases, internal, rules, rule, name, path);
    }
  }

  lemma Grows(aliases: Aliases, internal: Aliases, rules: seq<Rule>, rule: Rule, name: string, path: Path)
    requires AliasesOf(aliases, internal, rules)
    ensures path in Find(WithNames(aliases, rule), name) <==>
              exists r :: r in rules + [rule] && r.path == path && Named(r, name)
    ensures path in Find(WithInternal(internal, rule), name) <==>
              exists r :: r in rules + [rule] && r.path == path && InternalId(r) == Some(name)
  {
    assert rule in rules + [rule];
    assert path in Find(WithNames(aliases, rule), name) <==>
             path in Find(aliases, name) || (path == rule.path && Named(rule, name));
    assert path in Find(WithInternal(internal, rule), name) <==>
             path in Find(internal, name) || (path == rule.path && InternalId(rule) == Some(name));
    if path in Find(aliases, name) {
      var r :| r in rules && r.path == path && Named(r, name);
      assert r in rules + [rule];
    }
    if path in Find(internal, name) {
      var r :| r in rules && r.path == path && InternalId(r) == Some(name);
      assert r in rules + [rule];
    }
  }

  /** Intersects what the given identities stand for. */
  method Match(aliases: Aliases, internal: Aliases, rules: seq<Rule>, counter: Counter) returns (matches: set<Path>)
    requires AliasesOf(aliases, internal, rules) && DistinctPaths(rules) && counter.Counter?
    ensures matches == RulesOf(rules, counter)
  {
    var candidates: seq<set<Path>> := [];
    var names := NamesIn(counter);
    for i := 0 to |names|
      invariant |candidates| == i && forall j :: 0 <= j < i ==> candidates[j] == Find(aliases, names[j])
    {
      candidates := candidates + [Find(aliases, names[i])];
    }
    if counter.internalRuleId.Some? {
      candidates := candidates + [Find(internal, counter.internalRuleId.value)];
    }
    if candidates == [] {
      matches := {};
    } else {
      matches := candidates[0];
      for i := 1 to |candidates|
        invariant forall path :: path in matches <==> forall j :: 0 <= j < i ==> path in candidates[j]
      {
        matches := matches * candidates[i];
      }
    }
    forall path
      ensures path in matches <==> path in RulesOf(rules, counter)
    {
      MatchesAll(aliases, internal, rules, counter, candidates, path);
    }
  }

  lemma MatchesAll(aliases: Aliases, internal: Aliases, rules: seq<Rule>, counter: Counter, candidates: seq<set<Path>>,
                   path: Path)
    requires AliasesOf(aliases, internal, rules) && DistinctPaths(rules) && counter.Counter?
    requires var names := NamesIn(counter);
             && |candidates| == |names| + (if counter.internalRuleId.Some? then 1 else 0)
             && (forall j :: 0 <= j < |names| ==> candidates[j] == Find(aliases, names[j]))
             && (counter.internalRuleId.Some? ==> candidates[|names|] == Find(internal, counter.internalRuleId.value))
    ensures path in RulesOf(rules, counter) <==>
              candidates != [] && forall j :: 0 <= j < |candidates| ==> path in candidates[j]
  {
    var names := NamesIn(counter);
    if candidates != [] && forall j :: 0 <= j < |candidates| ==> path in candidates[j] {
      assert path in candidates[0];
      var rule :| rule in rules && rule.path == path;
      forall name | name in names
        ensures Named(rule, name)
      {
        var j :| 0 <= j < |names| && names[j] == name;
        assert path in Find(aliases, name);
        var other :| other in rules && other.path == path && Named(other, name);
        SamePath(rules, rule, other);
      }
      if counter.internalRuleId.Some? {
        assert path in candidates[|names|];
        var other :| other in rules && other.path == path && InternalId(other) == counter.internalRuleId;
        SamePath(rules, rule, other);
      }
      assert BelongsTo(counter, rule);
    }
    if path in RulesOf(rules, counter) {
      var rule :| rule in rules && BelongsTo(counter, rule) && rule.path == path;
      forall j | 0 <= j < |candidates|
        ensures path in candidates[j]
      {
        if j < |names| {
          assert names[j] in names;
        }
      }
    }
  }

  lemma SamePath(rules: seq<Rule>, first: Rule, second: Rule)
    requires DistinctPaths(rules) && first in rules && second in rules && first.path == second.path
    ensures first == second
  {
  }

  function Samples(attributed: map<Path, seq<Sample>>, path: Path): seq<Sample> {
    if path in attributed then attributed[path] else []
  }

  /** Files the counters of the response under their rules, or gives up. */
  method Attribute(rules: seq<Rule>, entries: seq<Entry>)
      returns (ok: bool, attributed: map<Path, seq<Sample>>, scopes: set<Scope>)
    requires DistinctPaths(rules)
    ensures ok == Attributable(rules, entries)
    ensures ok ==> scopes == Scopes(entries)
    ensures ok ==> forall path :: Samples(attributed, path) == Own(rules, AllSamples(entries), path)
  {
    var aliases, internal := BuildAliases(rules);
    ok, attributed, scopes := true, map[], {};
    for i := 0 to |entries|
      invariant ok && Attributable(rules, entries[..i]) && scopes == Scopes(entries[..i])
      invariant forall path :: Samples(attributed, path) == Own(rules, AllSamples(entries[..i]), path)
    {
      var entry := entries[i];
      assert entries[..i + 1] == entries[..i] + [entry];
      assert entries[..i + 1][..i] == entries[..i];
      if !Trusted(entry) {
        assert entry in entries;
        return false, attributed, scopes;
      }
      scopes := scopes + {entry.scope};
      var attributable;
      attributable, attributed := AttributeEntry(rules, aliases, internal, entry, attributed, AllSamples(entries[..i]));
      if !attributable {
        var counters := CountersIn(entry.body);
        var j :| 0 <= j < |counters| && |RulesOf(rules, counters[j])| != 1;
        assert SamplesOf(entry.scope, counters)[j] in AllSamples(entries[..i + 1]);
        AllSamplesGrow(entries, i + 1);
        return false, attributed, scopes;
      }
    }
    assert entries[..|entries|] == entries;
  }

  lemma {:induction false} AllSamplesGrow(entries: seq<Entry>, n: nat)
    requires n <= |entries|
    ensures forall sample | sample in AllSamples(entries[..n]) :: sample in AllSamples(entries)
    decreases |entries| - n
  {
    if n < |entries| {
      assert entries[..n + 1][..n] == entries[..n];
      AllSamplesGrow(entries, n + 1);
    } else {
      assert entries[..n] == entries;
    }
  }

  method AttributeEntry(rules: seq<Rule>, aliases: Aliases, internal: Aliases, entry: Entry,
                        before: map<Path, seq<Sample>>, ghost earlier: seq<Sample>)
      returns (ok: bool, attributed: map<Path, seq<Sample>>)
    requires AliasesOf(aliases, internal, rules) && DistinctPaths(rules) && entry.Entry?
    requires forall path :: Samples(before, path) == Own(rules, earlier, path)
    ensures ok <==> forall counter | counter in CountersIn(entry.body) :: |RulesOf(rules, counter)| == 1
    ensures ok ==> forall path :: Samples(attributed, path)
                     == Own(rules, earlier + SamplesOf(entry.scope, CountersIn(entry.body)), path)
  {
    hide Own, RulesOf, AliasesOf;
    attributed := before;
    var counters := CountersIn(entry.body);
    ghost var samples := SamplesOf(entry.scope, counters);
    assert earlier + samples[..0] == earlier;
    for i := 0 to |counters|
      invariant forall j :: 0 <= j < i ==> |RulesOf(rules, counters[j])| == 1
      invariant forall path :: Samples(attributed, path) == Own(rules, earlier + samples[..i], path)
    {
      var counter := counters[i];
      if counter.NotAnObject? {
        NoRuleFor(rules, counter);
        assert counter in counters;
        return false, attributed;
      }
      var matches := Match(aliases, internal, rules, counter);
      if |matches| != 1 {
        assert counter in counters;
        return false, attributed;
      }
      var path :| path in matches;
      OnlyMember(matches, path);
      ghost var sample := Sample(entry.scope, counter);
      assert earlier + samples[..i + 1] == (earlier + samples[..i]) + [sample];
      forall other
        ensures Own(rules, earlier + samples[..i + 1], other)
             == if path == other then Own(rules, earlier + samples[..i], other) + [sample]
                else Own(rules, earlier + samples[..i], other)
      {
        OwnAppends(rules, earlier + samples[..i], sample, other);
        assert path in {path} && Own(rules, earlier + samples[..i], other) + [] == Own(rules, earlier + samples[..i], other);
      }
      ghost var prior := attributed;
      attributed := attributed[path := Samples(attributed, path) + [Sample(entry.scope, counter)]];
      forall other
        ensures Samples(attributed, other) == Own(rules, earlier + samples[..i + 1], other)
      {
        assert Samples(prior, other) == Own(rules, earlier + samples[..i], other);
      }
    }
    assert samples[..|counters|] == samples;
    return true, attributed;
  }

  lemma NoRuleFor(rules: seq<Rule>, counter: Counter)
    requires counter.NotAnObject?
    ensures RulesOf(rules, counter) == {}
  {
  }

  lemma OnlyMember<T>(s: set<T>, x: T)
    requires |s| == 1 && x in s
    ensures s == {x}
  {
    assert |s - {x}| == 0;
  }

  /** The evidence for every rule of the policy. */
  method PolicyEvidence(rules: seq<Rule>, response: Response) returns (results: map<Path, Evidence>)
    requires DistinctPaths(rules)
    ensures results.Keys == set rule | rule in rules :: rule.path
    ensures forall path | path in results :: results[path] == EvidenceFor(rules, response, path)
  {
    var ok, attributed, scopes := false, map[], {};
    if response.Entries? {
      ok, attributed, scopes := Attribute(rules, response.entries);
    }
    results := map[];
    for i := 0 to |rules|
      invariant results.Keys == set rule | rule in rules[..i] :: rule.path
      invariant forall path | path in results :: results[path] == EvidenceFor(rules, response, path)
    {
      var path := rules[i].path;
      var samples := if ok then Samples(attributed, path) else [];
      results := results[path := RuleEvidence(samples, scopes)];
      assert rules[..i + 1] == rules[..i] + [rules[i]];
    }
    assert rules[..|rules|] == rules;
  }

  // ----- What using bulk evidence guarantees -----

  lemma {:induction false} OwnHolds(rules: seq<Rule>, samples: seq<Sample>, path: Path)
    ensures forall sample :: sample in Own(rules, samples, path) <==>
              sample in samples && RulesOf(rules, sample.counter) == {path}
  {
    hide RulesOf;
    if samples != [] {
      var before, last := samples[..|samples| - 1], samples[|samples| - 1];
      assert samples == before + [last];
      OwnHolds(rules, before, path);
      OwnAppends(rules, before, last, path);
    }
  }

  /** One doubtful counter: one that fits no rule or several stops bulk evidence for every rule, while one
      that fits a rule but has unusable numbers stops it for that rule. */
  lemma DoubtStopsBulk(rules: seq<Rule>, entries: seq<Entry>, sample: Sample, path: Path)
    requires sample in AllSamples(entries) && EvidenceFor(rules, Entries(entries), path).Bulk?
    ensures |RulesOf(rules, sample.counter)| == 1
    ensures RulesOf(rules, sample.counter) == {path} ==> Readable(sample.counter)
  {
    OwnHolds(rules, AllSamples(entries), path);
  }

  /** The numbers of a counter can be used. */
  predicate WellCounted(counter: Counter) {
    && counter.Counter? && !counter.failed && counter.hits.Valid?
    && counter.packets != Invalid && counter.bytes != Invalid && counter.sessions != Invalid
  }

  /** An entry is an object; a nested list is well formed and not a part of a longer one. */
  predicate Whole(entry: Entry) {
    entry.Entry? && (entry.body.Flat? || (entry.body.wellFormed && entry.body.complete))
  }

  /** A rule is served from the bulk response exactly when every entry is whole, every counter belongs to one rule,
      and the rule's own are usable, one from each enforcement point. */
  lemma BulkIff(rules: seq<Rule>, entries: seq<Entry>, path: Path)
    ensures EvidenceFor(rules, Entries(entries), path).Bulk? <==>
              && (forall entry | entry in entries :: Whole(entry))
              && (forall sample | sample in AllSamples(entries) :: |RulesOf(rules, sample.counter)| == 1)
              && OncePerScope(Own(rules, AllSamples(entries), path), Scopes(entries))
              && forall sample | sample in AllSamples(entries) && RulesOf(rules, sample.counter) == {path} ::
                   WellCounted(sample.counter)
  {
    hide RulesOf, AllSamples, Own, OncePerScope, Scopes;
    OwnHolds(rules, AllSamples(entries), path);
    assert forall counter :: Readable(counter) <==> WellCounted(counter);
    assert forall entry :: Trusted(entry) <==> Whole(entry);
  }

  // ----- How far one doubtful counter reaches -----

  /** The rule cannot use the response for a reason of its own: its counters are not one per enforcement
      point, or one of them is unreadable. */
  predicate OutByItself(rules: seq<Rule>, entries: seq<Entry>, path: Path) {
    || !OncePerScope(Own(rules, AllSamples(entries), path), Scopes(entries))
    || exists sample | sample in AllSamples(entries) ::
         RulesOf(rules, sample.counter) == {path} && !Readable(sample.counter)
  }

  /** An unreadable counter leaves no rule of the policy its bulk evidence exactly when the response is doubtful
      as a whole, or when every other rule than the counter's own is out for a reason of its own. */
  lemma UnreadableStopsAllIff(rules: seq<Rule>, entries: seq<Entry>, sample: Sample)
    requires DistinctPaths(rules) && sample in AllSamples(entries) && !Readable(sample.counter)
    ensures (forall rule | rule in rules :: EvidenceFor(rules, Entries(entries), rule.path).PerRule?) <==>
              || (exists entry | entry in entries :: !Trusted(entry))
              || (exists other | other in AllSamples(entries) :: |RulesOf(rules, other.counter)| != 1)
              || (forall rule | rule in rules && RulesOf(rules, sample.counter) != {rule.path} ::
                    OutByItself(rules, entries, rule.path))
  {
    hide RulesOf, Own, AllSamples, Scopes, OncePerScope, Readable;
    forall rule | rule in rules
      ensures EvidenceFor(rules, Entries(entries), rule.path).PerRule? <==>
                !Attributable(rules, entries) || OutByItself(rules, entries, rule.path)
    {
      OwnHolds(rules, AllSamples(entries), rule.path);
    }
    assert forall rule | rule in rules && RulesOf(rules, sample.counter) == {rule.path} ::
             OutByItself(rules, entries, rule.path);
  }

  /** The two counters name the same rule; their numbers may differ. */
  predicate SameRule(first: Counter, second: Counter) {
    && first.Counter? && second.Counter?
    && first.rule == second.rule && first.ruleId == second.ruleId && first.rulePath == second.rulePath
    && first.internalRuleId == second.internalRuleId
  }

  /** The two bodies differ at most in the numbers of the k-th counter. */
  predicate SameButNumbers(before: Body, after: Body, k: nat) {
    && (before.Flat? <==> after.Flat?)
    && (before.Nested? ==> before.wellFormed == after.wellFormed && before.complete == after.complete)
    && var first, second := CountersIn(before), CountersIn(after);
       && k < |first| == |second| && SameRule(first[k], second[k]) && second == first[k := second[k]]
  }

  /** The two responses differ at most in the numbers of one counter, the k-th of entry n. */
  predicate Renumbered(before: seq<Entry>, after: seq<Entry>, n: nat, k: nat) {
    && n < |before| == |after| && after == before[n := after[n]]
    && before[n].Entry? && after[n].Entry? && before[n].scope == after[n].scope
    && SameButNumbers(before[n].body, after[n].body, k)
  }

  lemma SameRulesOf(rules: seq<Rule>, first: Counter, second: Counter)
    requires SameRule(first, second)
    ensures RulesOf(rules, first) == RulesOf(rules, second)
  {
    assert NamesIn(first) == NamesIn(second);
    assert forall rule | rule in rules :: BelongsTo(first, rule) == BelongsTo(second, rule);
  }

  /** The samples of two such responses differ in one place. */
  lemma {:induction false} RenumberedSamples(before: seq<Entry>, after: seq<Entry>, n: nat, k: nat) returns (m: nat)
    requires Renumbered(before, after, n, k)
    ensures m < |AllSamples(before)| && AllSamples(before)[m] == Sample(before[n].scope, CountersIn(before[n].body)[k])
    ensures AllSamples(after)
         == AllSamples(before)[m := Sample(before[n].scope, CountersIn(after[n].body)[k])]
  {
    var last := |before| - 1;
    if n < last {
      assert after[..last] == before[..last][n := after[n]];
      m := RenumberedSamples(before[..last], after[..last], n, k);
    } else {
      assert after[..last] == before[..last];
      m := |AllSamples(before[..last])| + k;
    }
  }

  lemma {:induction false} OwnOfOthers(rules: seq<Rule>, before: seq<Sample>, m: nat, sample: Sample, path: Path)
    requires m < |before| && SameRule(before[m].counter, sample.counter)
    requires RulesOf(rules, sample.counter) != {path}
    ensures Own(rules, before[m := sample], path) == Own(rules, before, path)
  {
    hide RulesOf;
    var last := |before| - 1;
    SameRulesOf(rules, before[m].counter, sample.counter);
    if m < last {
      assert before[m := sample][..last] == before[..last][m := sample];
      OwnOfOthers(rules, before[..last], m, sample, path);
    } else {
      assert before[m := sample][..last] == before[..last];
    }
  }

  /** Whatever numbers a counter carries, only its own rule can gain or lose bulk evidence by them. */
  lemma NumbersConcernOwnerOnly(rules: seq<Rule>, before: seq<Entry>, after: seq<Entry>, n: nat, k: nat, path: Path)
    requires Renumbered(before, after, n, k)
    requires RulesOf(rules, CountersIn(before[n].body)[k]) != {path}
    ensures EvidenceFor(rules, Entries(after), path) == EvidenceFor(rules, Entries(before), path)
  {
    hide RulesOf, Own, AllSamples;
    var m := RenumberedSamples(before, after, n, k);
    var samples, sample := AllSamples(before), AllSamples(after)[m];
    SameRulesOf(rules, samples[m].counter, sample.counter);
    OwnOfOthers(rules, samples, m, sample, path);
    SameScopes(before, after, n, k);
    assert forall i | 0 <= i < |samples| ::
             RulesOf(rules, AllSamples(after)[i].counter) == RulesOf(rules, samples[i].counter);
    assert Attributable(rules, after) == Attributable(rules, before);
  }

  lemma SameScopes(before: seq<Entry>, after: seq<Entry>, n: nat, k: nat)
    requires Renumbered(before, after, n, k)
    ensures Scopes(after) == Scopes(before)
    ensures (forall entry | entry in after :: Trusted(entry)) <==> forall entry | entry in before :: Trusted(entry)
  {
    assert forall i | 0 <= i < |before| :: before[i].Entry? == after[i].Entry? && Trusted(before[i]) == Trusted(after[i])
                                           && (before[i].Entry? ==> before[i].scope == after[i].scope);
    forall scope
      ensures scope in Scopes(after) <==> scope in Scopes(before)
    {
      if scope in Scopes(after) {
        var i :| 0 <= i < |after| && after[i].Entry? && after[i].scope == scope;
        assert before[i] in before;
      }
      if scope in Scopes(before) {
        var i :| 0 <= i < |before| && before[i].Entry? && before[i].scope == scope;
        assert after[i] in after;
      }
    }
  }

  /** A counter that only gives a path belongs to the one rule with that path. */
  lemma OwnerByPath(rules: seq<Rule>, i: nat, counter: Counter)
    requires i < |rules| && counter.Counter? && counter.rulePath == Some(rules[i].path)
    requires counter.rule == None && counter.ruleId == None && counter.internalRuleId == None
    requires forall j | 0 <= j < |rules| && j != i :: !Named(rules[j], rules[i].path)
    ensures RulesOf(rules, counter) == {rules[i].path}
  {
    var path := rules[i].path;
    assert NamesIn(counter) == [path] && path in NamesIn(counter);
    assert forall rule | rule in rules :: BelongsTo(counter, rule) <==> Named(rule, path);
    assert rules[i] in rules && BelongsTo(counter, rules[i]);
  }

  function PathCounter(path: Path, hits: Count): Counter {
    Counter(None, None, Some(path), None, false, hits, Absent, Absent, Absent)
  }

  const GOOD := PathCounter("/a", Valid(5))
  const BAD := PathCounter("/b", Invalid)
  const TWO_RULES := [Rule("/a", "a", None, None), Rule("/b", "b", None, None)]
  const ONE_BAD := [Entry("point", Nested([GOOD, BAD], true, true))]
  const TWO_SAMPLES := [Sample("point", GOOD)] + [Sample("point", BAD)]

  lemma TwoSamples()
    ensures AllSamples(ONE_BAD) == TWO_SAMPLES && Scopes(ONE_BAD) == {"point"} == ScopesIn([Sample("point", GOOD)])
  {
    assert ONE_BAD[..0] == [];
    assert SamplesOf("point", [GOOD, BAD]) == TWO_SAMPLES;
    assert ONE_BAD == [Entry("point", Nested([GOOD, BAD], true, true))];
  }

  lemma TwoOwners()
    ensures RulesOf(TWO_RULES, GOOD) == {"/a"} && RulesOf(TWO_RULES, BAD) == {"/b"}
    ensures Own(TWO_RULES, TWO_SAMPLES, "/a") == [Sample("point", GOOD)]
  {
    hide RulesOf;
    OwnerByPath(TWO_RULES, 0, GOOD);
    OwnerByPath(TWO_RULES, 1, BAD);
    var first, second := Sample("point", GOOD), Sample("point", BAD);
    assert "/b" in {"/b"} && "/b" !in {"/a"};
    OwnAppends(TWO_RULES, [], first, "/a");
    OwnAppends(TWO_RULES, [first], second, "/a");
    assert [] + [first] == [first];
  }

  /** Unusable numbers need not stop the other rules: here rule /b has an invalid hit count and rule /a still
      takes its hits from the same response. */
  lemma UnusableNumbersSpareOthers()
    ensures DistinctPaths(TWO_RULES) && Sample("point", BAD) in AllSamples(ONE_BAD) && !Readable(BAD)
    ensures EvidenceFor(TWO_RULES, Entries(ONE_BAD), "/a").Bulk?
    ensures EvidenceFor(TWO_RULES, Entries(ONE_BAD), "/b").PerRule?
  {
    hide RulesOf, AllSamples, Own, Scopes, ScopesIn;
    TwoSamples();
    TwoOwners();
    assert TWO_SAMPLES[1] == Sample("point", BAD);
    if EvidenceFor(TWO_RULES, Entries(ONE_BAD), "/b").Bulk? {
      DoubtStopsBulk(TWO_RULES, ONE_BAD, Sample("point", BAD), "/b");
    }
  }

  function HitsOfRules(rules: seq<Rule>, response: Response, n: nat): nat
    requires n <= |rules|
  {
    if n == 0 then 0
    else
      var evidence := EvidenceFor(rules, response, rules[n - 1].path);
      HitsOfRules(rules, response, n - 1) + if evidence.Bulk? then evidence.hits else 0
  }

  /** Hits filed under the first n rules. */
  function Filed(rules: seq<Rule>, samples: seq<Sample>, n: nat): nat
    requires n <= |rules|
  {
    if n == 0 then 0 else Filed(rules, samples, n - 1) + TotalHits(Own(rules, samples, rules[n - 1].path))
  }

  lemma {:induction false} FiledGrows(rules: seq<Rule>, samples: seq<Sample>, last: Sample, n: nat)
    requires n <= |rules| && DistinctPaths(rules) && |RulesOf(rules, last.counter)| == 1
    ensures Filed(rules, samples + [last], n) == Filed(rules, samples, n)
              + if exists i :: 0 <= i < n && RulesOf(rules, last.counter) == {rules[i].path} then Hits(last.counter) else 0
  {
    hide Own, TotalHits, RulesOf;
    if n > 0 {
      FiledGrows(rules, samples, last, n - 1);
      var path := rules[n - 1].path;
      OwnAppends(rules, samples, last, path);
      assert Own(rules, samples, path) + [] == Own(rules, samples, path);
      TotalAppends(Own(rules, samples, path), last);
      if RulesOf(rules, last.counter) == {path} {
        forall i | 0 <= i < n - 1
          ensures RulesOf(rules, last.counter) != {rules[i].path}
        {
          assert rules[i].path in {rules[i].path};
        }
      }
    }
  }

  lemma {:induction false} EverythingIsFiled(rules: seq<Rule>, samples: seq<Sample>)
    requires DistinctPaths(rules)
    requires forall sample | sample in samples :: |RulesOf(rules, sample.counter)| == 1
    ensures Filed(rules, samples, |rules|) == TotalHits(samples)
  {
    if samples == [] {
      NothingFiled(rules, |rules|);
    } else {
      var before, last := samples[..|samples| - 1], samples[|samples| - 1];
      assert samples == before + [last];
      EverythingIsFiled(rules, before);
      FiledGrows(rules, before, last, |rules|);
      var i := OwnerIndex(rules, last.counter);
    }
  }

  lemma {:induction false} NothingFiled(rules: seq<Rule>, n: nat)
    requires n <= |rules|
    ensures Filed(rules, [], n) == 0
  {
    if n > 0 {
      NothingFiled(rules, n - 1);
    }
  }

  lemma {:induction false} BulkHitsAreFiled(rules: seq<Rule>, entries: seq<Entry>, n: nat)
    requires n <= |rules|
    ensures HitsOfRules(rules, Entries(entries), n) <= Filed(rules, AllSamples(entries), n)
    ensures (forall i :: 0 <= i < n ==> EvidenceFor(rules, Entries(entries), rules[i].path).Bulk?) ==>
              HitsOfRules(rules, Entries(entries), n) == Filed(rules, AllSamples(entries), n)
  {
    if n > 0 {
      BulkHitsAreFiled(rules, entries, n - 1);
    }
  }

  lemma {:induction false} OneSamplePerScope(samples: seq<Sample>)
    requires |samples| == |ScopesIn(samples)|
    ensures forall i, j :: 0 <= i < j < |samples| ==> samples[i].scope != samples[j].scope
  {
    if samples != [] {
      var before, last := samples[..|samples| - 1], samples[|samples| - 1];
      assert ScopesIn(samples) == ScopesIn(before) + {last.scope};
      assert last.scope in ScopesIn(before) ==> ScopesIn(before) + {last.scope} == ScopesIn(before);
      ScopesAtMost(before);
      OneSamplePerScope(before);
      forall i | 0 <= i < |before|
        ensures samples[i].scope != last.scope
      {
        assert before[i] in before;
      }
    }
  }

  lemma {:induction false} ScopesAtMost(samples: seq<Sample>)
    ensures |ScopesIn(samples)| <= |samples|
  {
    if samples != [] {
      var before, last := samples[..|samples| - 1], samples[|samples| - 1];
      assert ScopesIn(samples) == ScopesIn(before) + {last.scope};
      ScopesAtMost(before);
    }
  }

  /** When every rule of a policy is served from the bulk response, every counter belongs to exactly one of
      them, the rules' hits add up to the hits of the whole response, and each rule has exactly one counter from
      each enforcement point. */
  lemma BulkConserves(rules: seq<Rule>, entries: seq<Entry>)
    requires DistinctPaths(rules) && rules != []
    requires forall rule | rule in rules :: EvidenceFor(rules, Entries(entries), rule.path).Bulk?
    ensures forall sample | sample in AllSamples(entries) ::
              exists i :: 0 <= i < |rules| && RulesOf(rules, sample.counter) == {rules[i].path}
    ensures HitsOfRules(rules, Entries(entries), |rules|) == TotalHits(AllSamples(entries))
    ensures forall rule | rule in rules ::
              var samples := EvidenceFor(rules, Entries(entries), rule.path).samples;
              && ScopesIn(samples) == Scopes(entries)
              && forall i, j :: 0 <= i < j < |samples| ==> samples[i].scope != samples[j].scope
  {
    hide RulesOf, Own, AllSamples;
    assert rules[0] in rules && EvidenceFor(rules, Entries(entries), rules[0].path).Bulk?;
    forall sample | sample in AllSamples(entries)
      ensures exists i :: 0 <= i < |rules| && RulesOf(rules, sample.counter) == {rules[i].path}
    {
      var i := OwnerIndex(rules, sample.counter);
    }
    EverythingIsFiled(rules, AllSamples(entries));
    BulkHitsAreFiled(rules, entries, |rules|);
    forall rule | rule in rules
      ensures var samples := EvidenceFor(rules, Entries(entries), rule.path).samples;
              forall i, j :: 0 <= i < j < |samples| ==> samples[i].scope != samples[j].scope
    {
      OneSamplePerScope(EvidenceFor(rules, Entries(entries), rule.path).samples);
    }
  }

  lemma OwnerIndex(rules: seq<Rule>, counter: Counter) returns (i: nat)
    requires |RulesOf(rules, counter)| == 1
    ensures i < |rules| && RulesOf(rules, counter) == {rules[i].path}
  {
    var path :| path in RulesOf(rules, counter);
    OnlyMember(RulesOf(rules, counter), path);
    var rule :| rule in rules && BelongsTo(counter, rule) && rule.path == path;
    i :| 0 <= i < |rules| && rules[i] == rule;
  }

  /** Bulk evidence for some of the rules never adds up to more than the response. */
  lemma BulkNeverExceeds(rules: seq<Rule>, entries: seq<Entry>)
    requires DistinctPaths(rules)
    ensures HitsOfRules(rules, Entries(entries), |rules|) <= TotalHits(AllSamples(entries))
  {
    if Attributable(rules, entries) {
      EverythingIsFiled(rules, AllSamples(entries));
      BulkHitsAreFiled(rules, entries, |rules|);
    } else {
      NothingServed(rules, entries, |rules|);
    }
  }

  lemma {:induction false} NothingServed(rules: seq<Rule>, entries: seq<Entry>, n: nat)
    requires n <= |rules| && !Attributable(rules, entries)
    ensures HitsOfRules(rules, Entries(entries), n) == 0
  {
    if n > 0 {
      NothingServed(rules, entries, n - 1);
    }
  }
}
