/** Matching observed tags against group conditions, and tracing tag-using groups to firewall rules. */
module TagEvidence {
  import opened Sorting

  // ----- Conditions -----

  datatype Operator = Equals | Contains | StartsWith | EndsWith

  /** A supported condition with case-folded scope and tag; an empty part matches everything. */
  datatype Condition = Condition(operator: Operator, scope: string, tag: string)

  predicate Occurs(part: string, whole: string) {
    exists i :: 0 <= i <= |whole| && part <= whole[i..]
  }

  predicate Compares(operator: Operator, tag: string, expected: string) {
    match operator
    case Equals => tag == expected
    case Contains => Occurs(expected, tag)
    case StartsWith => expected <= tag
    case EndsWith => |expected| <= |tag| && tag[|tag| - |expected|..] == expected
  }

  predicate Matches(condition: Condition, scope: string, tag: string) {
    && (condition.scope == "" || scope == condition.scope)
    && (condition.tag == "" || Compares(condition.operator, tag, condition.tag))
  }

  /** What the operators mean, in terms of how the tag is made up. */
  lemma ComparesMeans(operator: Operator, tag: string, expected: string)
    ensures Compares(operator, tag, expected) <==>
              match operator
              case Equals => tag == expected
              case StartsWith => exists after: string :: tag == expected + after
              case EndsWith => exists before: string :: tag == before + expected
              case Contains => exists before: string, after: string :: tag == before + expected + after
  {
    match operator
    case Equals =>
    case StartsWith =>
      if expected <= tag {
        assert tag == expected + tag[|expected|..];
      }
    case EndsWith =>
      if Compares(EndsWith, tag, expected) {
        assert tag == tag[..|tag| - |expected|] + expected;
      }
      if before :| tag == before + expected {
        assert tag[|tag| - |expected|..] == expected;
      }
    case Contains =>
      if Occurs(expected, tag) {
        var i :| 0 <= i <= |tag| && expected <= tag[i..];
        assert tag == tag[..i] + expected + tag[i..][|expected|..];
      }
      if before, after :| tag == before + expected + after {
        assert tag[|before|..] == expected + after;
      }
  }

  /** An empty part matches every scope or tag; otherwise the scope is the same and the operator compares the tag. */
  lemma MatchesMeans(condition: Condition, scope: string, tag: string)
    ensures Matches(condition, scope, tag) <==>
              && condition.scope in {"", scope}
              && (condition.tag != "" ==> Compares(condition.operator, tag, condition.tag))
  {
    hide Compares;
  }

  /** The plain way: test each of the first n conditions in turn. */
  function MatchingUpTo(supported: seq<Condition>, n: nat, scope: string, tag: string): seq<nat>
    requires n <= |supported|
  {
    if n == 0 then []
    else MatchingUpTo(supported, n - 1, scope, tag) + if Matches(supported[n - 1], scope, tag) then [n - 1] else []
  }

  function Matching(supported: seq<Condition>, scope: string, tag: string): seq<nat> {
    MatchingUpTo(supported, |supported|, scope, tag)
  }

  lemma {:induction false} MatchingIsAscending(supported: seq<Condition>, n: nat, scope: string, tag: string)
    requires n <= |supported|
    ensures Ascending(MatchingUpTo(supported, n, scope, tag))
    ensures forall x: nat :: x in MatchingUpTo(supported, n, scope, tag) <==> x < n && Matches(supported[x], scope, tag)
  {
    if n > 0 {
      MatchingIsAscending(supported, n - 1, scope, tag);
      var before := MatchingUpTo(supported, n - 1, scope, tag);
      AppendAscending(before, n - 1);
    }
  }

  // ----- The keyed index -----

  datatype Index = Index(exact: map<(string, string), seq<nat>>, others: seq<nat>)

  /** A keyed list holds, in order, only equalities with that key among the first n conditions. */
  predicate FiledUnder(indices: seq<nat>, key: (string, string), supported: seq<Condition>, n: nat)
    requires n <= |supported|
  {
    && Ascending(indices)
    && forall x | x in indices :: x < n && supported[x].operator == Equals && (supported[x].scope, supported[x].tag) == key
  }

  /** The index files each of the first n conditions in exactly one place, in order. */
  ghost predicate Files(index: Index, supported: seq<Condition>, n: nat)
    requires n <= |supported|
  {
    && Ascending(index.others)
    && (forall x: nat :: x in index.others <==> x < n && supported[x].operator != Equals)
    && (forall key | key in index.exact :: FiledUnder(index.exact[key], key, supported, n))
    && (forall x: nat :: x < n && supported[x].operator == Equals ==>
          (supported[x].scope, supported[x].tag) in index.exact
          && x in index.exact[(supported[x].scope, supported[x].tag)])
  }

  method BuildIndex(supported: seq<Condition>) returns (index: Index)
    ensures Files(index, supported, |supported|)
  {
    var exact: map<(string, string), seq<nat>> := map[];
    var others: seq<nat> := [];
    for n := 0 to |supported|
      invariant Files(Index(exact, others), supported, n)
    {
      var condition := supported[n];
      if condition.operator == Equals {
        var key := (condition.scope, condition.tag);
        var filed := if key in exact then exact[key] else [];
        assert FiledUnder(filed, key, supported, n);
        AppendAscending(filed, n);
        exact := exact[key := filed + [n]];
      } else {
        AppendAscending(others, n);
        others := others + [n];
      }
    }
    index := Index(exact, others);
  }

  function KeysFor(scope: string, tag: string): set<(string, string)> {
    {(scope, tag), ("", tag), (scope, ""), ("", "")}
  }

  /** A condition that could match: not an equality, or filed under one of the keys. */
  predicate Eligible(supported: seq<Condition>, keys: set<(string, string)>, x: nat) {
    x < |supported| && (supported[x].operator == Equals ==> (supported[x].scope, supported[x].tag) in keys)
  }

  /** Candidates gathered from the residual list and the keyed lists, in any order but without repetition. */
  method Gather(index: Index, supported: seq<Condition>, scope: string, tag: string) returns (candidates: seq<nat>)
    requires Files(index, supported, |supported|)
    ensures forall i, j :: 0 <= i < j < |candidates| ==> candidates[i] != candidates[j]
    ensures forall x: nat :: x in candidates <==> Eligible(supported, KeysFor(scope, tag), x)
  {
    candidates := index.others;
    var remaining := KeysFor(scope, tag);
    while remaining != {}
      invariant remaining <= KeysFor(scope, tag)
      invariant forall i, j :: 0 <= i < j < |candidates| ==> candidates[i] != candidates[j]
      invariant forall x: nat :: x in candidates <==> Eligible(supported, KeysFor(scope, tag) - remaining, x)
    {
      var key :| key in remaining;
      if key in index.exact {
        JoinDistinct(candidates, index.exact[key]);
        candidates := candidates + index.exact[key];
      }
      remaining := remaining - {key};
    }
  }

  lemma JoinDistinct(first: seq<nat>, second: seq<nat>)
    requires forall i, j :: 0 <= i < j < |first| ==> first[i] != first[j]
    requires Ascending(second)
    requires forall x :: x in first ==> x !in second
    ensures var all := first + second; forall i, j :: 0 <= i < j < |all| ==> all[i] != all[j]
  {
    assert forall i :: 0 <= i < |first| ==> first[i] in first;
    assert forall i :: 0 <= i < |second| ==> second[i] in second;
  }

  /** Looking a tag up in the index finds exactly the conditions the plain test finds, in the same order. */
  method MatchByIndex(supported: seq<Condition>, index: Index, scope: string, tag: string) returns (matches: seq<nat>)
    requires Files(index, supported, |supported|)
    ensures matches == Matching(supported, scope, tag)
  {
    var gathered := Gather(index, supported, scope, tag);
    var candidates := Sort(gathered);
    matches := [];
    for n := 0 to |candidates|
      invariant Ascending(matches)
      invariant forall x: nat :: x in matches <==> x in candidates[..n] && x < |supported| && Matches(supported[x], scope, tag)
    {
      var x := candidates[n];
      assert x in candidates;
      assert forall y | y in candidates[..n] :: y < x;
      assert candidates[..n + 1] == candidates[..n] + [x];
      if Matches(supported[x], scope, tag) {
        AppendAscending(matches, x);
        matches := matches + [x];
      }
    }
    assert candidates[..|candidates|] == candidates;
    MatchingIsAscending(supported, |supported|, scope, tag);
    forall x: nat
      ensures x in matches <==> x in Matching(supported, scope, tag)
    {
      if x < |supported| && Matches(supported[x], scope, tag) && supported[x].operator == Equals {
        assert (supported[x].scope, supported[x].tag) in KeysFor(scope, tag);
      }
    }
    AscendingIsDetermined(matches, Matching(supported, scope, tag));
  }

  // ----- From groups to the rules that consume them -----

  type Path = string

  /** Who references each group, which paths are rules and which are groups. */
  datatype References = References(owners: map<Path, set<Path>>, rules: set<Path>, groups: set<Path>)

  function Owners(references: References, path: Path): set<Path> {
    if path in references.owners then references.owners[path] else {}
  }

  /** A rule ends a chain even if it is listed as a group as well. */
  predicate Nests(references: References, inner: Path, outer: Path) {
    outer in Owners(references, inner) && outer in references.groups && outer !in references.rules
  }

  predicate NestingChain(references: References, chain: seq<Path>) {
    chain != [] && forall i :: 0 < i < |chain| ==> Nests(references, chain[i - 1], chain[i])
  }

  ghost predicate ReachesGroup(references: References, start: Path, group: Path) {
    exists chain :: NestingChain(references, chain) && chain[0] == start && chain[|chain| - 1] == group
  }

  ghost predicate Consumes(references: References, start: Path, rule: Path) {
    rule in references.rules && exists group :: ReachesGroup(references, start, group) && rule in Owners(references, group)
  }

  lemma ReachExtends(references: References, start: Path, inner: Path, outer: Path)
    requires ReachesGroup(references, start, inner) && Nests(references, inner, outer)
    ensures ReachesGroup(references, start, outer)
  {
    var chain :| NestingChain(references, chain) && chain[0] == start && chain[|chain| - 1] == inner;
    var longer := chain + [outer];
    assert NestingChain(references, longer) && longer[|longer| - 1] == outer;
  }

  predicate NestingClosed(references: References, seen: set<Path>, pending: set<Path>) {
    forall path | path in seen :: forall outer | outer in Owners(references, path) ::
      Nests(references, path, outer) ==> outer in seen + pending
  }

  lemma {:induction false} ClosedReaches(references: References, seen: set<Path>, chain: seq<Path>)
    requires NestingClosed(references, seen, {}) && NestingChain(references, chain) && chain[0] in seen
    ensures chain[|chain| - 1] in seen
  {
    if |chain| > 1 {
      var shorter := chain[..|chain| - 1];
      ClosedReaches(references, seen, shorter);
      assert Nests(references, shorter[|shorter| - 1], chain[|chain| - 1]);
    }
  }

  lemma ClosedHasReached(references: References, seen: set<Path>, start: Path, group: Path)
    requires NestingClosed(references, seen, {}) && start in seen && ReachesGroup(references, start, group)
    ensures group in seen
  {
    var chain :| NestingChain(references, chain) && chain[0] == start && chain[|chain| - 1] == group;
    ClosedReaches(references, seen, chain);
  }

  lemma ReachesItself(references: References, group: Path)
    ensures ReachesGroup(references, group, group)
  {
    assert NestingChain(references, [group]);
  }

  /** The work list finds exactly the rules that reference the group directly or through nested groups, and
      ends even when groups reference each other in a circle. */
  method Consumers(references: References, group: Path) returns (found: set<Path>)
    ensures forall rule :: rule in found <==> Consumes(references, group, rule)
  {
    var pending, seen: set<Path> := [group], {};
    found := {};
    hide ReachesGroup;
    ReachesItself(references, group);
    while pending != []
      invariant forall path | path in pending :: path in references.groups + {group}
      invariant seen <= references.groups + {group}
      invariant group in seen || group in pending
      invariant forall path | path in seen || path in pending :: ReachesGroup(references, group, path)
      invariant NestingClosed(references, seen, set path | path in pending)
      invariant forall rule :: rule in found <==>
                  rule in references.rules && exists path :: path in seen && rule in Owners(references, path)
      decreases |references.groups + {group} - seen|, |pending|
    {
      var path := pending[|pending| - 1];
      ghost var waiting := pending;
      pending := pending[..|pending| - 1];
      assert waiting == pending + [path];
      if path !in seen {
        seen := seen + {path};
        assert references.groups + {group} - seen < references.groups + {group} - (seen - {path});
        found, pending := Follow(references, group, path, found, pending);
      }
    }
    forall rule | Consumes(references, group, rule)
      ensures rule in found
    {
      var via :| ReachesGroup(references, group, via) && rule in Owners(references, via);
      ClosedHasReached(references, seen, group, via);
    }
  }

  /** Sorts the owners of one group into rules found and groups still to visit. */
  method Follow(references: References, ghost start: Path, path: Path, found: set<Path>, pending: seq<Path>)
      returns (found': set<Path>, pending': seq<Path>)
    requires ReachesGroup(references, start, path)
    ensures found' == found + (Owners(references, path) * references.rules)
    ensures forall p :: p in pending' <==> p in pending || Nests(references, path, p)
    ensures forall p | p in pending' :: p in pending || ReachesGroup(references, start, p)
  {
    found', pending' := found, pending;
    var remaining := Owners(references, path);
    while remaining != {}
      invariant remaining <= Owners(references, path)
      invariant found' == found + ((Owners(references, path) - remaining) * references.rules)
      invariant forall p :: p in pending' <==> p in pending || (Nests(references, path, p) && p !in remaining)
      invariant forall p | p in pending' :: p in pending || ReachesGroup(references, start, p)
    {
      var owner :| owner in remaining;
      if owner in references.rules {
        found' := found' + {owner};
      } else if owner in references.groups {
        ReachExtends(references, start, path, owner);
        pending' := pending' + [owner];
      }
      remaining := remaining - {owner};
    }
  }
}
