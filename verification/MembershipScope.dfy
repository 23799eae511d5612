/** Which parts of a group's membership definition the membership probes can and cannot rule out.

    Definitions may reference other groups, cyclically or through missing paths. The analysis walks them
    with a depth limit and shares one cache of already analysed groups across all groups of a collection. */
module MembershipScope {

  type Path = string

  const DEPTH_LIMIT := 64
  const CACHE_LIMIT := 256

  /** A membership expression: a list, a dictionary, or any other value. */
  datatype Expression =
    | Plain
    | Many(items: seq<Expression>)
    | Node(kind: string, memberType: string, hasAddresses: bool, hasMacs: bool, paths: seq<Path>, nested: Expression)

  datatype Group = Group(path: Path, antrea: bool, extended: bool, expression: Expression)

  type Inventory = map<Path, Group>

  datatype Issue = Unavailable(path: Path) | CycleOrDepth(path: Path)

  datatype Limitation =
    | UnsupportedExpression(kind: string)
    | UnsupportedMemberType(memberType: string)
    | NestedMacs | NestedAntrea | NestedIdentity | Antrea | ExtendedIdentity

  const SUPPORTED_TYPES := {"VirtualMachine", "VIF", "Segment", "SegmentPort", "LogicalSwitch", "LogicalPort", "IPAddress"}
  const SUPPORTED_EXPRESSIONS := {"Condition", "ConjunctionOperator", "NestedExpression", "IPAddressExpression",
                                  "MACAddressExpression", "ExternalIDExpression", "PathExpression"}

  // ----- The analysis without a cache -----

  /** What walking one value finds; `reached` are the referenced groups it enters, directly or indirectly. */
  datatype Scan = Scan(explicit: bool, issues: seq<Issue>, limitations: seq<Limitation>, reached: set<Path>)

  const NOTHING := Scan(false, [], [], {})

  function Then(first: Scan, second: Scan): Scan {
    Scan(first.explicit || second.explicit, first.issues + second.issues,
         first.limitations + second.limitations, first.reached + second.reached)
  }

  function DepthLeft(visiting: set<Path>): nat {
    if |visiting| < DEPTH_LIMIT then DEPTH_LIMIT - |visiting| else 0
  }

  /** Walking a value spends this; entering a referenced group leaves less. */
  function Budget(visiting: set<Path>): nat {
    2 * DepthLeft(visiting) + 1
  }

  function OwnLimitations(node: Expression, nested: bool): seq<Limitation>
    requires node.Node?
  {
    (if node.kind != "" && node.kind !in SUPPORTED_EXPRESSIONS then [UnsupportedExpression(node.kind)] else [])
    + (if node.memberType != "" && node.memberType !in SUPPORTED_TYPES then [UnsupportedMemberType(node.memberType)] else [])
    + (if nested && node.hasMacs then [NestedMacs] else [])
  }

  function ChildLimitations(child: Group): seq<Limitation> {
    (if child.antrea then [NestedAntrea] else []) + (if child.extended then [NestedIdentity] else [])
  }

  function ReferencedPaths(node: Expression): seq<Path>
    requires node.Node?
  {
    if node.kind == "PathExpression" then node.paths else []
  }

  function ScanValue(inventory: Inventory, value: Expression, visiting: set<Path>): Scan
    decreases Budget(visiting), value, 1
  {
    match value
    case Plain => NOTHING
    case Many(items) => ScanItems(inventory, items, visiting)
    case Node(_, _, _, _, paths, nested) =>
      var own := Scan(value.hasAddresses || value.hasMacs, [], OwnLimitations(value, |visiting| > 1), {});
      var referenced := if value.kind == "PathExpression" then ScanPaths(inventory, paths, visiting) else NOTHING;
      Then(Then(own, referenced), ScanValue(inventory, nested, visiting))
  }

  function ScanItems(inventory: Inventory, items: seq<Expression>, visiting: set<Path>): Scan
    decreases Budget(visiting), items, 0
  {
    if items == [] then NOTHING
    else Then(ScanValue(inventory, items[0], visiting), ScanItems(inventory, items[1..], visiting))
  }

  function ScanPaths(inventory: Inventory, paths: seq<Path>, visiting: set<Path>): (scan: Scan)
    ensures !scan.explicit
    decreases Budget(visiting), paths, 0
  {
    if paths == [] then NOTHING
    else Then(ScanPath(inventory, paths[0], visiting), ScanPaths(inventory, paths[1..], visiting))
  }

  /** Walking an expression: what it shows itself, what its references show, and what is nested in it. */
  lemma ScanOfNode(inventory: Inventory, value: Expression, visiting: set<Path>)
    requires value.Node?
    ensures var referenced := if value.kind == "PathExpression" then ScanPaths(inventory, value.paths, visiting) else NOTHING;
            var nested := ScanValue(inventory, value.nested, visiting);
            ScanValue(inventory, value, visiting)
              == Scan(value.hasAddresses || value.hasMacs || nested.explicit, referenced.issues + nested.issues,
                      OwnLimitations(value, |visiting| > 1) + referenced.limitations + nested.limitations,
                      referenced.reached + nested.reached)
  {
    hide OwnLimitations, ScanPaths;
    var referenced := if value.kind == "PathExpression" then ScanPaths(inventory, value.paths, visiting) else NOTHING;
    assert [] + referenced.issues == referenced.issues && {} + referenced.reached == referenced.reached;
  }

  predicate Enters(inventory: Inventory, path: Path, visiting: set<Path>) {
    path in inventory && path !in visiting && |visiting| < DEPTH_LIMIT
  }

  function ScanPath(inventory: Inventory, path: Path, visiting: set<Path>): (scan: Scan)
    ensures !scan.explicit
    decreases Budget(visiting) - 1
  {
    if path !in inventory then NOTHING.(issues := [Unavailable(path)])
    else if !Enters(inventory, path, visiting) then NOTHING.(issues := [CycleOrDepth(path)])
    else
      var child := inventory[path];
      var inner := ScanValue(inventory, child.expression, visiting + {path});
      Scan(false, inner.issues, ChildLimitations(child) + inner.limitations, {path} + inner.reached)
  }

  /** Entering a referenced group, in terms of walking its expression. */
  lemma ScanPathEnters(inventory: Inventory, path: Path, visiting: set<Path>)
    requires Enters(inventory, path, visiting)
    ensures var inner := ScanValue(inventory, inventory[path].expression, visiting + {path});
            ScanPath(inventory, path, visiting)
              == Scan(false, inner.issues, ChildLimitations(inventory[path]) + inner.limitations, {path} + inner.reached)
  {
  }

  lemma ScanPathStops(inventory: Inventory, path: Path, visiting: set<Path>)
    requires !Enters(inventory, path, visiting)
    ensures ScanPath(inventory, path, visiting)
         == Scan(false, [if path in inventory then CycleOrDepth(path) else Unavailable(path)], [], {})
  {
  }

  /** The analysis of one group, with nothing shared. */
  function ScopeOf(inventory: Inventory, group: Group): Scan {
    var scan := ScanValue(inventory, group.expression, {group.path});
    scan.(limitations := (if group.antrea then [Antrea] else []) + scan.limitations
                         + (if group.extended then [ExtendedIdentity] else []))
  }

  // ----- Scans without issues do not depend on where they started -----

  /** The groups entered below a value without issues fit under another set of visited groups. */
  predicate Fits(reached: set<Path>, visited: set<Path>, visiting: set<Path>) {
    && visited != {} && visiting != {}
    && visiting * reached <= visited
    && |visiting + reached| < DEPTH_LIMIT
  }

  lemma {:induction false} ValueMoves(inventory: Inventory, value: Expression, visited: set<Path>, visiting: set<Path>,
                                      reached: set<Path>)
    requires ScanValue(inventory, value, visited).issues == []
    requires ScanValue(inventory, value, visited).reached <= reached
    requires Fits(reached, visited, visiting) && |visited| > 1 && |visiting| > 1
    ensures ScanValue(inventory, value, visiting) == ScanValue(inventory, value, visited)
    decreases Budget(visited), value, 1
  {
    match value
    case Plain =>
    case Many(items) => ItemsMove(inventory, items, visited, visiting, reached);
    case Node(_, _, _, _, paths, nested) =>
      ValueMoves(inventory, nested, visited, visiting, reached);
      if value.kind == "PathExpression" {
        PathsMove(inventory, paths, visited, visiting, reached);
      }
  }

  lemma {:induction false} ItemsMove(inventory: Inventory, items: seq<Expression>, visited: set<Path>, visiting: set<Path>,
                                     reached: set<Path>)
    requires ScanItems(inventory, items, visited).issues == []
    requires ScanItems(inventory, items, visited).reached <= reached
    requires Fits(reached, visited, visiting) && |visited| > 1 && |visiting| > 1
    ensures ScanItems(inventory, items, visiting) == ScanItems(inventory, items, visited)
    decreases Budget(visited), items, 0
  {
    if items != [] {
      ValueMoves(inventory, items[0], visited, visiting, reached);
      ItemsMove(inventory, items[1..], visited, visiting, reached);
    }
  }

  lemma {:induction false} PathsMove(inventory: Inventory, paths: seq<Path>, visited: set<Path>, visiting: set<Path>,
                                     reached: set<Path>)
    requires ScanPaths(inventory, paths, visited).issues == []
    requires ScanPaths(inventory, paths, visited).reached <= reached
    requires Fits(reached, visited, visiting)
    ensures ScanPaths(inventory, paths, visiting) == ScanPaths(inventory, paths, visited)
    decreases Budget(visited), paths, 0
  {
    if paths != [] {
      PathMoves(inventory, paths[0], visited, visiting, reached);
      PathsMove(inventory, paths[1..], visited, visiting, reached);
    }
  }

  lemma {:induction false} PathMoves(inventory: Inventory, path: Path, visited: set<Path>, visiting: set<Path>,
                                     reached: set<Path>)
    requires ScanPath(inventory, path, visited).issues == []
    requires ScanPath(inventory, path, visited).reached <= reached
    requires Fits(reached, visited, visiting)
    ensures ScanPath(inventory, path, visiting) == ScanPath(inventory, path, visited)
    decreases Budget(visited) - 1
  {
    assert path in reached && path !in visiting;
    EntersWithin(path, visiting, reached);
    assert (visiting + {path}) + reached == visiting + reached;
    ValueMoves(inventory, inventory[path].expression, visited + {path}, visiting + {path}, reached);
  }

  lemma EntersWithin(path: Path, visiting: set<Path>, reached: set<Path>)
    requires path in reached && path !in visiting
    ensures |visiting| < |visiting + reached|
  {
    assert visiting + {path} <= visiting + reached;
    SubsetSize(visiting + {path}, visiting + reached);
  }

  lemma {:induction false} SubsetSize<T>(small: set<T>, large: set<T>)
    requires small <= large
    ensures |small| <= |large|
  {
    if small != {} {
      var x :| x in small;
      SubsetSize(small - {x}, large - {x});
    }
  }

  // ----- What an analysis without issues has established -----

  predicate Closed(inventory: Inventory, reached: set<Path>, visiting: set<Path>) {
    forall path | path in reached ::
      path in inventory && path !in visiting && References(inventory[path].expression) <= reached
  }

  /** All paths a value references itself, at any nesting of expressions. */
  function References(value: Expression): set<Path>
    decreases value, 1
  {
    match value
    case Plain => {}
    case Many(items) => ReferencesOfItems(items)
    case Node(_, _, _, _, paths, nested) => (set path | path in ReferencedPaths(value)) + References(nested)
  }

  function ReferencesOfItems(items: seq<Expression>): set<Path>
    decreases items, 0
  {
    if items == [] then {} else References(items[0]) + ReferencesOfItems(items[1..])
  }

  lemma {:induction false} ValueCloses(inventory: Inventory, value: Expression, visiting: set<Path>)
    requires ScanValue(inventory, value, visiting).issues == []
    ensures Closed(inventory, ScanValue(inventory, value, visiting).reached, visiting)
    ensures References(value) <= ScanValue(inventory, value, visiting).reached
    decreases Budget(visiting), value, 1
  {
    match value
    case Plain =>
    case Many(items) => ItemsClose(inventory, items, visiting);
    case Node(_, _, _, _, paths, nested) =>
      ValueCloses(inventory, nested, visiting);
      if value.kind == "PathExpression" {
        PathsClose(inventory, paths, visiting);
      }
  }

  lemma {:induction false} ItemsClose(inventory: Inventory, items: seq<Expression>, visiting: set<Path>)
    requires ScanItems(inventory, items, visiting).issues == []
    ensures Closed(inventory, ScanItems(inventory, items, visiting).reached, visiting)
    ensures ReferencesOfItems(items) <= ScanItems(inventory, items, visiting).reached
    decreases Budget(visiting), items, 0
  {
    if items != [] {
      ValueCloses(inventory, items[0], visiting);
      ItemsClose(inventory, items[1..], visiting);
    }
  }

  lemma {:induction false} PathsClose(inventory: Inventory, paths: seq<Path>, visiting: set<Path>)
    requires ScanPaths(inventory, paths, visiting).issues == []
    ensures Closed(inventory, ScanPaths(inventory, paths, visiting).reached, visiting)
    ensures forall path | path in paths :: path in ScanPaths(inventory, paths, visiting).reached
    decreases Budget(visiting), paths, 0
  {
    if paths != [] {
      if Enters(inventory, paths[0], visiting) {
        ValueCloses(inventory, inventory[paths[0]].expression, visiting + {paths[0]});
      }
      PathsClose(inventory, paths[1..], visiting);
    }
  }

  /** Without issues, every group reachable by references was analysed, none is missing, and none of them
      leads back to the group itself. */
  lemma IssueFreeScopeIsComplete(inventory: Inventory, group: Group)
    requires ScopeOf(inventory, group).issues == []
    ensures var reached := ScopeOf(inventory, group).reached;
            References(group.expression) <= reached && Closed(inventory, reached, {group.path})
  {
    ValueCloses(inventory, group.expression, {group.path});
  }

  // ----- What the issues say about the references -----

  /** Following these references, group by group, ends where the issue arises: at a path that is missing, or at a
      group already passed or below 63 others. */
  predicate EndsIn(inventory: Inventory, links: seq<Path>, references: set<Path>, passed: set<Path>, issue: Issue) {
    && links != [] && links[0] in references
    && var path := links[0];
       if |links| == 1 then
         if path !in inventory then issue == Unavailable(path)
         else (path in passed || |passed| >= 64) && issue == CycleOrDepth(path)
       else
         && path in inventory && path !in passed && |passed| < 64
         && EndsIn(inventory, links[1..], References(inventory[path].expression), passed + {path}, issue)
  }

  ghost predicate Arises(inventory: Inventory, references: set<Path>, passed: set<Path>, issue: Issue) {
    exists links: seq<Path> :: EndsIn(inventory, links, references, passed, issue)
  }

  lemma ArisesInEither(inventory: Inventory, first: set<Path>, second: set<Path>, passed: set<Path>, issue: Issue)
    ensures Arises(inventory, first + second, passed, issue) <==>
              Arises(inventory, first, passed, issue) || Arises(inventory, second, passed, issue)
    ensures !Arises(inventory, {}, passed, issue)
  {
    hide References;
    if links :| EndsIn(inventory, links, first + second, passed, issue) {
      assert EndsIn(inventory, links, first, passed, issue) || EndsIn(inventory, links, second, passed, issue);
    }
    if links :| EndsIn(inventory, links, first, passed, issue) {
      assert EndsIn(inventory, links, first + second, passed, issue);
    }
    if links :| EndsIn(inventory, links, second, passed, issue) {
      assert EndsIn(inventory, links, first + second, passed, issue);
    }
  }

  lemma ArisesAt(inventory: Inventory, path: Path, passed: set<Path>, issue: Issue)
    ensures Arises(inventory, {path}, passed, issue) <==>
              if path !in inventory then issue == Unavailable(path)
              else if path in passed || |passed| >= 64 then issue == CycleOrDepth(path)
              else Arises(inventory, References(inventory[path].expression), passed + {path}, issue)
  {
    hide References;
    if links :| EndsIn(inventory, links, {path}, passed, issue) {
      assert links[0] == path;
      if path in inventory && path !in passed && |passed| < 64 {
        assert EndsIn(inventory, links[1..], References(inventory[path].expression), passed + {path}, issue);
      }
    }
    if path in inventory && path !in passed && |passed| < 64 {
      if links :| EndsIn(inventory, links, References(inventory[path].expression), passed + {path}, issue) {
        assert ([path] + links)[1..] == links;
        assert EndsIn(inventory, [path] + links, {path}, passed, issue);
      }
    } else if issue == (if path in inventory then CycleOrDepth(path) else Unavailable(path)) {
      assert EndsIn(inventory, [path], {path}, passed, issue);
    }
  }

  lemma {:induction false} ValueIssues(inventory: Inventory, value: Expression, visiting: set<Path>, issue: Issue)
    ensures issue in ScanValue(inventory, value, visiting).issues <==> Arises(inventory, References(value), visiting, issue)
    decreases Budget(visiting), value, 1
  {
    hide Arises;
    ArisesInEither(inventory, {}, {}, visiting, issue);
    match value
    case Plain =>
    case Many(items) => ItemsIssues(inventory, items, visiting, issue);
    case Node(_, _, _, _, paths, nested) =>
      ValueIssues(inventory, nested, visiting, issue);
      var own := set path | path in ReferencedPaths(value);
      ArisesInEither(inventory, own, References(nested), visiting, issue);
      if value.kind == "PathExpression" {
        PathsIssues(inventory, paths, visiting, issue);
      } else {
        assert own == {};
      }
      ScanOfNode(inventory, value, visiting);
  }

  lemma {:induction false} ItemsIssues(inventory: Inventory, items: seq<Expression>, visiting: set<Path>, issue: Issue)
    ensures issue in ScanItems(inventory, items, visiting).issues <==>
              Arises(inventory, ReferencesOfItems(items), visiting, issue)
    decreases Budget(visiting), items, 0
  {
    hide Arises;
    ArisesInEither(inventory, {}, {}, visiting, issue);
    if items != [] {
      ValueIssues(inventory, items[0], visiting, issue);
      ItemsIssues(inventory, items[1..], visiting, issue);
      ArisesInEither(inventory, References(items[0]), ReferencesOfItems(items[1..]), visiting, issue);
    }
  }

  lemma {:induction false} PathsIssues(inventory: Inventory, paths: seq<Path>, visiting: set<Path>, issue: Issue)
    ensures issue in ScanPaths(inventory, paths, visiting).issues <==>
              Arises(inventory, (set path | path in paths), visiting, issue)
    decreases Budget(visiting), paths, 0
  {
    hide Arises, ScanPath;
    ArisesInEither(inventory, {}, {}, visiting, issue);
    if paths == [] {
      assert (set path | path in paths) == {};
    } else {
      PathIssues(inventory, paths[0], visiting, issue);
      PathsIssues(inventory, paths[1..], visiting, issue);
      var rest := set path | path in paths[1..];
      assert (set path | path in paths) == {paths[0]} + rest;
      ArisesInEither(inventory, {paths[0]}, rest, visiting, issue);
    }
  }

  lemma {:induction false} PathIssues(inventory: Inventory, path: Path, visiting: set<Path>, issue: Issue)
    ensures issue in ScanPath(inventory, path, visiting).issues <==> Arises(inventory, {path}, visiting, issue)
    decreases Budget(visiting) - 1
  {
    hide Arises;
    ArisesAt(inventory, path, visiting, issue);
    if Enters(inventory, path, visiting) {
      ScanPathEnters(inventory, path, visiting);
      ValueIssues(inventory, inventory[path].expression, visiting + {path}, issue);
    } else {
      ScanPathStops(inventory, path, visiting);
    }
  }

  /** An issue is reported exactly when following references from the group ends in it. */
  lemma IssuesAreReal(inventory: Inventory, group: Group, issue: Issue)
    ensures issue in ScopeOf(inventory, group).issues <==>
              Arises(inventory, References(group.expression), {group.path}, issue)
  {
    hide ScanValue, Arises;
    ValueIssues(inventory, group.expression, {group.path}, issue);
  }

  // ----- What the limitations say about the definitions -----

  /** Every dictionary of an expression, at any nesting. */
  function NodesOf(value: Expression): set<Expression>
    decreases value, 1
  {
    match value
    case Plain => {}
    case Many(items) => NodesOfItems(items)
    case Node(_, _, _, _, _, nested) => {value} + NodesOf(nested)
  }

  function NodesOfItems(items: seq<Expression>): set<Expression>
    decreases items, 0
  {
    if items == [] then {} else NodesOf(items[0]) + NodesOfItems(items[1..])
  }

  /** This limitation is due to this part of an expression. */
  predicate DueTo(limitation: Limitation, node: Expression, nested: bool) {
    node.Node? &&
    match limitation
    case UnsupportedExpression(kind) =>
      kind == node.kind
      && kind !in {"", "Condition", "ConjunctionOperator", "NestedExpression", "IPAddressExpression",
                   "MACAddressExpression", "ExternalIDExpression", "PathExpression"}
    case UnsupportedMemberType(memberType) =>
      memberType == node.memberType
      && memberType !in {"", "VirtualMachine", "VIF", "Segment", "SegmentPort", "LogicalSwitch", "LogicalPort", "IPAddress"}
    case NestedMacs => nested && node.hasMacs
    case _ => false
  }

  predicate DueIn(limitation: Limitation, nodes: set<Expression>, nested: bool) {
    exists node | node in nodes :: DueTo(limitation, node, nested)
  }

  /** This limitation is due to a referenced group or its expression. */
  predicate DueToChild(limitation: Limitation, child: Group) {
    || (limitation == NestedAntrea && child.antrea)
    || (limitation == NestedIdentity && child.extended)
    || DueIn(limitation, NodesOf(child.expression), true)
  }

  predicate DueToReached(limitation: Limitation, inventory: Inventory, reached: set<Path>) {
    exists path | path in reached && path in inventory :: DueToChild(limitation, inventory[path])
  }

  lemma {:induction false} ValueLimits(inventory: Inventory, value: Expression, visiting: set<Path>, limitation: Limitation)
    requires visiting != {}
    ensures var scan := ScanValue(inventory, value, visiting);
            limitation in scan.limitations <==>
              DueIn(limitation, NodesOf(value), |visiting| > 1) || DueToReached(limitation, inventory, scan.reached)
    decreases Budget(visiting), value, 1
  {
    hide DueTo, DueToChild;
    match value
    case Plain =>
    case Many(items) => ItemsLimit(inventory, items, visiting, limitation);
    case Node(_, _, _, _, paths, nested) =>
      ValueLimits(inventory, nested, visiting, limitation);
      OwnLimits(value, |visiting| > 1, limitation);
      if value.kind == "PathExpression" {
        PathsLimit(inventory, paths, visiting, limitation);
      }
      NodeSplits(inventory, value, visiting, limitation);
  }

  lemma OwnLimits(node: Expression, nested: bool, limitation: Limitation)
    requires node.Node?
    ensures limitation in OwnLimitations(node, nested) <==> DueTo(limitation, node, nested)
  {
  }

  lemma NodeSplits(inventory: Inventory, value: Expression, visiting: set<Path>, limitation: Limitation)
    requires value.Node?
    ensures var referenced := if value.kind == "PathExpression" then ScanPaths(inventory, value.paths, visiting) else NOTHING;
            var inner, scan := ScanValue(inventory, value.nested, visiting), ScanValue(inventory, value, visiting);
            && (DueIn(limitation, NodesOf(value), |visiting| > 1) <==>
                  DueTo(limitation, value, |visiting| > 1) || DueIn(limitation, NodesOf(value.nested), |visiting| > 1))
            && (DueToReached(limitation, inventory, scan.reached) <==>
                  DueToReached(limitation, inventory, referenced.reached) || DueToReached(limitation, inventory, inner.reached))
            && (limitation in scan.limitations <==>
                  || limitation in OwnLimitations(value, |visiting| > 1)
                  || limitation in referenced.limitations || limitation in inner.limitations)
  {
    hide DueTo, DueToChild, OwnLimitations, ScanValue, ScanPaths;
    ScanOfNode(inventory, value, visiting);
  }

  lemma {:induction false} ItemsLimit(inventory: Inventory, items: seq<Expression>, visiting: set<Path>, limitation: Limitation)
    requires visiting != {}
    ensures var scan := ScanItems(inventory, items, visiting);
            limitation in scan.limitations <==>
              || DueIn(limitation, NodesOfItems(items), |visiting| > 1)
              || DueToReached(limitation, inventory, scan.reached)
    decreases Budget(visiting), items, 0
  {
    hide DueTo, DueToChild;
    if items != [] {
      ValueLimits(inventory, items[0], visiting, limitation);
      ItemsLimit(inventory, items[1..], visiting, limitation);
      DueInEither(limitation, NodesOf(items[0]), NodesOfItems(items[1..]), |visiting| > 1);
    }
  }

  lemma DueInEither(limitation: Limitation, first: set<Expression>, second: set<Expression>, nested: bool)
    ensures DueIn(limitation, first + second, nested) <==>
              DueIn(limitation, first, nested) || DueIn(limitation, second, nested)
  {
    hide DueTo;
  }

  lemma {:induction false} PathsLimit(inventory: Inventory, paths: seq<Path>, visiting: set<Path>, limitation: Limitation)
    requires visiting != {}
    ensures var scan := ScanPaths(inventory, paths, visiting);
            limitation in scan.limitations <==> DueToReached(limitation, inventory, scan.reached)
    decreases Budget(visiting), paths, 0
  {
    hide DueTo, DueToChild;
    if paths != [] {
      PathLimits(inventory, paths[0], visiting, limitation);
      PathsLimit(inventory, paths[1..], visiting, limitation);
    }
  }

  lemma {:induction false} PathLimits(inventory: Inventory, path: Path, visiting: set<Path>, limitation: Limitation)
    requires visiting != {}
    ensures var scan := ScanPath(inventory, path, visiting);
            limitation in scan.limitations <==> DueToReached(limitation, inventory, scan.reached)
    decreases Budget(visiting) - 1
  {
    hide DueTo, DueIn, ScanPath, ScanValue;
    if Enters(inventory, path, visiting) {
      ScanPathEnters(inventory, path, visiting);
      var more := visiting + {path};
      ValueLimits(inventory, inventory[path].expression, more, limitation);
      var x :| x in visiting;
      SubsetSize({x, path}, more);
    } else {
      ScanPathStops(inventory, path, visiting);
    }
  }

  /** This limitation is due to the group, to its own expressions, or to a group it reaches. */
  predicate Due(limitation: Limitation, inventory: Inventory, group: Group, reached: set<Path>) {
    || (limitation == Antrea && group.antrea)
    || (limitation == ExtendedIdentity && group.extended)
    || DueIn(limitation, NodesOf(group.expression), false)
    || DueToReached(limitation, inventory, reached)
  }

  /** Exactly the limitations that are due are reported. */
  lemma LimitationsAreDue(inventory: Inventory, group: Group, limitation: Limitation)
    ensures var scan := ScopeOf(inventory, group);
            limitation in scan.limitations <==> Due(limitation, inventory, group, scan.reached)
  {
    hide DueTo, DueIn, DueToReached, ScanValue;
    ValueLimits(inventory, group.expression, {group.path}, limitation);
  }

  /** The parts of a definition that the membership probes can rule out. */
  predicate Probeable(node: Expression) {
    node.Node? ==>
      && node.kind in {"", "Condition", "ConjunctionOperator", "NestedExpression", "IPAddressExpression",
                       "MACAddressExpression", "ExternalIDExpression", "PathExpression"}
      && node.memberType in {"", "VirtualMachine", "VIF", "Segment", "SegmentPort", "LogicalSwitch", "LogicalPort", "IPAddress"}
  }

  predicate ProbeableGroup(group: Group) {
    !group.antrea && !group.extended && forall node | node in NodesOf(group.expression) :: Probeable(node)
  }

  predicate ListsNoMacs(group: Group) {
    forall node | node in NodesOf(group.expression) :: node.Node? ==> !node.hasMacs
  }

  /** Nothing is limited exactly when the group and every group it reaches are made of supported expressions about
      supported member types, without container or identity membership, and no reached group lists MAC addresses. */
  lemma UnlimitedIff(inventory: Inventory, group: Group)
    ensures var scan := ScopeOf(inventory, group);
            scan.limitations == [] <==>
              && ProbeableGroup(group)
              && forall path | path in scan.reached && path in inventory ::
                   ProbeableGroup(inventory[path]) && ListsNoMacs(inventory[path])
  {
    hide ScopeOf, NodesOf, Due, ProbeableGroup, ListsNoMacs;
    var scan := ScopeOf(inventory, group);
    forall limitation
      ensures limitation in scan.limitations <==> Due(limitation, inventory, group, scan.reached)
    {
      LimitationsAreDue(inventory, group, limitation);
    }
    if scan.limitations != [] {
      assert scan.limitations[0] in scan.limitations;
      SomeDue(inventory, group, scan.reached, scan.limitations[0]);
    } else {
      NoneDue(inventory, group, scan.reached);
    }
  }

  lemma SomeDue(inventory: Inventory, group: Group, reached: set<Path>, limitation: Limitation)
    requires Due(limitation, inventory, group, reached)
    ensures || !ProbeableGroup(group)
            || exists path | path in reached && path in inventory ::
                 !ProbeableGroup(inventory[path]) || !ListsNoMacs(inventory[path])
  {
    hide NodesOf;
  }

  /** If no limitation is due, all definitions are supported. */
  lemma NoneDue(inventory: Inventory, group: Group, reached: set<Path>)
    requires forall limitation :: !Due(limitation, inventory, group, reached)
    ensures ProbeableGroup(group)
    ensures forall path | path in reached && path in inventory ::
              ProbeableGroup(inventory[path]) && ListsNoMacs(inventory[path])
  {
    hide NodesOf;
    assert !Due(Antrea, inventory, group, reached) && !Due(ExtendedIdentity, inventory, group, reached);
    forall node | node in NodesOf(group.expression) && node.Node?
      ensures Probeable(node)
    {
      assert !Due(UnsupportedExpression(node.kind), inventory, group, reached);
      assert !Due(UnsupportedMemberType(node.memberType), inventory, group, reached);
      NodeProbeable(node, group.expression, false);
    }
    forall path | path in reached && path in inventory
      ensures ProbeableGroup(inventory[path]) && ListsNoMacs(inventory[path])
    {
      var child := inventory[path];
      assert !Due(NestedAntrea, inventory, group, reached) && !Due(NestedIdentity, inventory, group, reached);
      assert !DueToChild(NestedAntrea, child) && !DueToChild(NestedIdentity, child);
      forall node | node in NodesOf(child.expression) && node.Node?
        ensures Probeable(node) && !node.hasMacs
      {
        assert !Due(UnsupportedExpression(node.kind), inventory, group, reached);
        assert !Due(UnsupportedMemberType(node.memberType), inventory, group, reached);
        assert !Due(NestedMacs, inventory, group, reached);
        assert !DueToChild(UnsupportedExpression(node.kind), child) && !DueToChild(UnsupportedMemberType(node.memberType), child)
            && !DueToChild(NestedMacs, child);
        NodeProbeable(node, child.expression, true);
      }
    }
  }

  lemma NodeProbeable(node: Expression, value: Expression, nested: bool)
    requires node in NodesOf(value) && node.Node?
    requires !DueIn(UnsupportedExpression(node.kind), NodesOf(value), nested)
    requires !DueIn(UnsupportedMemberType(node.memberType), NodesOf(value), nested)
    ensures Probeable(node)
    ensures nested && !DueIn(NestedMacs, NodesOf(value), nested) ==> !node.hasMacs
  {
    hide NodesOf;
    assert !DueTo(UnsupportedExpression(node.kind), node, nested);
    assert !DueTo(UnsupportedMemberType(node.memberType), node, nested);
    assert nested && !DueIn(NestedMacs, NodesOf(value), nested) ==> !DueTo(NestedMacs, node, nested);
  }

  /** A group counts as explicit exactly when its own definition lists addresses, at any nesting. */
  lemma {:induction false} ExplicitIff(inventory: Inventory, value: Expression, visiting: set<Path>)
    ensures ScanValue(inventory, value, visiting).explicit <==>
              exists node | node in NodesOf(value) :: node.Node? && (node.hasAddresses || node.hasMacs)
    decreases value, 1
  {
    match value
    case Plain =>
    case Many(items) => ExplicitItemsIff(inventory, items, visiting);
    case Node(_, _, _, _, _, nested) =>
      hide ScanValue;
      ExplicitIff(inventory, nested, visiting);
      ScanOfNode(inventory, value, visiting);
  }

  lemma {:induction false} ExplicitItemsIff(inventory: Inventory, items: seq<Expression>, visiting: set<Path>)
    ensures ScanItems(inventory, items, visiting).explicit <==>
              exists node | node in NodesOfItems(items) :: node.Node? && (node.hasAddresses || node.hasMacs)
    decreases items, 0
  {
    if items != [] {
      ExplicitIff(inventory, items[0], visiting);
      ExplicitItemsIff(inventory, items[1..], visiting);
    }
  }

  // ----- The memoised analysis -----

  datatype Cached = Cached(limitations: seq<Limitation>, reached: set<Path>)

  /** A cached subtree is what the cache-free walk finds, wherever it is entered within the depth budget. */
  ghost predicate Exact(inventory: Inventory, path: Path, entry: Cached) {
    forall visiting: set<Path> ::
      visiting != {} && visiting !! entry.reached && |visiting| + |entry.reached| < DEPTH_LIMIT ==>
        ScanPath(inventory, path, visiting) == Scan(false, [], entry.limitations, entry.reached)
  }

  ghost predicate ExactCache(inventory: Inventory, cache: map<Path, Cached>) {
    forall path | path in cache :: Exact(inventory, path, cache[path])
  }

  lemma CacheIsExact(inventory: Inventory, cache: map<Path, Cached>, path: Path, visiting: set<Path>)
    requires ExactCache(inventory, cache) && path in cache && visiting != {}
    requires cache[path].reached !! visiting && |visiting| + |cache[path].reached| < DEPTH_LIMIT
    ensures ScanPath(inventory, path, visiting) == Scan(false, [], cache[path].limitations, cache[path].reached)
  {
    hide ScanPath;
    assert Exact(inventory, path, cache[path]);
  }

  /** Every subtree being recorded grows by the same paths. */
  function Widened(dependencies: seq<set<Path>>, paths: set<Path>): seq<set<Path>> {
    seq(|dependencies|, i requires 0 <= i < |dependencies| => dependencies[i] + paths)
  }

  lemma WidenedTwice(dependencies: seq<set<Path>>, first: set<Path>, second: set<Path>)
    ensures Widened(dependencies, {}) == dependencies
    ensures Widened(Widened(dependencies, first), second) == Widened(dependencies, first + second)
  {
    forall i | 0 <= i < |dependencies|
      ensures (dependencies[i] + first) + second == dependencies[i] + (first + second)
      ensures dependencies[i] + {} == dependencies[i]
    {
    }
  }

  lemma WidenedLast(dependencies: seq<set<Path>>, last: set<Path>, paths: set<Path>)
    ensures Widened(dependencies + [last], paths) == Widened(dependencies, paths) + [last + paths]
  {
  }

  class Analysis {
    const inventory: Inventory
    var cache: map<Path, Cached>
    var visiting: set<Path>
    var dependencies: seq<set<Path>>
    var issues: seq<Issue>
    var limitations: seq<Limitation>

    ghost predicate Valid()
      reads this
    {
      visiting != {} && ExactCache(inventory, cache)
    }

    constructor (inventory: Inventory, cache: map<Path, Cached>, group: Group)
      requires ExactCache(inventory, cache)
      ensures Valid() && this.inventory == inventory && visiting == {group.path}
      ensures issues == [] && limitations == [] && dependencies == []
    {
      this.inventory, this.cache := inventory, cache;
      visiting, dependencies := {group.path}, [];
      issues, limitations := [], [];
    }

    /** The effect of walking a value for which the cache-free walk finds `scan`. */
    twostate predicate Adds(scan: Scan)
      reads this
    {
      && visiting == old(visiting)
      && issues == old(issues) + scan.issues
      && limitations == old(limitations) + scan.limitations
      && dependencies == Widened(old(dependencies), scan.reached)
    }

    method Inspect(value: Expression) returns (explicit: bool)
      requires Valid()
      modifies this
      ensures Valid() && Adds(ScanValue(inventory, value, visiting))
      ensures explicit == ScanValue(inventory, value, visiting).explicit
      decreases Budget(visiting), value, 1
    {
      WidenedTwice(dependencies, {}, {});
      match value
      case Plain => explicit := false;
      case Many(items) => explicit := InspectItems(items);
      case Node(_, _, _, _, _, _) =>
        explicit := InspectNode(value);
    }

    method InspectNode(value: Expression) returns (explicit: bool)
      requires Valid() && value.Node?
      modifies this
      ensures Valid() && Adds(ScanValue(inventory, value, visiting))
      ensures explicit == ScanValue(inventory, value, visiting).explicit
      decreases Budget(visiting), value, 0
    {
      hide OwnLimitations, ScanPaths, ScanValue, Exact, ExactCache, Widened;
      ScanOfNode(inventory, value, visiting);
      ghost var outer := dependencies;
      ghost var nested := ScanValue(inventory, value.nested, visiting);
      ghost var referenced := if value.kind == "PathExpression" then ScanPaths(inventory, value.paths, visiting) else NOTHING;
      WidenedTwice(outer, referenced.reached, nested.reached);
      limitations := limitations + OwnLimitations(value, |visiting| > 1);
      var literal := value.hasAddresses || value.hasMacs;
      // Referenced groups may resolve other member types.
      if value.kind == "PathExpression" {
        InspectPaths(value.paths);
      }
      var inner := Inspect(value.nested);
      explicit := inner || literal;
    }

    method InspectItems(items: seq<Expression>) returns (explicit: bool)
      requires Valid()
      modifies this
      ensures Valid() && Adds(ScanItems(inventory, items, visiting))
      ensures explicit == ScanItems(inventory, items, visiting).explicit
      decreases Budget(visiting), items, 0
    {
      hide ScanValue, Exact, ExactCache, Widened;
      WidenedTwice(dependencies, {}, {});
      ghost var outer := dependencies;
      explicit := false;
      if items != [] {
        WidenedTwice(outer, ScanValue(inventory, items[0], visiting).reached, ScanItems(inventory, items[1..], visiting).reached);
        var head := Inspect(items[0]);
        var tail := InspectItems(items[1..]);
        explicit := head || tail;
      }
    }

    method InspectPaths(paths: seq<Path>)
      requires Valid()
      modifies this
      ensures Valid() && Adds(ScanPaths(inventory, paths, visiting))
      decreases Budget(visiting), paths, 0
    {
      hide ScanPath, Exact, ExactCache, Widened;
      WidenedTwice(dependencies, {}, {});
      if paths != [] {
        WidenedTwice(dependencies, ScanPath(inventory, paths[0], visiting).reached,
                     ScanPaths(inventory, paths[1..], visiting).reached);
        InspectPath(paths[0]);
        InspectPaths(paths[1..]);
      }
    }

    method InspectPath(path: Path)
      requires Valid()
      modifies this
      ensures Valid() && Adds(ScanPath(inventory, path, visiting))
      decreases Budget(visiting) - 1, 1
    {
      hide ScanValue, ScanPath, ExactCache, Exact, ChildLimitations, Widened;
      WidenedTwice(dependencies, {}, {});
      if !Enters(inventory, path, visiting) {
        ScanPathStops(inventory, path, visiting);
      } else {
        ScanPathEnters(inventory, path, visiting);
      }
      if path !in inventory {
        issues := issues + [Unavailable(path)];
        return;
      }
      if path in visiting || |visiting| >= DEPTH_LIMIT {
        issues := issues + [CycleOrDepth(path)];
        return;
      }
      ghost var outer := dependencies;
      AddDependencies({path});
      if path in cache && cache[path].reached !! visiting && |visiting| + |cache[path].reached| < DEPTH_LIMIT {
        WidenedTwice(outer, {path}, cache[path].reached);
        UseCached(path);
        assert {path} + cache[path].reached == cache[path].reached;
      } else {
        WidenedTwice(outer, {path}, ScanValue(inventory, inventory[path].expression, visiting + {path}).reached);
        InspectChild(path);
      }
    }

    method UseCached(path: Path)
      requires Valid() && path in cache
      requires cache[path].reached !! visiting && |visiting| + |cache[path].reached| < DEPTH_LIMIT
      modifies this`limitations, this`dependencies
      ensures ScanPath(inventory, path, visiting) == Scan(false, [], cache[path].limitations, cache[path].reached)
      ensures limitations == old(limitations) + cache[path].limitations
      ensures dependencies == Widened(old(dependencies), cache[path].reached)
    {
      hide ScanPath, Exact, ExactCache, Widened;
      CacheIsExact(inventory, cache, path, visiting);
      limitations := limitations + cache[path].limitations;
      AddDependencies(cache[path].reached);
    }

    method AddDependencies(paths: set<Path>)
      modifies this`dependencies
      ensures dependencies == Widened(old(dependencies), paths)
    {
      var all := dependencies;
      for i := 0 to |all|
        invariant |dependencies| == |all|
        invariant forall j :: 0 <= j < |all| ==> dependencies[j] == if j < i then all[j] + paths else all[j]
      {
        dependencies := dependencies[i := dependencies[i] + paths];
      }
    }

    method InspectChild(path: Path)
      requires Valid() && Enters(inventory, path, visiting)
      modifies this
      ensures Valid() && Adds(ScanPath(inventory, path, visiting).(reached :=
                ScanValue(inventory, inventory[path].expression, visiting + {path}).reached))
      decreases Budget(visiting) - 1, 0
    {
      ghost var scan := ScanPath(inventory, path, visiting);
      var beforeIssues, beforeLimitations := |issues|, |limitations|;
      var subtree := WalkChild(path);
      if |issues| == beforeIssues && |subtree| <= CACHE_LIMIT {
        assert limitations[beforeLimitations..] == scan.limitations;
        ScanIsExact(inventory, path, visiting);
        cache := cache[path := Cached(limitations[beforeLimitations..], subtree)];
      }
    }

    /** Walks a referenced group below itself and returns the groups entered, the group included. */
    method WalkChild(path: Path) returns (subtree: set<Path>)
      requires Valid() && Enters(inventory, path, visiting)
      modifies this
      ensures Valid() && subtree == ScanPath(inventory, path, visiting).reached
      ensures Adds(ScanPath(inventory, path, visiting).(reached :=
                ScanValue(inventory, inventory[path].expression, visiting + {path}).reached))
      decreases Budget(visiting) - 2
    {
      hide ScanValue, ScanPath, ExactCache, Exact, ChildLimitations;
      ScanPathEnters(inventory, path, visiting);
      ghost var outer := dependencies;
      ghost var inner := ScanValue(inventory, inventory[path].expression, visiting + {path});
      assert (visiting + {path}) - {path} == visiting;
      WidenedLast(outer, {path}, inner.reached);
      dependencies := dependencies + [{path}];
      visiting := visiting + {path};
      limitations := limitations + ChildLimitations(inventory[path]);
      // Scope only; child members must not bypass the parent's criteria.
      var _ := Inspect(inventory[path].expression);
      visiting := visiting - {path};
      subtree := dependencies[|dependencies| - 1];
      dependencies := dependencies[..|dependencies| - 1];
    }
  }

  lemma ScanIsExact(inventory: Inventory, path: Path, visited: set<Path>)
    requires visited != {} && Enters(inventory, path, visited)
    requires ScanPath(inventory, path, visited).issues == []
    ensures var scan := ScanPath(inventory, path, visited);
            Exact(inventory, path, Cached(scan.limitations, scan.reached))
  {
    var scan := ScanPath(inventory, path, visited);
    forall visiting: set<Path> | visiting != {} && visiting !! scan.reached && |visiting| + |scan.reached| < DEPTH_LIMIT
      ensures ScanPath(inventory, path, visiting) == scan
    {
      PathMoves(inventory, path, visited, visiting, scan.reached);
    }
  }

  /** Sharing a cache of earlier analyses changes nothing about the result for a group. */
  method MembershipScopeOf(inventory: Inventory, group: Group, cache: map<Path, Cached>)
      returns (explicit: bool, issues: seq<Issue>, limitations: seq<Limitation>, updated: map<Path, Cached>)
    requires ExactCache(inventory, cache)
    ensures explicit == ScopeOf(inventory, group).explicit
    ensures issues == ScopeOf(inventory, group).issues
    ensures limitations == ScopeOf(inventory, group).limitations
    ensures ExactCache(inventory, updated)
  {
    hide ScanValue, Exact, ExactCache, Widened;
    var analysis := new Analysis(inventory, cache, group);
    if group.antrea {
      analysis.limitations := analysis.limitations + [Antrea];
    }
    explicit := analysis.Inspect(group.expression);
    if group.extended {
      analysis.limitations := analysis.limitations + [ExtendedIdentity];
    }
    issues, limitations, updated := analysis.issues, analysis.limitations, analysis.cache;
  }

  /** One cache serves all groups of a collection, in any order. */
  method AnalyseAll(inventory: Inventory, groups: seq<Group>) returns (scopes: seq<(bool, seq<Issue>, seq<Limitation>)>)
    ensures |scopes| == |groups|
    ensures forall i :: 0 <= i < |groups| ==>
              var scan := ScopeOf(inventory, groups[i]);
              scopes[i] == (scan.explicit, scan.issues, scan.limitations)
  {
    var cache: map<Path, Cached> := map[];
    scopes := [];
    for i := 0 to |groups|
      invariant ExactCache(inventory, cache) && |scopes| == i
      invariant forall j :: 0 <= j < i ==>
                  var scan := ScopeOf(inventory, groups[j]);
                  scopes[j] == (scan.explicit, scan.issues, scan.limitations)
    {
      var explicit, issues, limitations, updated := MembershipScopeOf(inventory, groups[i], cache);
      cache := updated;
      scopes := scopes + [(explicit, issues, limitations)];
    }
  }
}
