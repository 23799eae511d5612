/** The bounded dependency tree of an object: who would be affected by removing it. */
module ImpactPreview {

  type Path = string

  datatype Edge = Edge(target: Path, relation: string)

  /** Dependents of each path in display order, without repetitions. */
  type Edges = map<Path, seq<Edge>>

  datatype Tree = Tree(path: Path, relation: string, repeated: bool, children: seq<Tree>)

  function Dependents(edges: Edges, path: Path): seq<Edge> {
    if path in edges then edges[path] else []
  }

  function Targets(edges: Edges, path: Path): set<Path> {
    set edge | edge in Dependents(edges, path) :: edge.target
  }

  // ----- Reading a tree -----

  function Size(forest: seq<Tree>): nat {
    if forest == [] then 0 else 1 + Size(forest[0].children) + Size(forest[1..])
  }

  function Levels(forest: seq<Tree>): nat {
    if forest == [] then 0
    else
      var first, rest := 1 + Levels(forest[0].children), Levels(forest[1..]);
      if first < rest then rest else first
  }

  function Paths(forest: seq<Tree>): set<Path> {
    if forest == [] then {} else {forest[0].path} + Paths(forest[0].children) + Paths(forest[1..])
  }

  /** The paths whose dependents are listed, in preorder. */
  function Expanded(forest: seq<Tree>): seq<Path> {
    if forest == [] then []
    else (if forest[0].repeated then [] else [forest[0].path]) + Expanded(forest[0].children) + Expanded(forest[1..])
  }

  /** The entries are the first dependents, in order, each followed by its own first dependents. */
  predicate Follows(edges: Edges, dependents: seq<Edge>, forest: seq<Tree>)
    decreases forest
  {
    forest == [] ||
    (&& dependents != []
     && dependents[0] == Edge(forest[0].path, forest[0].relation)
     && (forest[0].repeated ==> forest[0].children == [])
     && Follows(edges, Dependents(edges, forest[0].path), forest[0].children)
     && Follows(edges, dependents[1..], forest[1..]))
  }

  /** No dependent is left out below an entry that is expanded. */
  predicate Full(edges: Edges, forest: seq<Tree>) {
    forest == [] ||
    (&& (!forest[0].repeated ==> |forest[0].children| == |Dependents(edges, forest[0].path)|)
     && Full(edges, forest[0].children)
     && Full(edges, forest[1..]))
  }

  lemma {:induction false} SizeAppends(first: seq<Tree>, second: seq<Tree>)
    ensures Size(first + second) == Size(first) + Size(second)
    ensures Levels(first + second) == if Levels(first) < Levels(second) then Levels(second) else Levels(first)
  {
    if first == [] {
      assert first + second == second;
    } else {
      assert (first + second)[1..] == first[1..] + second && (first + second)[0] == first[0];
      SizeAppends(first[1..], second);
    }
  }

  lemma {:induction false} PathsAppend(first: seq<Tree>, second: seq<Tree>)
    ensures Paths(first + second) == Paths(first) + Paths(second)
  {
    if first == [] {
      assert first + second == second;
    } else {
      assert (first + second)[1..] == first[1..] + second && (first + second)[0] == first[0];
      PathsAppend(first[1..], second);
    }
  }

  lemma {:induction false} ExpandedAppends(first: seq<Tree>, second: seq<Tree>)
    ensures Expanded(first + second) == Expanded(first) + Expanded(second)
  {
    if first == [] {
      assert first + second == second;
    } else {
      assert (first + second)[1..] == first[1..] + second && (first + second)[0] == first[0];
      ExpandedAppends(first[1..], second);
    }
  }

  lemma {:induction false} FollowsAppends(edges: Edges, dependents: seq<Edge>, first: seq<Tree>, second: seq<Tree>)
    requires |first| <= |dependents|
    requires Follows(edges, dependents, first) && Follows(edges, dependents[|first|..], second)
    ensures Follows(edges, dependents, first + second)
    ensures Full(edges, first) && Full(edges, second) ==> Full(edges, first + second)
  {
    if first == [] {
      assert first + second == second;
    } else {
      assert (first + second)[1..] == first[1..] + second;
      FollowsAppends(edges, dependents[1..], first[1..], second);
    }
  }

  // ----- Reachability -----

  /** A chain of dependents from the first to the last of the paths. */
  predicate Chain(edges: Edges, chain: seq<Path>) {
    && chain != []
    && forall i :: 0 < i < |chain| ==> chain[i] in Targets(edges, chain[i - 1])
  }

  ghost predicate Reachable(edges: Edges, root: Path, path: Path) {
    exists chain :: Chain(edges, chain) && chain[0] == root && chain[|chain| - 1] == path
  }

  predicate ClosedUnder(edges: Edges, paths: set<Path>) {
    forall path | path in paths :: Targets(edges, path) <= paths
  }

  lemma {:induction false} ClosedContainsChain(edges: Edges, paths: set<Path>, chain: seq<Path>)
    requires ClosedUnder(edges, paths) && Chain(edges, chain) && chain[0] in paths
    ensures chain[|chain| - 1] in paths
  {
    if |chain| > 1 {
      var shorter := chain[..|chain| - 1];
      ClosedContainsChain(edges, paths, shorter);
      assert chain[|chain| - 1] in Targets(edges, shorter[|shorter| - 1]);
    }
  }

  lemma {:induction false} FollowedIsReachable(edges: Edges, root: Path, path: Path, dependents: seq<Edge>,
                                               forest: seq<Tree>, listed: Path)
    requires Follows(edges, dependents, forest) && Reachable(edges, root, path) && listed in Paths(forest)
    requires forall edge | edge in dependents :: edge in Dependents(edges, path)
    ensures Reachable(edges, root, listed)
    decreases forest
  {
    var head := forest[0];
    assert Reachable(edges, root, head.path) by {
      var chain :| Chain(edges, chain) && chain[0] == root && chain[|chain| - 1] == path;
      var longer := chain + [head.path];
      assert dependents[0] in Dependents(edges, path);
      assert Chain(edges, longer) && longer[|longer| - 1] == head.path;
    }
    if listed in Paths(head.children) {
      FollowedIsReachable(edges, root, head.path, Dependents(edges, head.path), head.children, listed);
    } else if listed in Paths(forest[1..]) {
      FollowedIsReachable(edges, root, path, dependents[1..], forest[1..], listed);
    }
  }

  // ----- The walk -----

  /** The state shared by the recursive calls, and the bounds of the walk. */
  datatype State = State(seen: set<Path>, count: nat, truncated: bool)
  datatype Bounds = Bounds(limit: nat, depth: nat)

  /** What listing the first of some dependents at some depth has done to the state. */
  ghost predicate Listed(edges: Edges, bounds: Bounds, dependents: seq<Edge>, depth: nat, forest: seq<Tree>,
                         before: State, after: State)
  {
    && after.count == before.count + Size(forest) <= bounds.limit
    && depth + Levels(forest) <= bounds.depth
    && |forest| <= |dependents| && Follows(edges, dependents, forest)
    && after.seen == before.seen + Paths(forest)
    && Distinct(Expanded(forest))
    && (forall p :: p in Expanded(forest) <==> p in after.seen && p !in before.seen)
    && (before.truncated ==> after.truncated)
    && (after.truncated && !before.truncated ==>
          after.count == bounds.limit || depth + Levels(forest) == bounds.depth)
    && (!after.truncated ==> Full(edges, forest))
    && (!after.truncated ==> forall p :: p in after.seen && p !in before.seen ==> Targets(edges, p) <= after.seen)
  }

  lemma NothingListed(edges: Edges, bounds: Bounds, dependents: seq<Edge>, depth: nat, state: State)
    requires state.count <= bounds.limit && depth <= bounds.depth
    ensures Listed(edges, bounds, dependents, depth, [], state, state)
  {
  }

  lemma CutOff(edges: Edges, bounds: Bounds, dependents: seq<Edge>, depth: nat, forest: seq<Tree>, before: State, after: State)
    requires Listed(edges, bounds, dependents, depth, forest, before, after)
    ensures before.seen <= after.seen && after.count <= bounds.limit && (before.truncated ==> after.truncated)
    ensures after.count >= bounds.limit || depth >= bounds.depth ==>
              Listed(edges, bounds, dependents, depth, forest, before, after.(truncated := true))
  {
  }

  lemma AppendEntry(edges: Edges, bounds: Bounds, dependents: seq<Edge>, depth: nat, forest: seq<Tree>, entry: Tree,
                    before: State, middle: State, after: State)
    requires Listed(edges, bounds, dependents, depth, forest, before, middle)
    requires |forest| <= |dependents| && Listed(edges, bounds, dependents[|forest|..], depth, [entry], middle, after)
    ensures Listed(edges, bounds, dependents, depth, forest + [entry], before, after)
  {
    SizeAppends(forest, [entry]);
    PathsAppend(forest, [entry]);
    ExpandedAppends(forest, [entry]);
    FollowsAppends(edges, dependents, forest, [entry]);
    DistinctAppends(Expanded(forest), Expanded([entry]));
  }

  lemma SingleEntry(edges: Edges, dependents: seq<Edge>, entry: Tree)
    requires dependents != [] && dependents[0] == Edge(entry.path, entry.relation)
    requires if entry.repeated then entry.children == [] else Follows(edges, Dependents(edges, entry.path), entry.children)
    ensures Follows(edges, dependents, [entry])
    ensures (!entry.repeated ==> |entry.children| == |Dependents(edges, entry.path)|) && Full(edges, entry.children) ==>
              Full(edges, [entry])
    ensures Size([entry]) == 1 + Size(entry.children) && Levels([entry]) == 1 + Levels(entry.children)
    ensures Paths([entry]) == {entry.path} + Paths(entry.children)
    ensures Expanded([entry]) == (if entry.repeated then [] else [entry.path]) + Expanded(entry.children)
  {
    var forest := [entry];
    assert forest[0] == entry && forest[1..] == [];
    assert Follows(edges, dependents[1..], []) && Full(edges, []);
  }

  lemma ListedBelow(edges: Edges, bounds: Bounds, dependents: seq<Edge>, edge: Edge, depth: nat, children: seq<Tree>,
                    before: State, entered: State, after: State)
    requires dependents != [] && dependents[0] == edge && before.count < bounds.limit && depth < bounds.depth
    requires entered == State(before.seen + {edge.target}, before.count + 1, before.truncated)
    requires var repeated := edge.target in before.seen;
             if repeated then children == [] && after == entered
             else Listed(edges, bounds, Dependents(edges, edge.target), depth + 1, children, entered, after)
                  && (!after.truncated ==> |children| == |Dependents(edges, edge.target)|
                                           && Targets(edges, edge.target) <= after.seen)
    ensures Listed(edges, bounds, dependents, depth, [Tree(edge.target, edge.relation, edge.target in before.seen, children)],
                   before, after)
  {
    var repeated := edge.target in before.seen;
    var forest := [Tree(edge.target, edge.relation, repeated, children)];
    assert edge == Edge(edge.target, edge.relation);
    SingleEntry(edges, dependents, forest[0]);
    if !repeated {
      DistinctAppends([edge.target], Expanded(children));
    }
  }

  class Walker {
    const edges: Edges
    const bounds: Bounds
    var seen: set<Path>
    var count: nat
    var truncated: bool

    function Now(): State
      reads this
    {
      State(seen, count, truncated)
    }

    constructor (edges: Edges, bounds: Bounds, root: Path)
      ensures this.edges == edges && this.bounds == bounds
      ensures seen == {root} && count == 0 && !truncated
    {
      this.edges, this.bounds := edges, bounds;
      seen, count, truncated := {root}, 0, false;
    }

    method Walk(current: Path, depth: nat) returns (forest: seq<Tree>)
      requires count <= bounds.limit && depth <= bounds.depth
      modifies this
      ensures Listed(edges, bounds, Dependents(edges, current), depth, forest, old(Now()), Now())
      ensures !truncated ==> |forest| == |Dependents(edges, current)| && Targets(edges, current) <= seen
      decreases bounds.depth - depth, 1
    {
      hide Listed;
      ghost var before := Now();
      forest := [];
      var dependents := Dependents(edges, current);
      NothingListed(edges, bounds, dependents, depth, before);
      var i := 0;
      while i < |dependents|
        invariant i == |forest| <= |dependents|
        invariant Listed(edges, bounds, dependents, depth, forest, before, Now())
        invariant !truncated ==> forall j :: 0 <= j < i ==> dependents[j].target in seen
      {
        CutOff(edges, bounds, dependents, depth, forest, before, Now());
        if count >= bounds.limit || depth >= bounds.depth {
          truncated := true;
          break;
        }
        ghost var middle := Now();
        var entry := Enter(dependents[i..], depth);
        CutOff(edges, bounds, dependents[i..], depth, [entry], middle, Now());
        AppendEntry(edges, bounds, dependents, depth, forest, entry, before, middle, Now());
        forest := forest + [entry];
        i := i + 1;
      }
    }

    /** Lists one dependent, and its own dependents when it is new. */
    method Enter(dependents: seq<Edge>, depth: nat) returns (entry: Tree)
      requires count < bounds.limit && depth < bounds.depth && dependents != []
      modifies this
      ensures Listed(edges, bounds, dependents, depth, [entry], old(Now()), Now())
      ensures entry.repeated <==> dependents[0].target in old(seen)
      ensures dependents[0].target in seen
      decreases bounds.depth - depth, 0
    {
      hide Listed;
      ghost var before := Now();
      var edge := dependents[0];
      count := count + 1;
      var repeated := edge.target in seen;
      seen := seen + {edge.target};
      ghost var entered := Now();
      var children := [];
      if !repeated {
        children := Walk(edge.target, depth + 1);
        CutOff(edges, bounds, Dependents(edges, edge.target), depth + 1, children, entered, Now());
      } else {
        assert entered.seen == before.seen;
      }
      ListedBelow(edges, bounds, dependents, edge, depth, children, before, entered, Now());
      entry := Tree(edge.target, edge.relation, repeated, children);
    }
  }

  predicate Distinct(paths: seq<Path>) {
    forall i, j :: 0 <= i < j < |paths| ==> paths[i] != paths[j]
  }

  lemma DistinctAppends(first: seq<Path>, second: seq<Path>)
    requires Distinct(first) && Distinct(second)
    requires forall p :: p in first ==> p !in second
    ensures Distinct(first + second)
  {
    forall i, j | 0 <= i < j < |first + second|
      ensures (first + second)[i] != (first + second)[j]
    {
      if i < |first| <= j {
        assert first[i] in first && second[j - |first|] in second;
      }
    }
  }

  /** The preview of an object stays within its bounds and lists the dependents of each path at most once.
      Everything it lists depends on the object, and it lists everything that does unless it says it was cut
      short, which happens only at a bound. */
  method Preview(edges: Edges, root: Path, limit: nat, depthLimit: nat)
      returns (forest: seq<Tree>, count: nat, truncated: bool)
    ensures count == Size(forest) <= limit && Levels(forest) <= depthLimit
    ensures Follows(edges, Dependents(edges, root), forest)
    ensures !truncated ==> |forest| == |Dependents(edges, root)| && Full(edges, forest)
    ensures Distinct(Expanded(forest)) && root !in Expanded(forest)
    ensures truncated ==> count == limit || Levels(forest) == depthLimit
    ensures !truncated ==> forall path :: path in Paths(forest) + {root} <==> Reachable(edges, root, path)
  {
    var walker := new Walker(edges, Bounds(limit, depthLimit), root);
    forest := walker.Walk(root, 0);
    count, truncated := walker.count, walker.truncated;
    assert Chain(edges, [root]);
    forall path
      ensures path in Paths(forest) + {root} ==> Reachable(edges, root, path)
      ensures !truncated && Reachable(edges, root, path) ==> path in Paths(forest) + {root}
    {
      if path in Paths(forest) {
        FollowedIsReachable(edges, root, root, Dependents(edges, root), forest, path);
      }
      if !truncated && Reachable(edges, root, path) {
        var chain :| Chain(edges, chain) && chain[0] == root && chain[|chain| - 1] == path;
        ClosedContainsChain(edges, walker.seen, chain);
      }
    }
  }
}
