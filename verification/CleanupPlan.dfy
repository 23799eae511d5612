/** Planning the firewall edits that free a group from every rule that uses it. */
module CleanupPlan {
  import opened Common
  import opened FindingModel
  import opened ObjectReferences

  datatype Field = SourceGroups | DestinationGroups

  const FIELDS := [SourceGroups, DestinationGroups]

  function NameOf(field: Field): string {
    match field
    case SourceGroups => "source_groups"
    case DestinationGroups => "destination_groups"
  }

  datatype Edit = Edit(field: Field, before: seq<Path>, after: seq<Path>)

  /** One rule to edit, or to delete when nothing is to come after. */
  datatype Change = Change(path: Path, before: Row, policy: Row, edits: seq<Edit>, after: Option<Row>)

  datatype Refusal =
    | TooManyRules | ProtectedGroup
    | NotALocalRule(path: Path) | NotFound(path: Path) | ProtectedRule(path: Path) | IncompleteIdentity(path: Path)
    | Negated(path: Path) | UnsupportedList(path: Path) | NotOnlyGroups(path: Path) | OtherReference(path: Path)
    | RuleInUse(path: Path)

  datatype Result<+T> = Ok(value: T) | Refused(reason: Refusal)

  // ----- Reading rules -----

  predicate Protected(resource: Row) {
    || Truthy(Get(resource, "_system_owned")) || Truthy(Get(resource, "is_default"))
    || Truthy(Get(resource, "marked_for_delete"))
    || Get(resource, "_protection") !in {Null, Str("NOT_PROTECTED")}
    || Truthy(Get(resource, "remote_path"))
  }

  function Strings(items: seq<Json>): Option<seq<string>> {
    if forall i | 0 <= i < |items| :: items[i].Str? then
      Some(seq(|items|, i requires 0 <= i < |items| && items[i].Str? => items[i].s))
    else None
  }

  function ListOf(strings: seq<string>): Json {
    List(seq(|strings|, i requires 0 <= i < |strings| => Str(strings[i])))
  }

  /** The groups on one side of a rule; an absent list is empty, and a value that is no list of strings is refused. */
  function GroupsIn(rule: Row, field: Field): Option<seq<Path>> {
    if NameOf(field) !in rule then Some([])
    else
      match rule[NameOf(field)]
      case List(items) => Strings(items)
      case _ => None
  }

  /** The policy a rule belongs to. */
  function PolicyPath(path: Path): Path {
    var parts := Parts(path);
    if |parts| < 6 then path else Join(parts[..6])
  }

  predicate Supported(rule: Row, parent: Row, path: Path) {
    && Get(rule, "path") == Str(path) && Get(rule, "resource_type") == Str("Rule")
    && Get(parent, "path") == Str(PolicyPath(path)) && Get(parent, "resource_type") == Str("SecurityPolicy")
    && !Protected(rule) && !Protected(parent) && !Truthy(Get(rule, "children"))
  }

  predicate Identifiable(rule: Row, parent: Row) {
    && Get(rule, "_revision").Num? && Truthy(Get(rule, "unique_id"))
    && Get(rule, "_create_time") != Null && Get(parent, "_revision").Num?
  }

  predicate Excludes(rule: Row) {
    || Get(rule, "sources_excluded") !in {Null, Bool(false)}
    || Get(rule, "destinations_excluded") !in {Null, Bool(false)}
  }

  predicate Indexed(index: Configuration, path: Path) {
    path in index
  }

  /** A rule may be deleted when the search index has it, nothing refers to it and it has no children. */
  predicate Removable(index: Configuration, path: Path) {
    && Indexed(index, path)
    && References(index, path) == {}
    && forall other | other in index :: !StartsWith(other, path + "/")
  }

  // ----- Editing -----

  function Without(paths: seq<Path>, group: Path): seq<Path> {
    if paths == [] then []
    else
      var last := paths[|paths| - 1];
      Without(paths[..|paths| - 1], group) + if last == group then [] else [last]
  }

  predicate Uses(rule: Row, field: Field, group: Path) {
    GroupsIn(rule, field).Some? && group in GroupsIn(rule, field).value
  }

  function Remaining(rule: Row, field: Field, group: Path): seq<Path>
    requires Uses(rule, field, group)
  {
    Without(GroupsIn(rule, field).value, group)
  }

  function Edited(rule: Row, field: Field, group: Path): Row {
    if Uses(rule, field, group) then rule[NameOf(field) := ListOf(Remaining(rule, field, group))] else rule
  }

  function Proposed(rule: Row, group: Path): Row {
    Edited(Edited(rule, SourceGroups, group), DestinationGroups, group)
  }

  function EditOf(rule: Row, field: Field, group: Path): seq<Edit> {
    if Uses(rule, field, group) then [Edit(field, GroupsIn(rule, field).value, Remaining(rule, field, group))] else []
  }

  /** The group is all there is on this side of the rule. */
  predicate Empties(rule: Row, field: Field, group: Path) {
    Uses(rule, field, group) && Remaining(rule, field, group) == []
  }

  predicate Deletes(rule: Row, group: Path) {
    Empties(rule, SourceGroups, group) || Empties(rule, DestinationGroups, group)
  }

  predicate SideIsEditable(rule: Row, field: Field, group: Path) {
    && GroupsIn(rule, field).Some?
    && (Uses(rule, field, group) ==>
          forall p | p in Remaining(rule, field, group) :: TargetType(p) == Some(Group))
  }

  predicate Plannable(live: Configuration, index: Configuration, group: Path, path: Path) {
    && TargetType(path) == Some(Rule)
    && path in live && PolicyPath(path) in live
    && var rule, parent := live[path], live[PolicyPath(path)];
       && Supported(rule, parent, path) && Identifiable(rule, parent) && !Excludes(rule)
       && (forall field | field in FIELDS :: SideIsEditable(rule, field, group))
       && (exists field | field in FIELDS :: Uses(rule, field, group))
       && Referrers(Dict(Proposed(rule, group)), path, group) == {}
       && (Deletes(rule, group) ==> Removable(index, path))
  }

  function ChangeFor(live: Configuration, group: Path, path: Path): Change
    requires path in live && PolicyPath(path) in live
  {
    var rule := live[path];
    Change(path, rule, live[PolicyPath(path)] - {"rules", "children"},
           EditOf(rule, SourceGroups, group) + EditOf(rule, DestinationGroups, group),
           if Deletes(rule, group) then None else Some(Proposed(rule, group)))
  }

  lemma EditsAreApart(rule: Row, group: Path)
    ensures GroupsIn(Edited(rule, SourceGroups, group), DestinationGroups) == GroupsIn(rule, DestinationGroups)
  {
    assert NameOf(SourceGroups) != NameOf(DestinationGroups) by {
      assert "source_groups"[0] != "destination_groups"[0];
    }
  }

  method Filter(paths: seq<Path>, group: Path) returns (remaining: seq<Path>)
    ensures remaining == Without(paths, group)
  {
    remaining := [];
    for i := 0 to |paths|
      invariant remaining == Without(paths[..i], group)
    {
      assert paths[..i + 1][..i] == paths[..i];
      if paths[i] != group {
        remaining := remaining + [paths[i]];
      }
    }
    assert paths[..|paths|] == paths;
  }

  /** Why one side cannot be edited. */
  function SideRefusal(rule: Row, field: Field, path: Path): Refusal {
    if GroupsIn(rule, field) == None then UnsupportedList(path) else NotOnlyGroups(path)
  }

  /** The first reason not to plan this rule, in the order in which they are reported. */
  function WhyNot(live: Configuration, index: Configuration, group: Path, path: Path): Refusal
    requires !Plannable(live, index, group, path)
  {
    if TargetType(path) != Some(Rule) then NotALocalRule(path)
    else if path !in live || PolicyPath(path) !in live then NotFound(path)
    else
      var rule, parent := live[path], live[PolicyPath(path)];
      if !Supported(rule, parent, path) then ProtectedRule(path)
      else if !Identifiable(rule, parent) then IncompleteIdentity(path)
      else if Excludes(rule) then Negated(path)
      else if !SideIsEditable(rule, SourceGroups, group) then SideRefusal(rule, SourceGroups, path)
      else if !SideIsEditable(rule, DestinationGroups, group) then SideRefusal(rule, DestinationGroups, path)
      else if !Uses(rule, SourceGroups, group) && !Uses(rule, DestinationGroups, group) then OtherReference(path)
      else if Referrers(Dict(Proposed(rule, group)), path, group) != {} then OtherReference(path)
      else RuleInUse(path)
  }

  /** Edits both sides of one rule. */
  method EditRule(rule: Row, group: Path, path: Path)
      returns (refusal: Option<Refusal>, proposed: Row, edits: seq<Edit>, removing: bool)
    ensures refusal == None <==> forall field | field in FIELDS :: SideIsEditable(rule, field, group)
    ensures refusal.Some? ==>
              refusal == Some(SideRefusal(rule, if SideIsEditable(rule, SourceGroups, group) then DestinationGroups
                                                else SourceGroups, path))
    ensures refusal == None ==>
              && proposed == Proposed(rule, group)
              && edits == EditOf(rule, SourceGroups, group) + EditOf(rule, DestinationGroups, group)
              && removing == Deletes(rule, group)
  {
    hide TargetType, Strings, Without;
    EditsAreApart(rule, group);
    proposed, edits, removing := rule, [], false;
    assert FIELDS == [SourceGroups, DestinationGroups];
    for i := 0 to 2
      invariant forall j | 0 <= j < i :: SideIsEditable(rule, FIELDS[j], group)
      invariant proposed == if i == 0 then rule else if i == 1 then Edited(rule, SourceGroups, group) else Proposed(rule, group)
      invariant edits == if i == 0 then [] else if i == 1 then EditOf(rule, SourceGroups, group)
                         else EditOf(rule, SourceGroups, group) + EditOf(rule, DestinationGroups, group)
      invariant removing == (|| (i > 0 && Empties(rule, SourceGroups, group))
                             || (i > 1 && Empties(rule, DestinationGroups, group)))
    {
      var field := FIELDS[i];
      assert i == 1 ==> SideIsEditable(rule, FIELDS[0], group);
      var values := GroupsIn(rule, field);
      if values == None {
        assert field in FIELDS && !SideIsEditable(rule, field, group);
        return Some(UnsupportedList(path)), proposed, edits, removing;
      }
      if group !in values.value {
        continue;
      }
      var remaining := Filter(values.value, group);
      removing := removing || remaining == [];
      if exists p | p in remaining :: TargetType(p) != Some(Group) {
        assert Uses(rule, field, group) && remaining == Remaining(rule, field, group);
        assert field in FIELDS && !SideIsEditable(rule, field, group);
        return Some(NotOnlyGroups(path)), proposed, edits, removing;
      }
      proposed := proposed[NameOf(field) := ListOf(remaining)];
      edits := edits + [Edit(field, values.value, remaining)];
    }
    refusal := None;
  }

  method PlanRule(live: Configuration, index: Configuration, group: Path, path: Path) returns (result: Result<Change>)
    ensures result.Ok? <==> Plannable(live, index, group, path)
    ensures result.Ok? ==> result.value == ChangeFor(live, group, path)
    ensures result.Refused? ==> result.reason == WhyNot(live, index, group, path)
  {
    hide TargetType, PolicyPath, SideIsEditable, Uses, Supported, Identifiable, Excludes, Removable, Referrers,
         Proposed, Deletes;
    if TargetType(path) != Some(Rule) {
      return Refused(NotALocalRule(path));
    }
    if path !in live || PolicyPath(path) !in live {
      return Refused(NotFound(path));
    }
    var rule, parent := live[path], live[PolicyPath(path)];
    if !Supported(rule, parent, path) {
      return Refused(ProtectedRule(path));
    }
    if !Identifiable(rule, parent) {
      return Refused(IncompleteIdentity(path));
    }
    if Excludes(rule) {
      return Refused(Negated(path));
    }
    var refusal, proposed, edits, removing := EditRule(rule, group, path);
    assert SourceGroups in FIELDS && DestinationGroups in FIELDS;
    if refusal.Some? {
      return Refused(refusal.value);
    }
    NoEditsMeansUnused(rule, group);
    if edits == [] || Referrers(Dict(proposed), path, group) != {} {
      return Refused(OtherReference(path));
    }
    if removing && !Removable(index, path) {
      return Refused(RuleInUse(path));
    }
    result := Ok(Change(path, rule, parent - {"rules", "children"}, edits, if removing then None else Some(proposed)));
  }

  lemma NoEditsMeansUnused(rule: Row, group: Path)
    ensures EditOf(rule, SourceGroups, group) + EditOf(rule, DestinationGroups, group) == [] <==>
              !exists field | field in FIELDS :: Uses(rule, field, group)
  {
    assert SourceGroups in FIELDS && DestinationGroups in FIELDS;
  }

  /** The whole plan, for the referring rules in a fixed order. */
  method BuildPlan(live: Configuration, index: Configuration, group: Row, groupPath: Path, refs: seq<Path>)
      returns (result: Result<seq<Change>>)
    ensures result.Ok? <==>
              |refs| <= 100 && !Protected(group) && forall path | path in refs :: Plannable(live, index, groupPath, path)
    ensures result.Ok? ==> IsPlan(result.value, live, index, groupPath, refs)
    ensures result.Refused? ==>
              if |refs| > 100 then result.reason == TooManyRules
              else if Protected(group) then result.reason == ProtectedGroup
              else exists i :: 0 <= i < |refs| && !Plannable(live, index, groupPath, refs[i])
                               && result.reason == WhyNot(live, index, groupPath, refs[i])
                               && forall j | 0 <= j < i :: Plannable(live, index, groupPath, refs[j])
  {
    hide Plannable, ChangeFor, Protected;
    if |refs| > 100 {
      return Refused(TooManyRules);
    }
    if Protected(group) {
      return Refused(ProtectedGroup);
    }
    var plan: seq<Change> := [];
    for i := 0 to |refs|
      invariant forall path | path in refs[..i] :: Plannable(live, index, groupPath, path)
      invariant IsPlan(plan, live, index, groupPath, refs[..i])
    {
      var change := PlanRule(live, index, groupPath, refs[i]);
      if change.Refused? {
        assert refs[i] in refs;
        return Refused(change.reason);
      }
      plan := plan + [change.value];
      assert refs[..i + 1] == refs[..i] + [refs[i]];
    }
    assert refs[..|refs|] == refs;
    result := Ok(plan);
  }

  ghost predicate IsPlan(plan: seq<Change>, live: Configuration, index: Configuration, group: Path, refs: seq<Path>) {
    && |plan| == |refs|
    && forall i | 0 <= i < |refs| ::
         Plannable(live, index, group, refs[i]) && plan[i] == ChangeFor(live, group, refs[i])
  }

  /** A planned change shows the rule as it is and its policy without the rules in it. */
  lemma ChangeShows(live: Configuration, group: Path, path: Path)
    requires path in live && PolicyPath(path) in live
    ensures var change, policy := ChangeFor(live, group, path), live[PolicyPath(path)];
            && change.path == path && change.before == live[path]
            && "rules" !in change.policy && "children" !in change.policy
            && forall field | field !in {"rules", "children"} ::
                 (field in change.policy <==> field in policy) && (field in policy ==> change.policy[field] == policy[field])
  {
  }

  /** The reason given is true of the rule. */
  lemma RefusalIsTrue(live: Configuration, index: Configuration, group: Path, path: Path)
    requires !Plannable(live, index, group, path)
    ensures match WhyNot(live, index, group, path)
            case NotALocalRule(p) => p == path && TargetType(path) != Some(Rule)
            case NotFound(p) => p == path && (path !in live || PolicyPath(path) !in live)
            case ProtectedRule(p) => p == path && !Supported(live[path], live[PolicyPath(path)], path)
            case IncompleteIdentity(p) => p == path && !Identifiable(live[path], live[PolicyPath(path)])
            case Negated(p) => p == path && Excludes(live[path])
            case UnsupportedList(p) =>
              p == path && (GroupsIn(live[path], SourceGroups) == None || GroupsIn(live[path], DestinationGroups) == None)
            case NotOnlyGroups(p) =>
              p == path && exists field | field in FIELDS :: Uses(live[path], field, group) && !SideIsEditable(live[path], field, group)
            case OtherReference(p) =>
              && p == path
              && ((forall field | field in FIELDS :: !Uses(live[path], field, group))
                  || Referrers(Dict(Proposed(live[path], group)), path, group) != {})
            case RuleInUse(p) => p == path && Deletes(live[path], group) && !Removable(index, path)
            case _ => false
  {
    hide TargetType, PolicyPath, Supported, Identifiable, Excludes, Removable, Referrers, Proposed, Deletes, Remaining;
    assert SourceGroups in FIELDS && DestinationGroups in FIELDS;
  }

  // ----- What carrying out a plan does -----

  function ApplyOne(c: Configuration, change: Change): Configuration {
    match change.after
    case None => c - {change.path}
    case Some(after) => c[change.path := after]
  }

  function Applied(c: Configuration, plan: seq<Change>): Configuration {
    if plan == [] then c else ApplyOne(Applied(c, plan[..|plan| - 1]), plan[|plan| - 1])
  }

  lemma {:induction false} WithoutIsExact(paths: seq<Path>, group: Path)
    ensures group !in Without(paths, group)
    ensures multiset(Without(paths, group)) == multiset(paths)[group := 0]
    ensures forall p :: p in Without(paths, group) <==> p in paths && p != group
  {
    if paths != [] {
      var before, last := paths[..|paths| - 1], paths[|paths| - 1];
      WithoutIsExact(before, group);
      assert paths == before + [last];
    }
  }

  lemma ListsReadBack(strings: seq<string>)
    ensures ListOf(strings).List? && Strings(ListOf(strings).items) == Some(strings)
  {
    var items := ListOf(strings).items;
    assert forall i | 0 <= i < |items| :: items[i] == Str(strings[i]);
    assert Strings(items).value == strings;
  }

  lemma NamesDiffer()
    ensures NameOf(SourceGroups) != NameOf(DestinationGroups)
  {
    assert "source_groups"[0] != "destination_groups"[0];
  }

  /** What one edited side looks like afterwards, and that nothing else changes. */
  lemma EditedSide(rule: Row, field: Field, group: Path)
    requires GroupsIn(rule, field).Some?
    ensures GroupsIn(Edited(rule, field, group), field) == Some(Without(GroupsIn(rule, field).value, group))
    ensures forall key | key != NameOf(field) :: (key in Edited(rule, field, group) <==> key in rule)
                                                 && (key in rule ==> Edited(rule, field, group)[key] == rule[key])
  {
    var paths := GroupsIn(rule, field).value;
    ListsReadBack(Without(paths, group));
    if group !in paths {
      WithoutUnused(paths, group);
    }
  }

  lemma {:induction false} WithoutUnused(paths: seq<Path>, group: Path)
    requires group !in paths
    ensures Without(paths, group) == paths
  {
    if paths != [] {
      var before, last := paths[..|paths| - 1], paths[|paths| - 1];
      assert paths == before + [last];
      WithoutUnused(before, group);
    }
  }

  /** An updated rule is the old rule with exactly this group taken off its sources and destinations; every
      side that was edited keeps at least one group and only local groups, in their old order. */
  lemma UpdateOnlyRemovesGroup(live: Configuration, index: Configuration, group: Path, path: Path)
    requires Plannable(live, index, group, path) && ChangeFor(live, group, path).after.Some?
    ensures var rule, after := live[path], ChangeFor(live, group, path).after.value;
            && (forall key | key !in {"source_groups", "destination_groups"} ::
                  (key in after <==> key in rule) && (key in rule ==> after[key] == rule[key]))
            && forall field | field in FIELDS ::
                 && GroupsIn(rule, field).Some?
                 && GroupsIn(after, field) == Some(Without(GroupsIn(rule, field).value, group))
                 && (Uses(rule, field, group) ==>
                       && GroupsIn(after, field).value != []
                       && forall p | p in GroupsIn(after, field).value :: TargetType(p) == Some(Group))
  {
    hide TargetType, GroupsIn, Without, Referrers, Supported, Identifiable, Excludes, Removable;
    var rule := live[path];
    var half := Edited(rule, SourceGroups, group);
    NamesDiffer();
    assert SourceGroups in FIELDS && DestinationGroups in FIELDS;
    assert SideIsEditable(rule, SourceGroups, group) && SideIsEditable(rule, DestinationGroups, group);
    EditedSide(rule, SourceGroups, group);
    EditsAreApart(rule, group);
    EditedSide(half, DestinationGroups, group);
    OtherSideStays(half, Edited(half, DestinationGroups, group));
    assert ChangeFor(live, group, path).after.value == Edited(half, DestinationGroups, group);
  }

  /** The edits shown for approval are the whole difference an update makes: for each edited side what it was and
      what it will be, and no other side changes. */
  lemma EditsShowTheDifference(live: Configuration, index: Configuration, group: Path, path: Path)
    requires Plannable(live, index, group, path) && ChangeFor(live, group, path).after.Some?
    ensures var change := ChangeFor(live, group, path);
            && change.before == live[path]
            && (forall edit | edit in change.edits ::
                  && GroupsIn(change.before, edit.field) == Some(edit.before)
                  && GroupsIn(change.after.value, edit.field) == Some(edit.after)
                  && edit.before != edit.after)
            && (forall field | field in FIELDS && GroupsIn(change.before, field) != GroupsIn(change.after.value, field) ::
                  exists edit :: edit in change.edits && edit.field == field)
  {
    hide TargetType, GroupsIn, Without, Referrers, Supported, Identifiable, Excludes, Removable, Proposed;
    UpdateOnlyRemovesGroup(live, index, group, path);
    var rule, change := live[path], ChangeFor(live, group, path);
    assert FIELDS == [SourceGroups, DestinationGroups] && SourceGroups in FIELDS && DestinationGroups in FIELDS;
    forall field | field in FIELDS
      ensures Uses(rule, field, group) ==> Without(GroupsIn(rule, field).value, group) != GroupsIn(rule, field).value
      ensures !Uses(rule, field, group) ==> GroupsIn(change.after.value, field) == GroupsIn(rule, field)
      ensures Uses(rule, field, group) <==> exists edit :: edit in change.edits && edit.field == field
    {
      WithoutIsExact(GroupsIn(rule, field).value, group);
      if !Uses(rule, field, group) {
        WithoutUnused(GroupsIn(rule, field).value, group);
      }
      EditListed(rule, field, group);
    }
  }

  lemma EditListed(rule: Row, field: Field, group: Path)
    ensures var edits := EditOf(rule, SourceGroups, group) + EditOf(rule, DestinationGroups, group);
            Uses(rule, field, group) <==> exists edit :: edit in edits && edit.field == field
  {
    hide GroupsIn, Remaining;
    var edits := EditOf(rule, SourceGroups, group) + EditOf(rule, DestinationGroups, group);
    if Uses(rule, field, group) {
      assert EditOf(rule, field, group)[0] in edits;
    }
  }

  lemma OtherSideStays(before: Row, after: Row)
    requires forall key | key != NameOf(DestinationGroups) ::
               (key in after <==> key in before) && (key in before ==> after[key] == before[key])
    ensures GroupsIn(after, SourceGroups) == GroupsIn(before, SourceGroups)
  {
    NamesDiffer();
  }

  /** A rule is deleted exactly when the group is all there is among its sources or among its destinations. */
  lemma DeletedIffNothingRemains(live: Configuration, index: Configuration, group: Path, path: Path)
    requires Plannable(live, index, group, path)
    ensures ChangeFor(live, group, path).after == None <==>
              exists field | field in FIELDS ::
                && GroupsIn(live[path], field).Some? && GroupsIn(live[path], field).value != []
                && forall p | p in GroupsIn(live[path], field).value :: p == group
  {
    hide TargetType, GroupsIn, Without, Referrers, Supported, Identifiable, Excludes, Removable;
    var rule := live[path];
    assert SourceGroups in FIELDS && DestinationGroups in FIELDS;
    forall field | field in FIELDS
      ensures Empties(rule, field, group) <==>
                && GroupsIn(rule, field).value != []
                && forall p | p in GroupsIn(rule, field).value :: p == group
    {
      assert SideIsEditable(rule, field, group);
      var paths := GroupsIn(rule, field).value;
      WithoutIsExact(paths, group);
      if Uses(rule, field, group) {
        assert Remaining(rule, field, group) == Without(paths, group);
        if Without(paths, group) != [] {
          assert Without(paths, group)[0] in Without(paths, group);
        }
      } else if paths != [] {
        assert paths[0] in paths;
      }
    }
  }

  // ----- References after the plan -----

  lemma ListsHaveNoPaths(strings: seq<string>)
    ensures NoPaths(ListOf(strings))
  {
  }

  lemma ProposedIsFlat(rule: Row, group: Path, path: Path)
    requires FlatObject(rule, path)
    ensures FlatObject(Proposed(rule, group), path)
  {
    hide NoPaths, GroupsIn, Without;
    assert NameOf(SourceGroups) != "path" && NameOf(DestinationGroups) != "path" by {
      assert |"source_groups"| != |"path"| && |"destination_groups"| != |"path"|;
    }
    var half := Edited(rule, SourceGroups, group);
    if Uses(rule, SourceGroups, group) {
      ListsHaveNoPaths(Remaining(rule, SourceGroups, group));
    }
    if Uses(half, DestinationGroups, group) {
      ListsHaveNoPaths(Remaining(half, DestinationGroups, group));
    }
  }

  /** The state of one object once the plan is carried out. */
  function Outcome(live: Configuration, group: Path, refs: seq<Path>, path: Path): Option<Row>
    requires forall p | p in refs :: p in live && PolicyPath(p) in live
  {
    if path in refs then ChangeFor(live, group, path).after
    else if path in live then Some(live[path]) else None
  }

  lemma {:induction false} AppliedOutcome(live: Configuration, index: Configuration, group: Path, refs: seq<Path>,
                                          plan: seq<Change>, path: Path)
    requires IsPlan(plan, live, index, group, refs)
    ensures forall p | p in refs :: p in live && PolicyPath(p) in live
    ensures path in Applied(live, plan) <==> Outcome(live, group, refs, path).Some?
    ensures path in Applied(live, plan) ==> Applied(live, plan)[path] == Outcome(live, group, refs, path).value
  {
    hide ChangeFor, TargetType, PolicyPath, Supported, Identifiable, Excludes, SideIsEditable, Uses, Referrers,
         Proposed, Deletes, Removable;
    if plan != [] {
      var n := |plan| - 1;
      AppliedOutcome(live, index, group, refs[..n], plan[..n], path);
      assert refs == refs[..n] + [refs[n]];
      ChangePath(live, group, refs[n]);
      assert plan[n] == ChangeFor(live, group, refs[n]);
    }
  }

  lemma ChangePath(live: Configuration, group: Path, path: Path)
    requires path in live && PolicyPath(path) in live
    ensures ChangeFor(live, group, path).path == path
  {
  }

  /** Carrying out a plan for all the rules that refer to a group leaves no reference to it. */
  lemma NothingRefersAfterwards(live: Configuration, index: Configuration, group: Path, refs: seq<Path>, plan: seq<Change>)
    requires Flat(live) && IsPlan(plan, live, index, group, refs)
    requires forall path | path in References(live, group) :: path in refs
    ensures Flat(Applied(live, plan)) && References(Applied(live, plan), group) == {}
  {
    hide Referrers, FlatObject, TargetType, PolicyPath, Supported, Identifiable, Excludes, SideIsEditable, Uses,
         Proposed, Deletes, Removable, Applied, References;
    var after := Applied(live, plan);
    forall path | path in after
      ensures FlatObject(after[path], path) && Referrers(Dict(after[path]), path, group) == {}
    {
      AppliedOutcome(live, index, group, refs, plan, path);
      if path in refs {
        var i :| 0 <= i < |refs| && refs[i] == path;
        assert Plannable(live, index, group, path);
        ProposedIsFlat(live[path], group, path);
      } else {
        ReferencesOfFlat(live, group, path);
      }
    }
    assert Flat(after);
    if References(after, group) != {} {
      var path :| path in References(after, group);
      ReferencesOfFlat(after, group, path);
    }
  }

  /** After a plan for all referrers no live object outside the group names it in any field that counts, such as
      the sources, destinations, Applied To, services and profiles of a rule. */
  lemma NoFieldNamesAfterwards(live: Configuration, index: Configuration, group: Path, refs: seq<Path>, plan: seq<Change>,
                               path: Path, key: string)
    requires Flat(live) && IsPlan(plan, live, index, group, refs)
    requires forall path | path in References(live, group) :: path in refs
    requires path in Applied(live, plan) && IsLive(Applied(live, plan)[path])
    requires path != group && !(group + "/" <= path)
    requires Counts(key)
    ensures !NamedIn(Applied(live, plan)[path], key, group)
  {
    hide IsPlan, Applied, IsLive, NamedIn, References, NoPaths, Counts;
    NothingRefersAfterwards(live, index, group, refs, plan);
    var after := Applied(live, plan);
    assert FlatObject(after[path], path);
    if NamedIn(after[path], key, group) {
      NamingIsReference(after, path, key, group);
    }
  }

  /** A rule that names the group in any other field than its sources and destinations, such as Applied To, is
      never planned. */
  lemma OtherUseIsRefused(live: Configuration, index: Configuration, group: Path, path: Path, key: string)
    requires path in live && path != group && !(group + "/" <= path)
    requires Counts(key) && key != "source_groups" && key != "destination_groups" && NamedIn(live[path], key, group)
    ensures !Plannable(live, index, group, path)
  {
    hide Counts, NamedIn, TargetType, SideIsEditable, Removable, Referrers, ListOf, Strings;
    if Plannable(live, index, group, path) {
      var rule := live[path];
      var proposed := Proposed(rule, group);
      SameNaming(rule, group, key);
      SideNameIsOrdinary(SourceGroups);
      SideNameIsOrdinary(DestinationGroups);
      assert Get(proposed, "path") == Get(rule, "path") && IsLive(proposed);
      NamingRefers(proposed, key, path, group);
    }
  }

  lemma SameNaming(rule: Row, group: Path, key: string)
    requires key != "source_groups" && key != "destination_groups"
    ensures NamedIn(Proposed(rule, group), key, group) == NamedIn(rule, key, group)
  {
    hide Uses, Remaining;
  }

  // ----- Nothing is left dangling -----

  lemma ListReferrers(strings: seq<string>, owner: string, target: Path)
    ensures Referrers(ListOf(strings), owner, target) ==
              if exists s :: s in strings && Names(s, target) && Outside(owner, target) then {owner} else {}
  {
    hide Names, Outside;
    var items := ListOf(strings).items;
    assert forall i | 0 <= i < |items| ::
             Referrers(items[i], owner, target) == if Names(strings[i], target) && Outside(owner, target) then {owner} else {};
    assert forall s | s in strings :: exists i | 0 <= i < |items| :: items[i] == Str(s);
  }

  lemma ListOfStrings(items: seq<Json>)
    requires Strings(items).Some?
    ensures ListOf(Strings(items).value) == List(items)
  {
  }

  /** Taking a group off one side adds no reference to anything. */
  lemma EditedRefersToNoMore(rule: Row, field: Field, group: Path, owner: string, target: Path)
    ensures Referrers(Dict(Edited(rule, field, group)), owner, target) <= Referrers(Dict(rule), owner, target)
  {
    hide Names, Outside, Truthy, Strings, ListOf;
    if Uses(rule, field, group) {
      var after, name := Edited(rule, field, group), NameOf(field);
      var before, rest := GroupsIn(rule, field).value, Remaining(rule, field, group);
      WithoutIsExact(before, group);
      assert name in rule;
      ListOfStrings(rule[name].items);
      assert OwnerIn(after, owner) == OwnerIn(rule, owner) && Ignored(after) == Ignored(rule) by {
        SideNameIsOrdinary(field);
      }
      ListReferrers(before, OwnerIn(rule, owner), target);
      ListReferrers(rest, OwnerIn(rule, owner), target);
      assert Referrers(after[name], OwnerIn(rule, owner), target) <= Referrers(rule[name], OwnerIn(rule, owner), target);
    }
  }

  lemma SideNameIsOrdinary(field: Field)
    ensures NameOf(field) !in {"path", "marked_for_delete", "resource_type"}
  {
    assert |"path"| == 4 && |"marked_for_delete"| == 17 && |"resource_type"| == 13 && |"source_groups"| == 13;
    assert "resource_type"[0] != "source_groups"[0];
    assert |"destination_groups"| == 18;
  }

  /** No object refers to a deleted rule once the plan is carried out. */
  lemma NothingDangles(live: Configuration, group: Path, refs: seq<Path>, plan: seq<Change>, i: nat)
    requires Flat(live) && IsPlan(plan, live, live, group, refs) && i < |plan| && plan[i].after == None
    ensures plan[i].path !in Applied(live, plan)
    ensures References(Applied(live, plan), plan[i].path) == {}
  {
    hide Referrers, FlatObject, TargetType, PolicyPath, Supported, Identifiable, Excludes, SideIsEditable, Uses,
         Deletes, Applied, References, Edited;
    var rule := plan[i].path;
    ChangePath(live, group, refs[i]);
    assert rule == refs[i] && rule in refs;
    assert Plannable(live, live, group, rule) && Removable(live, rule) && References(live, rule) == {};
    AppliedOutcome(live, live, group, refs, plan, rule);
    var after := Applied(live, plan);
    forall path | path in after
      ensures FlatObject(after[path], path) && Referrers(Dict(after[path]), path, rule) == {}
    {
      AppliedOutcome(live, live, group, refs, plan, path);
      ReferencesOfFlat(live, rule, path);
      if path in refs {
        var j :| 0 <= j < |refs| && refs[j] == path;
        ProposedIsFlat(live[path], group, path);
        var half := Edited(live[path], SourceGroups, group);
        EditedRefersToNoMore(live[path], SourceGroups, group, path, rule);
        EditedRefersToNoMore(half, DestinationGroups, group, path, rule);
      }
    }
    assert Flat(after);
    if References(after, rule) != {} {
      var path :| path in References(after, rule);
      ReferencesOfFlat(after, rule, path);
    }
  }

  // ----- Which rules can be planned, field by field -----

  /** NSX, or its global manager, owns the object or is already deleting it. */
  predicate Untouchable(resource: Row) {
    || Truthy(Get(resource, "_system_owned")) || Truthy(Get(resource, "is_default"))
    || Truthy(Get(resource, "marked_for_delete")) || Truthy(Get(resource, "remote_path"))
    || (Get(resource, "_protection") != Null && Get(resource, "_protection") != Str("NOT_PROTECTED"))
  }

  /** The side is absent or a list of texts. */
  predicate TextList(rule: Row, key: string) {
    key in rule ==>
      rule[key].List? && forall i | 0 <= i < |rule[key].items| :: rule[key].items[i].Str?
  }

  predicate Mentions(rule: Row, key: string, group: Path) {
    key in rule && rule[key].List? && Str(group) in rule[key].items
  }

  /** Besides the group only local groups. */
  ghost predicate OtherwiseLocalGroups(rule: Row, key: string, group: Path)
    requires TextList(rule, key)
  {
    key in rule ==>
      forall i | 0 <= i < |rule[key].items| :: rule[key].items[i].s != group ==> Located(rule[key].items[i].s, Group)
  }

  /** The rule and its policy are local, unprotected, identified and not negated. */
  predicate Fit(rule: Row, parent: Row, path: Path, policy: Path) {
    && Get(rule, "path") == Str(path) && Get(rule, "resource_type") == Str("Rule")
    && Get(parent, "path") == Str(policy) && Get(parent, "resource_type") == Str("SecurityPolicy")
    && !Untouchable(rule) && !Untouchable(parent) && !Truthy(Get(rule, "children"))
    && Get(rule, "_revision").Num? && Truthy(Get(rule, "unique_id")) && Get(rule, "_create_time") != Null
    && Get(parent, "_revision").Num?
    && Get(rule, "sources_excluded") in {Null, Bool(false)} && Get(rule, "destinations_excluded") in {Null, Bool(false)}
  }

  lemma FitIff(rule: Row, parent: Row, path: Path)
    ensures Supported(rule, parent, path) && Identifiable(rule, parent) && !Excludes(rule) <==>
              Fit(rule, parent, path, PolicyPath(path))
  {
    hide PolicyPath, Truthy;
  }

  lemma SideIff(rule: Row, field: Field, key: string, group: Path)
    requires key == if field == SourceGroups then "source_groups" else "destination_groups"
    ensures SideIsEditable(rule, field, group) && Uses(rule, field, group) <==>
              TextList(rule, key) && Mentions(rule, key, group) && OtherwiseLocalGroups(rule, key, group)
    ensures SideIsEditable(rule, field, group) && !Uses(rule, field, group) <==>
              TextList(rule, key) && !Mentions(rule, key, group)
  {
    hide TargetType, Located;
    assert NameOf(field) == key;
    if key in rule && rule[key].List? && Strings(rule[key].items).Some? {
      var items, paths := rule[key].items, Strings(rule[key].items).value;
      assert GroupsIn(rule, field) == Some(paths) && |paths| == |items|;
      assert forall i | 0 <= i < |items| :: items[i] == Str(paths[i]);
      WithoutIsExact(paths, group);
      assert group in paths <==> Str(group) in items;
      if group in paths {
        assert Remaining(rule, field, group) == Without(paths, group);
        forall p
          ensures TargetType(p) == Some(Group) <==> Located(p, Group)
        {
          TargetTypeIff(p, Group);
        }
        assert (forall p | p in Without(paths, group) :: TargetType(p) == Some(Group)) <==>
                 forall i | 0 <= i < |items| :: items[i].s != group ==> Located(items[i].s, Group) by {
          OthersAreGroups(paths, group);
        }
      }
    }
  }

  lemma OthersAreGroups(paths: seq<Path>, group: Path)
    ensures (forall p | p in Without(paths, group) :: Located(p, Group)) <==>
              forall i | 0 <= i < |paths| :: paths[i] != group ==> Located(paths[i], Group)
  {
    hide Located;
    WithoutIsExact(paths, group);
    if forall p | p in Without(paths, group) :: Located(p, Group) {
      forall i | 0 <= i < |paths| && paths[i] != group
        ensures Located(paths[i], Group)
      {
        assert paths[i] in paths && paths[i] in Without(paths, group);
      }
    }
  }

  /** A rule can be planned exactly when it is local, fit, uses the group as source or destination beside local
      groups only, names it nowhere else, and, if it is to be deleted, nothing refers to it or lies below it. */
  lemma PlannableIff(live: Configuration, index: Configuration, group: Path, path: Path)
    ensures Plannable(live, index, group, path) <==>
              && Located(path, Rule) && path in live && PolicyPath(path) in live
              && Fit(live[path], live[PolicyPath(path)], path, PolicyPath(path))
              && TextList(live[path], "source_groups") && TextList(live[path], "destination_groups")
              && (Mentions(live[path], "source_groups", group) || Mentions(live[path], "destination_groups", group))
              && (Mentions(live[path], "source_groups", group) ==> OtherwiseLocalGroups(live[path], "source_groups", group))
              && (Mentions(live[path], "destination_groups", group) ==>
                    OtherwiseLocalGroups(live[path], "destination_groups", group))
              && Referrers(Dict(Proposed(live[path], group)), path, group) == {}
              && (Deletes(live[path], group) ==>
                    path in index && References(index, path) == {} && forall other | other in index :: !(path + "/" <= other))
  {
    hide TargetType, Located, PolicyPath, Fit, Supported, Identifiable, Excludes, TextList, Mentions, OtherwiseLocalGroups,
         SideIsEditable, Uses, Referrers, Proposed, Deletes, References;
    TargetTypeIff(path, Rule);
    assert SourceGroups in FIELDS && DestinationGroups in FIELDS;
    assert forall field | field in FIELDS :: field == SourceGroups || field == DestinationGroups;
    if path in live && PolicyPath(path) in live {
      FitIff(live[path], live[PolicyPath(path)], path);
      SideIff(live[path], SourceGroups, "source_groups", group);
      SideIff(live[path], DestinationGroups, "destination_groups", group);
    }
  }

  /** The policy of a rule is the part of its path before the rules. */
  lemma PolicyOfRule(domain: string, policy: string, rule: string)
    requires Segment(domain) && Segment(policy) && Segment(rule)
    ensures PolicyPath(Join(["", "infra", "domains", domain, "security-policies", policy, "rules", rule]))
         == Join(["", "infra", "domains", domain, "security-policies", policy])
  {
    hide Join, Parts, Segment;
    var names := [domain, policy, rule];
    LocatedIsSafe(Rule, names);
    var parts := ["", "infra", "domains", domain, "security-policies", policy, "rules", rule];
    assert parts == PartsFor(Rule, names);
    assert parts[..6] == ["", "infra", "domains", domain, "security-policies", policy];
  }
}
