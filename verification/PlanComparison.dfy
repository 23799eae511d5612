/** Comparing the approved cleanup plan with the one live checks would produce now. */
module PlanComparison {
  import opened FindingModel
  import opened CleanupPlan

  /** Fields NSX maintains by itself. */
  const VOLATILE := {"_revision", "_last_modified_time", "_last_modified_user"}

  function Stable(resource: Row): Row {
    resource - VOLATILE
  }

  function StablePolicy(resource: Row): Row {
    resource - VOLATILE - {"rules", "children"}
  }

  // ----- Differences between two values -----

  function Both(before: Row, after: Row): set<string> {
    before.Keys + after.Keys
  }

  /** The names, from the outside in, of everything that differs. */
  function ChangedNames(before: Json, after: Json, prefix: string): set<string>
    decreases before, 1
  {
    if !before.Dict? || !after.Dict? then
      if before == after then {} else {if prefix == "" then "object presence" else prefix}
    else
      set key, name | key in Both(before.fields, after.fields) && name in ChangedUnder(before, after, key, prefix) :: name
  }

  function ChangedUnder(before: Json, after: Json, key: string, prefix: string): set<string>
    requires before.Dict? && after.Dict? && key in Both(before.fields, after.fields)
    decreases before, 0
  {
    var name := prefix + key;
    if key !in before.fields || key !in after.fields then {name}
    else if before.fields[key].Dict? && after.fields[key].Dict? then
      ChangedNames(before.fields[key], after.fields[key], name + ".")
    else if before.fields[key] != after.fields[key] then {name} else {}
  }

  method ChangedFields(before: Json, after: Json, prefix: string) returns (names: seq<string>)
    ensures forall name :: name in names <==> name in ChangedNames(before, after, prefix)
    decreases before
  {
    if !before.Dict? || !after.Dict? {
      return if before == after then [] else [if prefix == "" then "object presence" else prefix];
    }
    names := [];
    var remaining := Both(before.fields, after.fields);
    while remaining != {}
      invariant remaining <= Both(before.fields, after.fields)
      invariant forall name :: name in names <==>
                  exists key :: key in Both(before.fields, after.fields) && key !in remaining
                                && name in ChangedUnder(before, after, key, prefix)
    {
      var key :| key in remaining;
      remaining := remaining - {key};
      var under: seq<string> := [];
      if key !in before.fields || key !in after.fields {
        under := [prefix + key];
      } else if before.fields[key].Dict? && after.fields[key].Dict? {
        under := ChangedFields(before.fields[key], after.fields[key], prefix + key + ".");
      } else if before.fields[key] != after.fields[key] {
        under := [prefix + key];
      }
      assert forall name :: name in under <==> name in ChangedUnder(before, after, key, prefix);
      names := names + under;
    }
  }

  /** No difference is named exactly when there is none. */
  lemma {:induction false} NamesEveryChange(before: Json, after: Json, prefix: string)
    ensures ChangedNames(before, after, prefix) == {} <==> before == after
  {
    if before.Dict? && after.Dict? {
      forall key | key in Both(before.fields, after.fields)
        ensures ChangedUnder(before, after, key, prefix) == {} <==>
                  key in before.fields && key in after.fields && before.fields[key] == after.fields[key]
      {
        if key in before.fields && key in after.fields {
          NamesEveryChange(before.fields[key], after.fields[key], prefix + key + ".");
        }
      }
      UnderIsNamed(before, after, prefix);
      if ChangedNames(before, after, prefix) == {} {
        assert forall key | key in Both(before.fields, after.fields) :: ChangedUnder(before, after, key, prefix) == {};
        assert before.fields == after.fields;
      }
    }
  }

  lemma UnderIsNamed(before: Json, after: Json, prefix: string)
    requires before.Dict? && after.Dict?
    ensures forall key | key in Both(before.fields, after.fields) ::
              ChangedUnder(before, after, key, prefix) <= ChangedNames(before, after, prefix)
  {
  }

  /** A field is named where it differs: by itself, or by what differs inside it, behind its name and a dot. */
  lemma NamesMean(before: Json, after: Json, prefix: string, key: string)
    requires before.Dict? && after.Dict? && key in before.fields.Keys + after.fields.Keys
    ensures var inside := key in before.fields && key in after.fields && before.fields[key].Dict? && after.fields[key].Dict?;
            && (inside ==>
                  ChangedNames(before.fields[key], after.fields[key], prefix + key + ".") <= ChangedNames(before, after, prefix))
            && (!inside && !(key in before.fields && key in after.fields && before.fields[key] == after.fields[key]) ==>
                  prefix + key in ChangedNames(before, after, prefix))
  {
    UnderIsNamed(before, after, prefix);
    hide ChangedNames;
    assert ChangedUnder(before, after, key, prefix) <= ChangedNames(before, after, prefix);
  }

  /** Values that are no objects differ as a whole. */
  lemma WholeIsNamed(before: Json, after: Json, prefix: string)
    requires !before.Dict? || !after.Dict?
    ensures ChangedNames(before, after, prefix) ==
              if before == after then {} else if prefix == "" then {"object presence"} else {prefix}
  {
  }

  // ----- Differences between two plans -----

  function EditJson(edit: Edit): Json {
    Dict(map["field" := Str(NameOf(edit.field)), "before" := ListOf(edit.before), "after" := ListOf(edit.after)])
  }

  function EditsJson(edits: seq<Edit>): Json {
    List(seq(|edits|, i requires 0 <= i < |edits| => EditJson(edits[i])))
  }

  function ChangeJson(change: Change): Json {
    Dict(map["path" := Str(change.path),
             "fields" := EditsJson(change.edits),
             "before" := Dict(Stable(change.before)),
             "policy" := Dict(StablePolicy(change.policy)),
             "after" := if change.after.Some? then Dict(Stable(change.after.value)) else Null])
  }

  function PlanJson(plan: seq<Change>): Json {
    Dict(map i | 0 <= i < |plan| && forall j | i < j < |plan| :: plan[j].path != plan[i].path
           :: plan[i].path := ChangeJson(plan[i]))
  }

  /** The two changes are the same but for fields NSX maintains by itself. */
  predicate SameChange(a: Change, b: Change) {
    && a.path == b.path && a.edits == b.edits
    && Stable(a.before) == Stable(b.before) && StablePolicy(a.policy) == StablePolicy(b.policy)
    && (a.after.Some? <==> b.after.Some?)
    && (a.after.Some? ==> Stable(a.after.value) == Stable(b.after.value))
  }

  predicate OncePerPath(plan: seq<Change>) {
    forall i, j | 0 <= i < j < |plan| :: plan[i].path != plan[j].path
  }

  lemma ListOfIsInjective(a: seq<string>, b: seq<string>)
    requires ListOf(a) == ListOf(b)
    ensures a == b
  {
    ListsReadBack(a);
    ListsReadBack(b);
  }

  lemma EditJsonIsInjective(a: Edit, b: Edit)
    requires EditJson(a) == EditJson(b)
    ensures a == b
  {
    var x, y := EditJson(a).fields, EditJson(b).fields;
    assert x["before"] == y["before"] && x["after"] == y["after"] && x["field"] == y["field"];
    ListOfIsInjective(a.before, b.before);
    ListOfIsInjective(a.after, b.after);
    NamesDiffer();
  }

  lemma EditsJsonIsInjective(a: seq<Edit>, b: seq<Edit>)
    requires EditsJson(a) == EditsJson(b)
    ensures a == b
  {
    hide EditJson;
    var x, y := EditsJson(a).items, EditsJson(b).items;
    assert |x| == |a| && |y| == |b|;
    forall i | 0 <= i < |a|
      ensures a[i] == b[i]
    {
      assert x[i] == EditJson(a[i]) && y[i] == EditJson(b[i]);
      EditJsonIsInjective(a[i], b[i]);
    }
  }

  lemma ChangeJsonIff(a: Change, b: Change)
    ensures ChangeJson(a) == ChangeJson(b) <==> SameChange(a, b)
  {
    hide EditsJson, Stable, StablePolicy;
    var x, y := ChangeJson(a).fields, ChangeJson(b).fields;
    if ChangeJson(a) == ChangeJson(b) {
      assert x["path"] == y["path"] && x["fields"] == y["fields"] && x["before"] == y["before"]
          && x["policy"] == y["policy"] && x["after"] == y["after"];
      EditsJsonIsInjective(a.edits, b.edits);
    }
  }

  lemma PlanJsonAt(plan: seq<Change>, i: nat)
    requires OncePerPath(plan) && i < |plan|
    ensures PlanJson(plan).Dict? && plan[i].path in PlanJson(plan).fields
    ensures PlanJson(plan).fields[plan[i].path] == ChangeJson(plan[i])
  {
  }

  lemma PathIn(plan: seq<Change>, path: Path) returns (i: nat)
    requires OncePerPath(plan) && PlanJson(plan).Dict? && path in PlanJson(plan).fields
    ensures i < |plan| && plan[i].path == path
  {
    i :| 0 <= i < |plan| && plan[i].path == path;
  }

  predicate Has(plan: seq<Change>, change: Change) {
    exists j :: 0 <= j < |plan| && SameChange(change, plan[j])
  }

  /** Every change of one plan is among the other's. */
  predicate Among(changes: seq<Change>, plan: seq<Change>) {
    forall i | 0 <= i < |changes| :: Has(plan, changes[i])
  }

  lemma SameJsonIsAmong(first: seq<Change>, second: seq<Change>)
    requires OncePerPath(first) && OncePerPath(second) && PlanJson(first) == PlanJson(second)
    ensures Among(first, second)
  {
    hide ChangeJson, PlanJson;
    forall i | 0 <= i < |first|
      ensures Has(second, first[i])
    {
      PlanJsonAt(first, i);
      var j := PathIn(second, first[i].path);
      PlanJsonAt(second, j);
      ChangeJsonIff(first[i], second[j]);
    }
  }

  lemma AmongSameJson(first: seq<Change>, second: seq<Change>, path: Path)
    requires OncePerPath(first) && OncePerPath(second) && Among(first, second)
    requires PlanJson(first).Dict? && PlanJson(second).Dict? && path in PlanJson(first).fields
    ensures path in PlanJson(second).fields && PlanJson(first).fields[path] == PlanJson(second).fields[path]
  {
    hide ChangeJson, PlanJson;
    var i := PathIn(first, path);
    assert Has(second, first[i]);
    var j: nat :| j < |second| && SameChange(first[i], second[j]);
    PlanJsonAt(first, i);
    PlanJsonAt(second, j);
    ChangeJsonIff(first[i], second[j]);
  }

  /** The comparison reports nothing exactly when the plans make the same changes to the same rules, which had
      and will have the same configuration, under the same policies. */
  lemma NoDifferenceIff(approved: seq<Change>, current: seq<Change>)
    requires OncePerPath(approved) && OncePerPath(current)
    ensures ChangedNames(PlanJson(approved), PlanJson(current), "") == {} <==>
              Among(approved, current) && Among(current, approved)
  {
    hide ChangeJson, SameChange, Among;
    NamesEveryChange(PlanJson(approved), PlanJson(current), "");
    if PlanJson(approved) == PlanJson(current) {
      SameJsonIsAmong(approved, current);
      SameJsonIsAmong(current, approved);
    }
    if Among(approved, current) && Among(current, approved) {
      var x, y := PlanJson(approved).fields, PlanJson(current).fields;
      forall path
        ensures path in x <==> path in y
        ensures path in x && path in y ==> x[path] == y[path]
      {
        if path in x {
          AmongSameJson(approved, current, path);
        }
        if path in y {
          AmongSameJson(current, approved, path);
        }
      }
      assert x == y;
    }
  }
}
