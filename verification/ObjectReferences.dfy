/** Paths of configuration objects, and who refers to an object. */
module ObjectReferences {
  import opened Common
  import opened FindingModel

  datatype ObjectType = Group | Service | Rule | SecurityPolicy

  /** The parts of a path between slashes. */
  function Parts(path: Path): (parts: seq<string>)
    ensures |parts| > 0
  {
    if path == "" then [""]
    else
      var rest := Parts(path[1..]);
      if path[0] == '/' then [""] + rest else [[path[0]] + rest[0]] + rest[1..]
  }

  function Join(parts: seq<string>): string
    requires parts != []
  {
    if |parts| == 1 then parts[0] else parts[0] + "/" + Join(parts[1..])
  }

  /** The parts hold no slash, and joined by slashes they are the path again. */
  lemma {:induction false} PartsJoin(path: Path)
    ensures Join(Parts(path)) == path
    ensures forall i | 0 <= i < |Parts(path)| :: '/' !in Parts(path)[i]
  {
    if path != "" {
      var rest := Parts(path[1..]);
      PartsJoin(path[1..]);
      assert path == [path[0]] + path[1..];
      if path[0] == '/' {
        assert ([""] + rest)[1..] == rest && "" + "/" == "/";
      } else {
        var first := [path[0]] + rest[0];
        assert ([first] + rest[1..])[1..] == rest[1..];
        if |rest| > 1 {
          assert first + "/" + Join(rest[1..]) == [path[0]] + (rest[0] + "/" + Join(rest[1..]));
        }
      }
    }
  }

  lemma {:induction false} PartsOfJoin(parts: seq<string>)
    requires parts != [] && forall i | 0 <= i < |parts| :: '/' !in parts[i]
    ensures Parts(Join(parts)) == parts
    decreases |parts|, |parts[0]|
  {
    var path := Join(parts);
    if parts[0] == "" {
      if |parts| > 1 {
        assert path[1..] == Join(parts[1..]);
        PartsOfJoin(parts[1..]);
      }
    } else {
      var shorter := parts[0 := parts[0][1..]];
      assert shorter[1..] == parts[1..];
      assert path == [parts[0][0]] + Join(shorter);
      assert parts[0][0] in parts[0];
      PartsOfJoin(shorter);
      assert parts[0] == [parts[0][0]] + parts[0][1..];
    }
  }

  predicate Unsafe(path: Path) {
    || (exists part | part in Parts(path) :: part == "." || part == "..")
    || (exists c | c in path :: c in "%?#\\\r\n")
  }

  /** The kind of object a local path names, if it is one that may be edited or deleted. */
  function TargetType(path: Path): Option<ObjectType> {
    var parts := Parts(path);
    if Unsafe(path) || |parts| < 4 || parts[..2] != ["", "infra"] || (exists part | part in parts[2..] :: part == "") then None
    else if |parts| == 4 && parts[2] == "services" then Some(Service)
    else if parts[2] != "domains" then None
    else if |parts| == 6 && parts[4] == "groups" then Some(Group)
    else if |parts| == 6 && parts[4] == "security-policies" then Some(SecurityPolicy)
    else if |parts| == 8 && parts[4] == "security-policies" && parts[6] == "rules" then Some(Rule)
    else None
  }

  /** A name of an object in a path. */
  predicate Segment(s: string) {
    s !in {"", ".", ".."} && forall i | 0 <= i < |s| :: s[i] !in {'/', '%', '?', '#', '\\', '\r', '\n'}
  }

  function PartsFor(kind: ObjectType, names: seq<string>): seq<string> {
    match kind
    case Service => if |names| == 1 then ["", "infra", "services", names[0]] else []
    case Group => if |names| == 2 then ["", "infra", "domains", names[0], "groups", names[1]] else []
    case SecurityPolicy => if |names| == 2 then ["", "infra", "domains", names[0], "security-policies", names[1]] else []
    case Rule =>
      if |names| == 3 then ["", "infra", "domains", names[0], "security-policies", names[1], "rules", names[2]] else []
  }

  ghost predicate Located(path: Path, kind: ObjectType) {
    exists names: seq<string> ::
      PartsFor(kind, names) != [] && path == Join(PartsFor(kind, names)) && AllSegments(names)
  }

  predicate AllSegments(names: seq<string>) {
    forall i | 0 <= i < |names| :: Segment(names[i])
  }

  /** Paths of this shape, with ordinary names, are those of objects of this kind, and no others. */
  lemma TargetTypeIff(path: Path, kind: ObjectType)
    ensures TargetType(path) == Some(kind) <==> Located(path, kind)
  {
    hide TargetType, Join, PartsFor, AllSegments;
    if TargetType(path) == Some(kind) {
      TypedIsLocated(path, kind);
    }
    if Located(path, kind) {
      var names :| PartsFor(kind, names) != [] && path == Join(PartsFor(kind, names)) && AllSegments(names);
      LocatedIsTyped(kind, names);
    }
  }

  lemma TypedIsLocated(path: Path, kind: ObjectType)
    requires TargetType(path) == Some(kind)
    ensures Located(path, kind)
  {
    hide Join, Parts, Segment, Unsafe;
    PartsJoin(path);
    var parts := Parts(path);
    var names := match kind
                 case Service => [parts[3]]
                 case Group | SecurityPolicy => [parts[3], parts[5]]
                 case Rule => [parts[3], parts[5], parts[7]];
    ShapeOf(parts, kind);
    assert parts == PartsFor(kind, names);
    PartsAreFilled(path);
    SafeNames(path, names);
  }

  lemma PartsAreFilled(path: Path)
    requires TargetType(path).Some?
    ensures forall i | 2 <= i < |Parts(path)| :: Parts(path)[i] != ""
  {
    hide Parts, Unsafe;
    var parts := Parts(path);
    assert forall part | part in parts[2..] :: part != "";
    forall i | 2 <= i < |parts|
      ensures parts[i] != ""
    {
      assert parts[2..][i - 2] in parts[2..];
    }
  }

  lemma LocatedIsTyped(kind: ObjectType, names: seq<string>)
    requires PartsFor(kind, names) != [] && AllSegments(names)
    ensures TargetType(Join(PartsFor(kind, names))) == Some(kind)
  {
    hide Join, Parts, Segment, Unsafe;
    LocatedIsSafe(kind, names);
    NamesAreFilled(names);
  }

  lemma NamesAreFilled(names: seq<string>)
    requires AllSegments(names)
    ensures forall i | 0 <= i < |names| :: names[i] != ""
  {
  }

  lemma ShapeOf(parts: seq<string>, kind: ObjectType)
    requires |parts| >= 4 && parts[..2] == ["", "infra"]
    requires match kind
             case Service => |parts| == 4 && parts[2] == "services"
             case Group => |parts| == 6 && parts[2] == "domains" && parts[4] == "groups"
             case SecurityPolicy => |parts| == 6 && parts[2] == "domains" && parts[4] == "security-policies"
             case Rule => |parts| == 8 && parts[2] == "domains" && parts[4] == "security-policies" && parts[6] == "rules"
    ensures parts == match kind
                     case Service => ["", "infra", "services", parts[3]]
                     case Group => ["", "infra", "domains", parts[3], "groups", parts[5]]
                     case SecurityPolicy => ["", "infra", "domains", parts[3], "security-policies", parts[5]]
                     case Rule => ["", "infra", "domains", parts[3], "security-policies", parts[5], "rules", parts[7]]
  {
    assert parts[0] == parts[..2][0] && parts[1] == parts[..2][1];
  }

  /** The parts of a safe path without empty ones are ordinary names. */
  lemma SafeNames(path: Path, names: seq<string>)
    requires !Unsafe(path) && forall i | 0 <= i < |names| :: names[i] in Parts(path) && names[i] != ""
    ensures AllSegments(names)
  {
    hide Parts;
    PartsJoin(path);
    forall i, k | 0 <= i < |names| && 0 <= k < |names[i]|
      ensures names[i][k] !in {'/', '%', '?', '#', '\\', '\r', '\n'}
    {
      var j :| 0 <= j < |Parts(path)| && Parts(path)[j] == names[i];
      assert '/' !in Parts(path)[j] && names[i][k] in names[i];
      CharIsInPath(Parts(path), j, names[i][k]);
      assert names[i][k] !in "%?#\\\r\n";
      BadChars(names[i][k]);
    }
  }

  lemma BadChars(c: char)
    ensures c in "%?#\\\r\n" <==> c in {'%', '?', '#', '\\', '\r', '\n'}
  {
    var bad := "%?#\\\r\n";
    assert |bad| == 6 && bad[0] == '%' && bad[1] == '?' && bad[2] == '#' && bad[3] == '\\' && bad[4] == '\r' && bad[5] == '\n';
  }

  lemma {:induction false} CharIsInPath(parts: seq<string>, j: nat, c: char)
    requires j < |parts| && c in parts[j]
    ensures c in Join(parts)
  {
    if j > 0 {
      CharIsInPath(parts[1..], j - 1, c);
    }
  }

  lemma {:induction false} CharComesFromPart(parts: seq<string>, c: char)
    requires parts != [] && c in Join(parts) && c != '/'
    ensures exists j :: 0 <= j < |parts| && c in parts[j]
  {
    if |parts| > 1 && c !in parts[0] {
      assert c !in "/";
      CharComesFromPart(parts[1..], c);
      var j :| 0 <= j < |parts[1..]| && c in parts[1..][j];
      assert c in parts[j + 1];
    }
  }

  /** Ordinary names make a safe path, which divides into the same parts again. */
  lemma LocatedIsSafe(kind: ObjectType, names: seq<string>)
    requires PartsFor(kind, names) != [] && AllSegments(names)
    ensures !Unsafe(Join(PartsFor(kind, names))) && Parts(Join(PartsFor(kind, names))) == PartsFor(kind, names)
  {
    hide Parts, Join;
    var parts := PartsFor(kind, names);
    forall i | 0 <= i < |parts|
      ensures '/' !in parts[i] && parts[i] != "." && parts[i] != ".."
      ensures forall c | c in parts[i] :: c !in "%?#\\\r\n"
    {
      PartIsOrdinary(kind, names, i);
    }
    PartsOfJoin(parts);
    forall c | c in Join(parts)
      ensures c !in "%?#\\\r\n"
    {
      BadChars(c);
      if c != '/' {
        CharComesFromPart(parts, c);
      }
    }
    assert forall part | part in parts :: part != "." && part != "..";
  }

  lemma PartIsOrdinary(kind: ObjectType, names: seq<string>, i: nat)
    requires PartsFor(kind, names) != [] && AllSegments(names) && i < |PartsFor(kind, names)|
    ensures var part := PartsFor(kind, names)[i];
            '/' !in part && part != "." && part != ".." && forall c | c in part :: c !in "%?#\\\r\n"
  {
    var part := PartsFor(kind, names)[i];
    if part in {"", "infra", "services", "domains", "groups", "security-policies", "rules"} {
      FixedParts(part);
    } else {
      assert exists k :: 0 <= k < |names| && part == names[k];
      var k :| 0 <= k < |names| && part == names[k];
      assert Segment(names[k]);
      forall c | c in part
        ensures c != '/' && c !in "%?#\\\r\n"
      {
        BadChars(c);
      }
    }
  }

  lemma FixedParts(part: string)
    requires part in {"", "infra", "services", "domains", "groups", "security-policies", "rules"}
    ensures '/' !in part && part != "." && part != ".." && forall c | c in part :: c !in "%?#\\\r\n"
  {
    forall c | c in part
      ensures c !in "%?#\\\r\n"
    {
      BadChars(c);
    }
  }

  // ----- References -----

  const NON_REFERENCE_FIELDS := {"path", "parent_path", "relative_path", "unique_id", "realization_id", "id",
                                 "display_name", "description", "tags", "remote_path"}

  predicate StartsWith(s: string, prefix: string) {
    prefix <= s
  }

  /** A service entry's path stands for its service. */
  function BeforeEntries(s: string): string {
    if s == "" || StartsWith(s, "/service-entries/") then "" else [s[0]] + BeforeEntries(s[1..])
  }

  predicate Names(s: string, target: Path) {
    s == target || BeforeEntries(s) == target
  }

  /** An object and its own children are no outside users of it. */
  predicate Outside(owner: string, target: Path) {
    owner != target && !StartsWith(owner, target + "/")
  }

  predicate Ignored(fields: Row) {
    Truthy(Get(fields, "marked_for_delete")) || Get(fields, "resource_type") == Str("GenericPolicyRealizedResource")
  }

  predicate Searched(key: string) {
    !StartsWith(key, "_") && key !in NON_REFERENCE_FIELDS
  }

  function OwnerIn(fields: Row, owner: string): string {
    match Get(fields, "path")
    case Str(path) => path
    case _ => owner
  }

  /** The owners in whose configuration the target is named. */
  function Referrers(value: Json, owner: string, target: Path): set<string> {
    match value
    case Dict(fields) =>
      if Ignored(fields) then {}
      else set key, r | key in fields && Searched(key) && r in Referrers(fields[key], OwnerIn(fields, owner), target) :: r
    case List(items) => set i, r | 0 <= i < |items| && r in Referrers(items[i], owner, target) :: r
    case Str(s) => if Names(s, target) && Outside(owner, target) then {owner} else {}
    case _ => {}
  }

  // ----- A flat configuration -----

  /** Only the object itself has a path, not the values inside it. */
  predicate NoPaths(value: Json) {
    match value
    case Dict(fields) => "path" !in fields && forall key | key in fields :: NoPaths(fields[key])
    case List(items) => forall i | 0 <= i < |items| :: NoPaths(items[i])
    case _ => true
  }

  predicate FlatObject(resource: Row, path: Path) {
    Get(resource, "path") == Str(path) && forall key | key in resource && key != "path" :: NoPaths(resource[key])
  }

  type Configuration = map<Path, Row>

  predicate Flat(c: Configuration) {
    forall path | path in c :: FlatObject(c[path], path)
  }

  function References(c: Configuration, target: Path): set<string> {
    set path, r | path in c && r in Referrers(Dict(c[path]), path, target) :: r
  }

  lemma {:induction false} NestedReferrersAreOwner(value: Json, owner: string, target: Path)
    requires NoPaths(value)
    ensures Referrers(value, owner, target) <= {owner}
  {
    match value
    case Dict(fields) =>
      forall key | key in fields
        ensures Referrers(fields[key], owner, target) <= {owner}
      {
        NestedReferrersAreOwner(fields[key], owner, target);
      }
    case List(items) =>
      forall i | 0 <= i < |items|
        ensures Referrers(items[i], owner, target) <= {owner}
      {
        NestedReferrersAreOwner(items[i], owner, target);
      }
    case _ =>
  }

  lemma FlatReferrersAreSelf(resource: Row, path: Path, target: Path)
    requires FlatObject(resource, path)
    ensures Referrers(Dict(resource), path, target) <= {path}
  {
    hide NoPaths;
    forall key | key in resource && Searched(key)
      ensures Referrers(resource[key], path, target) <= {path}
    {
      NestedReferrersAreOwner(resource[key], path, target);
    }
  }

  /** In a flat configuration an object is a referrer exactly when its own configuration names the target. */
  lemma ReferencesOfFlat(c: Configuration, target: Path, path: Path)
    requires Flat(c)
    ensures path in References(c, target) <==> path in c && Referrers(Dict(c[path]), path, target) != {}
  {
    hide Referrers, FlatObject;
    forall p | p in c
      ensures Referrers(Dict(c[p]), p, target) <= {p}
    {
      FlatReferrersAreSelf(c[p], p, target);
    }
  }

  // ----- What counts as a reference, field by field -----

  /** The value is the path itself, or a list that holds it. */
  predicate Holds(value: Json, path: Path) {
    value == Str(path) || (value.List? && Str(path) in value.items)
  }

  predicate NamedIn(resource: Row, key: string, path: Path) {
    key in resource && Holds(resource[key], path)
  }

  /** Every field but those for identity and presentation counts. */
  predicate Counts(key: string) {
    && !("_" <= key)
    && key !in {"path", "parent_path", "relative_path", "unique_id", "realization_id", "id", "display_name",
                "description", "tags", "remote_path"}
  }

  lemma ReferringFieldsCount(key: string)
    requires key in {"source_groups", "destination_groups", "scope", "services", "profiles"}
    ensures Counts(key)
  {
    assert key[0] in {'s', 'd', 'p'};
    assert |"path"| == 4 && |"parent_path"| == 11 && |"relative_path"| == 13 && |"unique_id"| == 9 && |"id"| == 2
        && |"realization_id"| == 14 && |"display_name"| == 12 && |"description"| == 11 && |"tags"| == 4 && |"remote_path"| == 11;
    assert |"source_groups"| == 13 && |"destination_groups"| == 18 && |"scope"| == 5 && |"services"| == 8 && |"profiles"| == 8;
    assert "source_groups"[0] != "relative_path"[0];
  }

  predicate IsLive(resource: Row) {
    !Truthy(Get(resource, "marked_for_delete")) && Get(resource, "resource_type") != Str("GenericPolicyRealizedResource")
  }

  lemma NamingRefers(resource: Row, key: string, path: Path, target: Path)
    requires IsLive(resource) && Get(resource, "path") == Str(path)
    requires path != target && !(target + "/" <= path)
    requires Counts(key) && NamedIn(resource, key, target)
    ensures path in Referrers(Dict(resource), path, target)
  {
    var value := resource[key];
    assert path in Referrers(value, path, target) by {
      if value.List? {
        var i :| 0 <= i < |value.items| && value.items[i] == Str(target);
        assert Referrers(value.items[i], path, target) == {path};
      }
    }
    assert Searched(key) && OwnerIn(resource, path) == path;
    assert path in Referrers(resource[key], OwnerIn(resource, path), target);
  }

  /** A live object that names the target under any such field is a referrer of it, unless it is the target itself
      or lies below it. */
  lemma NamingIsReference(c: Configuration, path: Path, key: string, target: Path)
    requires path in c && IsLive(c[path]) && Get(c[path], "path") == Str(path)
    requires path != target && !(target + "/" <= path)
    requires Counts(key) && NamedIn(c[path], key, target)
    ensures path in References(c, target)
  {
    hide Referrers, IsLive, Counts, NamedIn;
    NamingRefers(c[path], key, path, target);
  }

  lemma MarksCount()
    ensures Counts("marked_for_delete") && Counts("resource_type")
  {
    assert "marked_for_delete"[0] == 'm' && "resource_type"[0] == 'r' && "_"[0] == '_';
    assert |"path"| == 4 && |"parent_path"| == 11 && |"relative_path"| == 13 && |"unique_id"| == 9 && |"id"| == 2
        && |"realization_id"| == 14 && |"display_name"| == 12 && |"description"| == 11 && |"tags"| == 4 && |"remote_path"| == 11;
    assert |"marked_for_delete"| == 17 && |"resource_type"| == 13;
    assert "relative_path"[2] == 'l' && "resource_type"[2] == 's';
  }

  /** Other fields never make a referrer, whatever they hold. */
  lemma OtherFieldsDoNotCount(resource: Row, key: string, value: Json, owner: string, target: Path)
    requires !Counts(key) && key != "path"
    ensures Referrers(Dict(resource[key := value]), owner, target) == Referrers(Dict(resource), owner, target)
  {
    var changed := resource[key := value];
    MarksCount();
    assert Get(changed, "path") == Get(resource, "path") && Ignored(changed) == Ignored(resource);
    assert !Searched(key);
    hide Ignored, Searched, Referrers;
    FewerUsers(changed, resource, owner, target);
    FewerUsers(resource, changed, owner, target);
  }

  lemma FewerUsers(smaller: Row, larger: Row, owner: string, target: Path)
    requires forall key | key in smaller && Searched(key) :: key in larger && larger[key] == smaller[key]
    requires Get(smaller, "path") == Get(larger, "path") && Ignored(smaller) == Ignored(larger)
    ensures Referrers(Dict(smaller), owner, target) <= Referrers(Dict(larger), owner, target)
  {
    hide Ignored, Searched;
    forall r | r in Referrers(Dict(smaller), owner, target)
      ensures r in Referrers(Dict(larger), owner, target)
    {
      var key :| key in smaller && Searched(key) && r in Referrers(smaller[key], OwnerIn(smaller, owner), target);
      assert OwnerIn(larger, owner) == OwnerIn(smaller, owner) && !Ignored(larger);
      assert r in Referrers(larger[key], OwnerIn(larger, owner), target);
    }
  }

  /** Deleted objects and realisation records refer to nothing. */
  lemma DeadReferToNothing(resource: Row, owner: string, target: Path)
    requires !IsLive(resource)
    ensures Referrers(Dict(resource), owner, target) == {}
  {
  }

  /** Neither the target nor anything below it is its own user. */
  lemma {:induction false} UsersAreOutside(value: Json, owner: string, target: Path, r: string)
    requires r in Referrers(value, owner, target)
    ensures r != target && !(target + "/" <= r)
  {
    match value
    case Dict(fields) =>
      var key :| key in fields && Searched(key) && r in Referrers(fields[key], OwnerIn(fields, owner), target);
      UsersAreOutside(fields[key], OwnerIn(fields, owner), target, r);
    case List(items) =>
      var i :| 0 <= i < |items| && r in Referrers(items[i], owner, target);
      UsersAreOutside(items[i], owner, target, r);
    case _ =>
  }

  /** Only the path itself, or a service entry below it, names an object. */
  lemma {:induction false} NamesMeans(s: string, target: Path)
    requires Names(s, target)
    ensures s == target || target + "/service-entries/" <= s
  {
    BeforeEntriesIsPrefix(s);
  }

  lemma {:induction false} BeforeEntriesIsPrefix(s: string)
    ensures BeforeEntries(s) == s || BeforeEntries(s) + "/service-entries/" <= s
  {
    if s != "" && !StartsWith(s, "/service-entries/") {
      BeforeEntriesIsPrefix(s[1..]);
      PrefixGrows(s[0], BeforeEntries(s[1..]), "/service-entries/", s[1..]);
      assert s == [s[0]] + s[1..];
    } else if s != "" {
      assert [] + "/service-entries/" == "/service-entries/";
    }
  }

  lemma PrefixGrows(c: char, first: string, second: string, s: string)
    requires first == s || first + second <= s
    ensures [c] + first == [c] + s || ([c] + first) + second <= [c] + s
  {
    if first != s {
      assert ([c] + first) + second == [c] + (first + second);
      assert forall i | 0 <= i < |first + second| :: (first + second)[i] == s[i];
    }
  }

  /** A service entry's path stands for its service. */
  lemma {:induction false} EntryNames(target: Path, rest: string)
    requires forall i | 0 <= i < |target| :: !("/service-entries/" <= (target + "/service-entries/" + rest)[i..])
    ensures BeforeEntries(target + "/service-entries/" + rest) == target
  {
    var s := target + "/service-entries/" + rest;
    if target == "" {
      assert s == "/service-entries/" + rest;
    } else {
      assert s[0..] == s && s[1..] == target[1..] + "/service-entries/" + rest;
      forall i | 0 <= i < |target[1..]|
        ensures !("/service-entries/" <= (target[1..] + "/service-entries/" + rest)[i..])
      {
        assert s[1..][i..] == s[i + 1..];
      }
      EntryNames(target[1..], rest);
    }
  }
}
