/** `findJsonPath`: where in the document a firing rule points. A pre-order walk
    records the path of every object member whose string value contains the search
    term or whose key contains one of the key hints; the first recorded path wins.
    Without one, the answer is the first line of the 2-space pretty-printed document
    that contains the term ("Line N"), and failing that "Unknown". */
module PathLocator {
  import opened Text
  import opened Json

  /** `path ? `${path}.${key}` : key` */
  function MemberPath(path: string, key: string): string {
    if path == "" then key else path + "." + key
  }

  /** `${path}[${index}]` */
  function IndexPath(path: string, index: nat): string {
    path + "[" + NatToString(index) + "]"
  }

  /** Only string values are compared with the term, both sides lower-cased. */
  predicate ValueHit(value: Doc, term: string) {
    value.Str? && Contains(Lower(value.s), Lower(term))
  }

  /** `possibleKeys.some(pk => key.toLowerCase().includes(pk.toLowerCase()))` */
  predicate KeyHit(key: string, keys: seq<string>) {
    exists k :: 0 <= k < |keys| && Contains(Lower(key), Lower(keys[k]))
  }

  /** The paths the walk records below `d`, reached at `path`, in the order recorded. */
  function Collect(d: Doc, path: string, keys: seq<string>, term: string): seq<string>
    decreases d, 1
  {
    match d
    case Arr(_) => CollectItems(d, path, keys, term, 0)
    case Obj(_) => CollectMembers(d, path, keys, term, 0)
    case _ => []
  }

  /** The paths recorded for the array elements from index `from` on. */
  function CollectItems(d: Doc, path: string, keys: seq<string>, term: string, from: nat): seq<string>
    requires d.Arr? && from <= |d.items|
    decreases d, 0, |d.items| - from
  {
    if from == |d.items| then []
    else Collect(d.items[from], IndexPath(path, from), keys, term) + CollectItems(d, path, keys, term, from + 1)
  }

  /** The paths recorded for one member: value hit, then key hit, then the member's subtree. */
  function CollectMember(d: Doc, path: string, keys: seq<string>, term: string, at: nat): seq<string>
    requires d.Obj? && at < |d.members|
    decreases d, 0, |d.members| - at, 1
  {
    var m := d.members[at];
    var p := MemberPath(path, m.key);
    (if ValueHit(m.value, term) then [p] else [])
    + (if KeyHit(m.key, keys) then [p] else [])
    + Collect(m.value, p, keys, term)
  }

  /** The paths recorded for the object members from position `from` on. */
  function CollectMembers(d: Doc, path: string, keys: seq<string>, term: string, from: nat): seq<string>
    requires d.Obj? && from <= |d.members|
    decreases d, 0, |d.members| - from, 2
  {
    if from == |d.members| then []
    else CollectMember(d, path, keys, term, from) + CollectMembers(d, path, keys, term, from + 1)
  }

  predicate LineHit(line: string, term: string) {
    Contains(Lower(line), Lower(term))
  }

  /** The index of the first line containing `term`, ignoring ASCII case. */
  function FirstLineHit(lines: seq<string>, term: string, from: nat): (r: Option<nat>)
    requires from <= |lines|
    ensures r.Some? ==> from <= r.value < |lines| && LineHit(lines[r.value], term)
    ensures r.Some? ==> forall j :: from <= j < r.value ==> !LineHit(lines[j], term)
    ensures r.None? ==> forall j :: from <= j < |lines| ==> !LineHit(lines[j], term)
    decreases |lines| - from
  {
    if from == |lines| then None
    else if LineHit(lines[from], term) then Some(from)
    else FirstLineHit(lines, term, from + 1)
  }

  /** What `findJsonPath(obj, keys, term)` returns, given `pretty` =
      `JSON.stringify(obj, null, 2)`. */
  function Locate(obj: Doc, keys: seq<string>, term: string, pretty: string): string {
    var paths := Collect(obj, "", keys, term);
    if paths != [] then paths[0]
    else match FirstLineHit(Split(pretty, '\n'), term, 0)
      case Some(i) => "Line " + NatToString(i + 1)
      case None => "Unknown"
  }

  /** The walk of `findJsonPath`: `traverse` appends to the `paths` array it shares
      with its caller. */
  class PathCollector {
    const possibleKeys: seq<string>
    const searchTerm: string
    var paths: seq<string>

    constructor (possibleKeys: seq<string>, searchTerm: string)
      ensures this.possibleKeys == possibleKeys && this.searchTerm == searchTerm
      ensures paths == []
    {
      this.possibleKeys := possibleKeys;
      this.searchTerm := searchTerm;
      paths := [];
    }

    method Traverse(current: Doc, path: string)
      modifies this
      ensures paths == old(paths) + Collect(current, path, possibleKeys, searchTerm)
      decreases current
    {
      match current {
        case Arr(items) =>
          var index := 0;
          while index < |items|
            invariant 0 <= index <= |items|
            invariant old(paths) + CollectItems(current, path, possibleKeys, searchTerm, 0)
                      == paths + CollectItems(current, path, possibleKeys, searchTerm, index)
          {
            ItemsStep(current, path, possibleKeys, searchTerm, index, paths);
            Traverse(items[index], IndexPath(path, index));
            index := index + 1;
          }
        case Obj(members) =>
          var i := 0;
          while i < |members|
            invariant 0 <= i <= |members|
            invariant old(paths) + CollectMembers(current, path, possibleKeys, searchTerm, 0)
                      == paths + CollectMembers(current, path, possibleKeys, searchTerm, i)
          {
            var key, value := members[i].key, members[i].value;
            var currentPath := MemberPath(path, key);
            MembersStep(current, path, possibleKeys, searchTerm, i, paths);
            ghost var before := paths;
            if ValueHit(value, searchTerm) {
              paths := paths + [currentPath];
            }
            if KeyHit(key, possibleKeys) {
              paths := paths + [currentPath];
            }
            assert paths == (before + (if ValueHit(value, searchTerm) then [currentPath] else []))
                            + (if KeyHit(key, possibleKeys) then [currentPath] else []);
            Traverse(value, currentPath);
            i := i + 1;
          }
        case _ =>
      }
    }
  }

  /** One element of the array walk: its subtree's paths, then the rest. */
  lemma ItemsStep(d: Doc, path: string, keys: seq<string>, term: string, index: nat, before: seq<string>)
    requires d.Arr? && index < |d.items|
    ensures before + CollectItems(d, path, keys, term, index)
         == (before + Collect(d.items[index], IndexPath(path, index), keys, term))
            + CollectItems(d, path, keys, term, index + 1)
  {
  }

  /** One member of the object walk: value hit, key hit, subtree, then the rest. */
  lemma MembersStep(d: Doc, path: string, keys: seq<string>, term: string, i: nat, before: seq<string>)
    requires d.Obj? && i < |d.members|
    ensures var m := d.members[i];
      var p := MemberPath(path, m.key);
      before + CollectMembers(d, path, keys, term, i)
        == (((before + (if ValueHit(m.value, term) then [p] else []))
              + (if KeyHit(m.key, keys) then [p] else []))
            + Collect(m.value, p, keys, term))
           + CollectMembers(d, path, keys, term, i + 1)
  {
    var m := d.members[i];
    var p := MemberPath(path, m.key);
    var v: seq<string> := if ValueHit(m.value, term) then [p] else [];
    var k: seq<string> := if KeyHit(m.key, keys) then [p] else [];
    var c := Collect(m.value, p, keys, term);
    var rest := CollectMembers(d, path, keys, term, i + 1);
    assert CollectMembers(d, path, keys, term, i) == v + k + c + rest;
    assert before + (v + k + c + rest) == (((before + v) + k) + c) + rest;
  }

  method FindJsonPath(obj: Doc, possibleKeys: seq<string>, searchTerm: string, pretty: string)
    returns (location: string)
    ensures location == Locate(obj, possibleKeys, searchTerm, pretty)
  {
    var collector := new PathCollector(possibleKeys, searchTerm);
    collector.Traverse(obj, "");
    if |collector.paths| > 0 {
      return collector.paths[0];
    }
    var lines := Split(pretty, '\n');
    for i := 0 to |lines|
      invariant forall j :: 0 <= j < i ==> !LineHit(lines[j], searchTerm)
    {
      if LineHit(lines[i], searchTerm) {
        return "Line " + NatToString(i + 1);
      }
    }
    return "Unknown";
  }

  // ---------- properties of the walk ----------

  /** Every path recorded below a non-empty `path` extends it with `.key` or `[i]`. */
  lemma {:induction false} CollectedPathsExtend(d: Doc, path: string, keys: seq<string>, term: string)
    requires path != ""
    ensures forall p :: p in Collect(d, path, keys, term) ==> Extends(p, path)
    decreases d, 1
  {
    match d
    case Arr(_) => ItemPathsExtend(d, path, keys, term, 0);
    case Obj(_) => MemberPathsExtend(d, path, keys, term, 0);
    case _ =>
  }

  /** `p` is `path` followed by a member or index step. */
  predicate Extends(p: string, path: string) {
    |p| > |path| && p[..|path|] == path && (p[|path|] == '.' || p[|path|] == '[')
  }

  lemma ExtendsTrans(p: string, q: string, path: string)
    requires Extends(p, q) && Extends(q, path)
    ensures Extends(p, path)
  {
    assert p[..|path|] == p[..|q|][..|path|];
  }

  lemma {:induction false} ItemPathsExtend(d: Doc, path: string, keys: seq<string>, term: string, from: nat)
    requires path != "" && d.Arr? && from <= |d.items|
    ensures forall p :: p in CollectItems(d, path, keys, term, from) ==> Extends(p, path)
    decreases d, 0, |d.items| - from
  {
    if from < |d.items| {
      var q := IndexPath(path, from);
      assert Extends(q, path);
      CollectedPathsExtend(d.items[from], q, keys, term);
      forall p | p in Collect(d.items[from], q, keys, term)
        ensures Extends(p, path)
      {
        ExtendsTrans(p, q, path);
      }
      ItemPathsExtend(d, path, keys, term, from + 1);
    }
  }

  lemma {:induction false} MemberPathsExtend(d: Doc, path: string, keys: seq<string>, term: string, from: nat)
    requires path != "" && d.Obj? && from <= |d.members|
    ensures forall p :: p in CollectMembers(d, path, keys, term, from) ==> Extends(p, path)
    decreases d, 0, |d.members| - from
  {
    if from < |d.members| {
      var m := d.members[from];
      var q := MemberPath(path, m.key);
      assert Extends(q, path);
      CollectedPathsExtend(m.value, q, keys, term);
      forall p | p in Collect(m.value, q, keys, term)
        ensures Extends(p, path)
      {
        ExtendsTrans(p, q, path);
      }
      MemberPathsExtend(d, path, keys, term, from + 1);
    }
  }

  /** The root is an object with an empty-string key. */
  predicate HasEmptyRootKey(d: Doc) {
    d.Obj? && exists i :: 0 <= i < |d.members| && d.members[i].key == ""
  }

  /** The location is never empty unless the root object has a member named "":
      such a member's path is the empty string. */
  lemma LocateNonEmpty(obj: Doc, keys: seq<string>, term: string, pretty: string)
    requires !HasEmptyRootKey(obj)
    ensures Locate(obj, keys, term, pretty) != ""
  {
    var paths := Collect(obj, "", keys, term);
    if paths != [] {
      assert paths[0] in paths;
      match obj
      case Arr(_) =>
        RootItemPathsNonEmpty(obj, keys, term, 0);
        assert paths == CollectItems(obj, "", keys, term, 0);
      case Obj(_) =>
        RootMemberPathsNonEmpty(obj, keys, term, 0);
        assert paths == CollectMembers(obj, "", keys, term, 0);
    }
  }

  lemma {:induction false} RootItemPathsNonEmpty(d: Doc, keys: seq<string>, term: string, from: nat)
    requires d.Arr? && from <= |d.items|
    ensures forall p :: p in CollectItems(d, "", keys, term, from) ==> p != ""
    decreases |d.items| - from
  {
    if from < |d.items| {
      CollectedPathsExtend(d.items[from], IndexPath("", from), keys, term);
      RootItemPathsNonEmpty(d, keys, term, from + 1);
    }
  }

  lemma {:induction false} RootMemberPathsNonEmpty(d: Doc, keys: seq<string>, term: string, from: nat)
    requires d.Obj? && from <= |d.members| && !HasEmptyRootKey(d)
    ensures forall p :: p in CollectMembers(d, "", keys, term, from) ==> p != ""
    decreases |d.members| - from
  {
    if from < |d.members| {
      var m := d.members[from];
      assert m.key != "" && MemberPath("", m.key) == m.key;
      CollectedPathsExtend(m.value, m.key, keys, term);
      RootMemberPathsNonEmpty(d, keys, term, from + 1);
      assert CollectMembers(d, "", keys, term, from)
          == CollectMember(d, "", keys, term, from) + CollectMembers(d, "", keys, term, from + 1);
    }
  }

  /** `{"": "public-read"}` located for the public-read rule: the location is "". */
  lemma EmptyRootKeyLocation(pretty: string)
    ensures Locate(Obj([Member("", Str("public-read"))]), ["ACL", "acl"], "public-read", pretty) == ""
  {
    var d := Obj([Member("", Str("public-read"))]);
    assert OccursAt(Lower("public-read"), Lower("public-read"), 0);
    assert CollectMember(d, "", ["ACL", "acl"], "public-read", 0)[0] == "";
  }

  /** Pre-order, value before key: when the first member of the root object has a hit
      of its own, the location is that member's key. */
  lemma LocateFirstMember(obj: Doc, keys: seq<string>, term: string, pretty: string)
    requires obj.Obj? && obj.members != []
    requires ValueHit(obj.members[0].value, term) || KeyHit(obj.members[0].key, keys)
    ensures Locate(obj, keys, term, pretty) == obj.members[0].key
  {
    var first := CollectMember(obj, "", keys, term, 0);
    assert first[0] == obj.members[0].key;
    assert Collect(obj, "", keys, term) == first + CollectMembers(obj, "", keys, term, 1);
  }

  /** Numbers, booleans and null are never compared with the term: an object whose
      members are such scalars under keys that miss every hint records no path. */
  lemma ScalarMembersRecordNothing(obj: Doc, keys: seq<string>, term: string)
    requires obj.Obj?
    requires forall i :: 0 <= i < |obj.members| ==>
      && (obj.members[i].value.Null? || obj.members[i].value.Bool? || obj.members[i].value.Num?)
      && !KeyHit(obj.members[i].key, keys)
    ensures Collect(obj, "", keys, term) == []
  {
    ScalarMembersFrom(obj, keys, term, 0);
  }

  lemma {:induction false} ScalarMembersFrom(obj: Doc, keys: seq<string>, term: string, from: nat)
    requires obj.Obj? && from <= |obj.members|
    requires forall i :: 0 <= i < |obj.members| ==>
      && (obj.members[i].value.Null? || obj.members[i].value.Bool? || obj.members[i].value.Num?)
      && !KeyHit(obj.members[i].key, keys)
    ensures CollectMembers(obj, "", keys, term, from) == []
    decreases |obj.members| - from
  {
    if from < |obj.members| {
      var m := obj.members[from];
      assert !ValueHit(m.value, term) && Collect(m.value, MemberPath("", m.key), keys, term) == [];
      assert CollectMember(obj, "", keys, term, from) == [];
      ScalarMembersFrom(obj, keys, term, from + 1);
    }
  }
}
