/**
 * UtilsService: default-filling of the common `update`/`workspace`/`version`
 * arguments, the cache key of an element, and `cleanElement`, which
 * sanitises an element's `specialization` before it is cached.
 */
module Utils {
  import opened Json
  import opened Cache

  /** Whether an optional string argument is truthy (neither missing nor `''`). */
  predicate Given(x: Option<string>) {
    x.Some? && x.value != ""
  }

  /** `!x ? d : x` */
  function OrDefault(x: Option<string>, d: string): (r: string)
    ensures Given(x) ==> r == x.value
    ensures !Given(x) ==> r == d
  {
    if Given(x) then x.value else d
  }

  datatype Normalized = Normalized(update: bool, ws: string, ver: string)

  /** `normalize({update, workspace, version})` */
  function Normalize(update: Option<bool>, workspace: Option<string>, version: Option<string>): (n: Normalized)
    ensures n.update <==> update == Some(true)
    ensures Given(workspace) ==> n.ws == workspace.value
    ensures !Given(workspace) ==> n.ws == "master"
    ensures Given(version) ==> n.ver == version.value
    ensures !Given(version) ==> n.ver == "latest"
  {
    Normalized(update == Some(true), OrDefault(workspace, "master"), OrDefault(version, "latest"))
  }

  /** Normalized arguments normalize to themselves. */
  lemma NormalizeFixpoint(update: Option<bool>, workspace: Option<string>, version: Option<string>)
    ensures var n := Normalize(update, workspace, version);
      Normalize(Some(n.update), Some(n.ws), Some(n.ver)) == n
  {
  }

  /** `makeElementKey(id, workspace, version, edited)` */
  function MakeElementKey(id: string, workspace: Option<string>, version: Option<string>, edited: bool): (r: seq<string>)
    ensures |r| == if edited then 5 else 4
    ensures r[0] == "elements" && r[2] == id
    ensures r[1] == Normalize(None, workspace, None).ws && r[3] == Normalize(None, None, version).ver
    ensures edited ==> r[4] == "edit"
  {
    var ws := OrDefault(workspace, "master");
    var ver := OrDefault(version, "latest");
    if edited then ["elements", ws, id, ver, "edit"] else ["elements", ws, id, ver]
  }

  /**
   * When ids, workspaces and versions avoid the delimiter, two element keys
   * address the same cache entry exactly when they agree on the id, the
   * workspace and version after defaulting, and on being an edit key. In
   * particular an edit entry never shares its key with a canonical entry.
   */
  lemma {:induction false} ElementKeysDistinct(
    id1: string, ws1: Option<string>, ver1: Option<string>, e1: bool,
    id2: string, ws2: Option<string>, ver2: Option<string>, e2: bool)
    requires NoDelimiter(MakeElementKey(id1, ws1, ver1, e1)) && NoDelimiter(MakeElementKey(id2, ws2, ver2, e2))
    ensures MakeKey(MakeElementKey(id1, ws1, ver1, e1)) == MakeKey(MakeElementKey(id2, ws2, ver2, e2))
      <==> (id1 == id2 && OrDefault(ws1, "master") == OrDefault(ws2, "master")
           && OrDefault(ver1, "latest") == OrDefault(ver2, "latest") && e1 == e2)
  {
    var k1, k2 := MakeElementKey(id1, ws1, ver1, e1), MakeElementKey(id2, ws2, ver2, e2);
    MakeKeyInjective(k1, k2);
    if k1 == k2 {
      assert |k1| == |k2|;
    }
  }

  /**
   * The edit key extends the canonical key by one segment, so an edit copy
   * never shares its entry with the element it copies, whatever the id.
   */
  lemma EditKeyIsNotCanonical(id: string, workspace: Option<string>, version: Option<string>)
    ensures MakeKey(MakeElementKey(id, workspace, version, true)) != MakeKey(MakeElementKey(id, workspace, version, false))
  {
    var canonical := MakeElementKey(id, workspace, version, false);
    assert MakeElementKey(id, workspace, version, true) == canonical + ["edit"];
    MakeKeyAppend(canonical, "edit");
  }

  /** The specialization keys an edit copy does not carry. */
  const NonEditKeys: seq<string> := ["contains", "view2view", "childrenViews", "displayedElements", "allowedElements"]

  /** `delete j[k]` for each key in turn. */
  function DeleteAll(j: Json, keys: seq<string>): (r: Json)
    ensures r.JObj? <==> j.JObj?
    ensures forall i | 0 <= i < |keys| :: !Has(r, keys[i])
    ensures forall k :: k !in keys ==> Get(r, k) == Get(j, k)
    ensures j.JObj? ==> r.fields.Keys == j.fields.Keys - set i | 0 <= i < |keys| :: keys[i]
    decreases |keys|
  {
    if keys == [] then j else Delete(DeleteAll(j, keys[..|keys| - 1]), keys[|keys| - 1])
  }

  /** The values of a Property, each without a `specialization` of its own. */
  function StripSpecs(vals: seq<Json>): (r: seq<Json>)
    ensures |r| == |vals|
    ensures forall i | 0 <= i < |r| :: !Has(r[i], "specialization")
    ensures forall i | 0 <= i < |r| :: r[i].JObj? <==> vals[i].JObj?
    ensures forall i, k | 0 <= i < |r| && k != "specialization" :: Get(r[i], k) == Get(vals[i], k)
  {
    seq(|vals|, i requires 0 <= i < |vals| => Delete(vals[i], "specialization"))
  }

  /** What `cleanElement` does to a specialization object. */
  function CleanSpec(spec: Json, forEdit: bool): (r: Json)
    requires spec.JObj?
  {
    var s1 :=
      if Get(spec, "type") == JStr("Property") then
        Set(spec, "value", JArr(StripSpecs(if Get(spec, "value").JArr? then Get(spec, "value").items else [])))
      else spec;
    var s2 := Delete(s1, "specialization");
    if forEdit then DeleteAll(s2, NonEditKeys) else s2
  }

  /**
   * `cleanElement(elem, forEdit)`: a Property's value becomes a list whose
   * elements carry no specialization, a nested `specialization` is removed,
   * and for an edit copy the non-editable keys are removed. Only the
   * `specialization` property changes, and only when it is an object.
   */
  function Cleaned(elem: Json, forEdit: bool): (r: Json)
    ensures !Has(elem, "specialization") ==> r == elem
    ensures r.JObj? <==> elem.JObj?
    ensures forall k :: Has(r, k) <==> Has(elem, k)
    ensures forall k :: k != "specialization" ==> Get(r, k) == Get(elem, k)
    ensures !Has(Get(r, "specialization"), "specialization")
    ensures forEdit ==> forall i | 0 <= i < |NonEditKeys| :: !Has(Get(r, "specialization"), NonEditKeys[i])
    ensures Get(elem, "specialization").JObj? && Get(Get(elem, "specialization"), "type") == JStr("Property") ==>
      var v := Get(Get(r, "specialization"), "value");
      v.JArr? && forall i | 0 <= i < |v.items| :: !Has(v.items[i], "specialization")
    ensures !Get(elem, "specialization").JObj? ==> r == elem
    ensures var spec, rs := Get(elem, "specialization"), Get(r, "specialization");
      spec.JObj? ==>
        && rs.JObj?
        && forall k | k != "specialization" && k != "value" && !(forEdit && k in NonEditKeys) :: Get(rs, k) == Get(spec, k)
    ensures var spec, rs := Get(elem, "specialization"), Get(r, "specialization");
      spec.JObj? && Get(spec, "type") != JStr("Property") ==> Get(rs, "value") == Get(spec, "value")
    ensures var spec, rs := Get(elem, "specialization"), Get(r, "specialization");
      spec.JObj? && Get(spec, "type") == JStr("Property") ==>
        var before := if Get(spec, "value").JArr? then Get(spec, "value").items else [];
        var v := Get(rs, "value").items;
        && Get(rs, "value") == JArr(StripSpecs(before))
        && |v| == |before|
        && (forall i | 0 <= i < |v| :: v[i].JObj? <==> before[i].JObj?)
        && forall i, k | 0 <= i < |v| && k != "specialization" :: Get(v[i], k) == Get(before[i], k)
  {
    if Has(elem, "specialization") && elem.fields["specialization"].JObj? then
      Set(elem, "specialization", CleanSpec(elem.fields["specialization"], forEdit))
    else elem
  }

  /** `cleanElement` as the source runs it: two loops over the specialization. */
  method CleanElement(elem: Json, forEdit: bool) returns (r: Json)
    ensures r == Cleaned(elem, forEdit)
  {
    r := elem;
    if Has(elem, "specialization") && elem.fields["specialization"].JObj? {
      var spec := elem.fields["specialization"];
      if Get(spec, "type") == JStr("Property") {
        var vals := StripValueSpecs(if Get(spec, "value").JArr? then Get(spec, "value").items else []);
        spec := Set(spec, "value", JArr(vals));
      }
      if Has(spec, "specialization") {
        spec := Delete(spec, "specialization");
      } else {
        assert spec.fields - {"specialization"} == spec.fields;
      }
      if forEdit {
        spec := DeleteKeys(spec, NonEditKeys);
      }
      r := Set(elem, "specialization", spec);
    }
  }

  /** The first loop of `cleanElement`: `delete` each value's `specialization`. */
  method StripValueSpecs(orig: seq<Json>) returns (vals: seq<Json>)
    ensures vals == StripSpecs(orig)
  {
    vals := orig;
    var i := 0;
    while i < |vals|
      invariant 0 <= i <= |vals| == |orig|
      invariant forall j | 0 <= j < i :: vals[j] == Delete(orig[j], "specialization")
      invariant forall j | i <= j < |vals| :: vals[j] == orig[j]
    {
      if Has(vals[i], "specialization") {
        vals := vals[i := Delete(vals[i], "specialization")];
      } else {
        assert vals[i].JObj? ==> vals[i].fields - {"specialization"} == vals[i].fields;
      }
      i := i + 1;
    }
  }

  /** The second loop of `cleanElement`: `delete` each key of `keys` that is present. */
  method DeleteKeys(j: Json, keys: seq<string>) returns (r: Json)
    ensures r == DeleteAll(j, keys)
  {
    r := j;
    var i := 0;
    while i < |keys|
      invariant 0 <= i <= |keys|
      invariant r == DeleteAll(j, keys[..i])
    {
      if Has(r, keys[i]) {
        r := Delete(r, keys[i]);
      } else {
        assert r.JObj? ==> r.fields - {keys[i]} == r.fields;
      }
      assert keys[..i + 1][..i] == keys[..i];
      i := i + 1;
    }
    assert keys[..i] == keys;
  }

  /** An element that cleaning leaves as it is. */
  predicate IsClean(elem: Json, forEdit: bool) {
    var spec := Get(elem, "specialization");
    spec.JObj? ==>
      && !Has(spec, "specialization")
      && (forEdit ==> forall i | 0 <= i < |NonEditKeys| :: !Has(spec, NonEditKeys[i]))
      && (Get(spec, "type") == JStr("Property") ==>
            Has(spec, "value") && Get(spec, "value").JArr?
            && forall i | 0 <= i < |Get(spec, "value").items| :: !Has(Get(spec, "value").items[i], "specialization"))
  }

  lemma DeleteAbsent(j: Json, k: string)
    requires !Has(j, k)
    ensures Delete(j, k) == j
  {
    if j.JObj? {
      assert j.fields - {k} == j.fields;
    }
  }

  lemma {:induction false} DeleteAllAbsent(j: Json, keys: seq<string>)
    requires forall i | 0 <= i < |keys| :: !Has(j, keys[i])
    ensures DeleteAll(j, keys) == j
    decreases |keys|
  {
    if keys != [] {
      DeleteAllAbsent(j, keys[..|keys| - 1]);
      DeleteAbsent(j, keys[|keys| - 1]);
    }
  }

  lemma StripSpecsAbsent(vals: seq<Json>)
    requires forall i | 0 <= i < |vals| :: !Has(vals[i], "specialization")
    ensures StripSpecs(vals) == vals
  {
    forall i | 0 <= i < |vals| ensures StripSpecs(vals)[i] == vals[i] {
      DeleteAbsent(vals[i], "specialization");
    }
  }

  /**
   * Cleaning leaves an element unchanged exactly when it is already clean:
   * for an edit copy this is what `isDirty` compares against.
   */
  lemma CleanedUnchangedIff(elem: Json, forEdit: bool)
    ensures Cleaned(elem, forEdit) == elem <==> IsClean(elem, forEdit)
  {
    var spec := Get(elem, "specialization");
    if spec.JObj? && IsClean(elem, forEdit) {
      var s1 :=
        if Get(spec, "type") == JStr("Property") then
          Set(spec, "value", JArr(StripSpecs(if Get(spec, "value").JArr? then Get(spec, "value").items else [])))
        else spec;
      if Get(spec, "type") == JStr("Property") {
        StripSpecsAbsent(Get(spec, "value").items);
        assert spec.fields["value" := Get(spec, "value")] == spec.fields;
      }
      assert s1 == spec;
      DeleteAbsent(s1, "specialization");
      if forEdit {
        DeleteAllAbsent(spec, NonEditKeys);
      }
      assert CleanSpec(spec, forEdit) == spec;
      assert elem.fields["specialization" := spec] == elem.fields;
    }
    if Cleaned(elem, forEdit) == elem && spec.JObj? {
      assert Get(Cleaned(elem, forEdit), "specialization") == spec;
    }
  }

  /** Whatever cleaning produces is clean. */
  lemma CleanedIsClean(elem: Json, forEdit: bool)
    ensures IsClean(Cleaned(elem, forEdit), forEdit)
  {
    var r := Cleaned(elem, forEdit);
    var spec := Get(elem, "specialization");
    if spec.JObj? && Get(spec, "type") == JStr("Property") {
      assert Get(Get(r, "specialization"), "type") == JStr("Property");
      assert Has(Get(r, "specialization"), "value");
    }
  }

  /** Cleaning twice is cleaning once; cleaning for edit absorbs a plain cleaning. */
  lemma CleanedTwice(elem: Json, first: bool, second: bool)
    requires first || !second
    ensures Cleaned(Cleaned(elem, first), second) == Cleaned(elem, first)
  {
    var r := Cleaned(elem, first);
    CleanedIsClean(elem, first);
    assert IsClean(r, second);
    CleanedUnchangedIff(r, second);
  }
}
