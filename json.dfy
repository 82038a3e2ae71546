/**
 * JSON-like values as the mms services handle them, and the two lodash
 * operations the core relies on: `_.merge` (deep merge of a source into a
 * destination) and `_.cloneDeep` (a value copy, which is the identity on
 * these immutable values; a clone gets its own handle in the cache's heap).
 *
 * A missing property and `undefined` are the same thing here: `Get` of an
 * absent property yields `JNull`.
 */
module Json {

  datatype Option<T> = None | Some(value: T)

  datatype Json =
    | JNull
    | JBool(b: bool)
    | JNum(n: int)
    | JStr(s: string)
    | JArr(items: seq<Json>)
    | JObj(fields: map<string, Json>)

  /** JavaScript truthiness: `null`, `false`, `0` and `''` are falsy. */
  predicate Truthy(j: Json) {
    match j
    case JNull => false
    case JBool(b) => b
    case JNum(n) => n != 0
    case JStr(s) => s != ""
    case _ => true
  }

  /** `j.hasOwnProperty(k)` */
  predicate Has(j: Json, k: string) {
    j.JObj? && k in j.fields
  }

  /** `j[k]`, with `undefined` read as null */
  function Get(j: Json, k: string): (r: Json)
    ensures Has(j, k) ==> r == j.fields[k]
    ensures !Has(j, k) ==> r == JNull
  {
    if Has(j, k) then j.fields[k] else JNull
  }

  /** `delete j[k]`; a no-op on anything but an object */
  function Delete(j: Json, k: string): (r: Json)
    ensures !Has(r, k)
    ensures r.JObj? <==> j.JObj?
    ensures j.JObj? ==> r.fields.Keys == j.fields.Keys - {k}
    ensures forall x :: x != k ==> Get(r, x) == Get(j, x)
  {
    if j.JObj? then JObj(j.fields - {k}) else j
  }

  /** `j[k] = v` on an object; assignments to properties of other values are lost */
  function Set(j: Json, k: string, v: Json): (r: Json)
    ensures j.JObj? ==> Has(r, k) && Get(r, k) == v && r.fields.Keys == j.fields.Keys + {k}
    ensures j.JObj? ==> forall x :: x != k ==> Get(r, x) == Get(j, x)
    ensures !j.JObj? ==> r == j
  {
    if j.JObj? then JObj(j.fields[k := v]) else j
  }

  /** `j[0]` of a list, null when there is none */
  function First(j: Json): (r: Json)
    ensures j.JArr? && |j.items| > 0 ==> r == j.items[0]
    ensures !(j.JArr? && |j.items| > 0) ==> r == JNull
  {
    if j.JArr? && |j.items| > 0 then j.items[0] else JNull
  }

  /** How `Array.prototype.join` renders a value used as a key segment. */
  function Text(j: Json): (r: string)
    ensures j.JStr? ==> r == j.s
    ensures !j.JStr? ==> r == ""
  {
    if j.JStr? then j.s else ""
  }

  function Max(a: nat, b: nat): nat {
    if a < b then b else a
  }

  /**
   * `_.merge(dst, src)`: every own property of an object source is merged
   * into the destination's property of the same name; an array source is
   * merged index by index; when the source value is an object (an array) and
   * the destination's is not, the merge starts from `{}` (`[]`); any other
   * source value replaces the destination's.
   */
  function Merge(dst: Json, src: Json): (r: Json)
    ensures src.JObj? ==> r.JObj? && r.fields.Keys == (if dst.JObj? then dst.fields.Keys else {}) + src.fields.Keys
    ensures src.JArr? ==> r.JArr? && |r.items| == Max(if dst.JArr? then |dst.items| else 0, |src.items|)
    ensures !src.JObj? && !src.JArr? ==> r == src
    decreases src
  {
    match src
    case JObj(sf) =>
      var df := if dst.JObj? then dst.fields else map[];
      JObj(map k | k in df.Keys + sf.Keys ::
        if k in sf then Merge(if k in df then df[k] else JNull, sf[k]) else df[k])
    case JArr(si) =>
      var di := if dst.JArr? then dst.items else [];
      JArr(seq(Max(|di|, |si|), i requires 0 <= i < Max(|di|, |si|) =>
        if i < |si| then Merge(if i < |di| then di[i] else JNull, si[i]) else di[i]))
    case _ => src
  }

  /** A value `_.merge` can merge into or from: an object or an array. */
  predicate Mergeable(j: Json) {
    j.JObj? || j.JArr?
  }

  /**
   * The top-level call `_.merge(dst, src)`, which updates `dst` in place:
   * a destination that is not an object or array cannot take anything, and
   * a null or scalar source brings nothing, so then `dst` stays as it was.
   */
  function MergeTop(dst: Json, src: Json): (r: Json)
    ensures !Mergeable(dst) || !Mergeable(src) ==> r == dst
    ensures dst.JObj? && src.JObj? ==> r.JObj? && r.fields.Keys == dst.fields.Keys + src.fields.Keys
    ensures dst.JObj? && src.JObj? ==> forall k | k !in src.fields :: Get(r, k) == Get(dst, k)
    ensures dst.JArr? && src.JArr? ==> r.JArr? && |r.items| == Max(|dst.items|, |src.items|)
  {
    if Mergeable(dst) && Mergeable(src) then Merge(dst, src) else dst
  }

  /** A top-level merge of a value into itself changes nothing. */
  lemma MergeTopSelf(v: Json)
    ensures MergeTop(v, v) == v
  {
    MergeSelf(v);
  }

  /** A second top-level merge of the same source changes nothing more. */
  lemma MergeTopIdempotent(dst: Json, src: Json)
    ensures MergeTop(MergeTop(dst, src), src) == MergeTop(dst, src)
  {
    MergeIdempotent(dst, src);
  }

  /** Scalars the source sets win; properties the source does not mention are kept. */
  lemma MergeOverrides(dst: Json, src: Json, k: string)
    requires dst.JObj? && src.JObj?
    ensures Has(src, k) && !src.fields[k].JObj? && !src.fields[k].JArr? ==> Get(Merge(dst, src), k) == src.fields[k]
    ensures !Has(src, k) ==> Get(Merge(dst, src), k) == Get(dst, k)
    ensures Has(Merge(dst, src), k) <==> Has(dst, k) || Has(src, k)
  {
  }

  /** Merging into nothing is a copy of the source. */
  lemma {:induction false} MergeIntoNothing(src: Json)
    ensures Merge(JNull, src) == src
    decreases src
  {
    match src
    case JObj(sf) =>
      forall k | k in sf ensures Merge(JNull, sf[k]) == sf[k] {
        MergeIntoNothing(sf[k]);
      }
      assert Merge(JNull, src).fields == sf;
    case JArr(si) =>
      forall i | 0 <= i < |si| ensures Merge(JNull, si[i]) == si[i] {
        MergeIntoNothing(si[i]);
      }
      assert Merge(JNull, src).items == si;
    case _ =>
  }

  /** Merging a value into itself changes nothing. */
  lemma {:induction false} MergeSelf(v: Json)
    ensures Merge(v, v) == v
    decreases v
  {
    match v
    case JObj(f) =>
      forall k | k in f ensures Merge(f[k], f[k]) == f[k] {
        MergeSelf(f[k]);
      }
      assert Merge(v, v).fields == f;
    case JArr(s) =>
      forall i | 0 <= i < |s| ensures Merge(s[i], s[i]) == s[i] {
        MergeSelf(s[i]);
      }
      assert Merge(v, v).items == s;
    case _ =>
  }

  /** Merging the same source twice is the same as merging it once. */
  lemma {:induction false} MergeIdempotent(dst: Json, src: Json)
    ensures Merge(Merge(dst, src), src) == Merge(dst, src)
    decreases src
  {
    var m := Merge(dst, src);
    match src
    case JObj(sf) =>
      var df := if dst.JObj? then dst.fields else map[];
      forall k | k in sf ensures Merge(m.fields[k], sf[k]) == m.fields[k] {
        MergeIdempotent(if k in df then df[k] else JNull, sf[k]);
      }
      assert Merge(m, src).fields == m.fields;
    case JArr(si) =>
      var di := if dst.JArr? then dst.items else [];
      forall i | 0 <= i < |si| ensures Merge(m.items[i], si[i]) == m.items[i] {
        MergeIdempotent(if i < |di| then di[i] else JNull, si[i]);
      }
      assert Merge(m, src).items == m.items;
    case _ =>
  }
}
