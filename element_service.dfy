/**
 * ElementService: element fetches de-duplicated while in flight, edit
 * copies kept apart from the elements they copy, updates that merge the
 * server's answer into the cache and into the edit copy, the retry rule for
 * an update the server calls a conflict, and creation.
 *
 * A request is modelled in two steps. A call records the request in `sent`,
 * files a pending job under a fresh ticket and hands back `Pending(ticket)`;
 * the matching `Reply...` method runs the request's success or error
 * callback with the reply the transport delivered, and records how the
 * ticket's deferred settled in `settled`.
 */
module Elements {
  import opened Json
  import opened Cache
  import opened Utils
  import opened Urls

  type Ticket = nat

  /** What a service method hands back. */
  datatype Promise =
    | Done(outcome: Settled)  // a deferred that had already settled
    | Pending(ticket: Ticket) // a deferred a later reply settles
    | Threw                   // the call raised a TypeError instead of returning

  /** A request put on the wire. */
  datatype Request =
    | GetElementRequest(id: string, ws: string, ver: string)
    | GetRequest(url: string)
    | PostElements(ws: string, elements: seq<Json>)

  /** A request waiting for its reply, with what its callbacks need. */
  datatype Job =
    | FetchElement(progress: string, cacheKey: seq<string>)
    | FetchGeneric(progress: string, field: string, ws: string, ver: string)
    | PostUpdate(elem: Json, ws: string)
    | PostCreate(ws: string)

  /** The in-flight key a fetch is registered under. */
  function ProgressOf(job: Job): Option<string> {
    if job.FetchElement? || job.FetchGeneric? then Some(job.progress) else None
  }

  /** A `getElementForEdit` waiting on a fetch, to copy its element into `key`. */
  datatype EditWait = EditWait(on: Ticket, key: seq<string>)

  /** ElementService's normalized arguments, with the element's cache key. */
  datatype Args = Args(update: bool, ws: string, ver: string, cacheKey: seq<string>)

  /** ElementService's `normalize(id, update, workspace, version, edit)` */
  function NormalizeArgs(id: string, update: Option<bool>, workspace: Option<string>, version: Option<string>, edit: bool): (n: Args)
    ensures var u := Utils.Normalize(update, workspace, version);
      n.update == u.update && n.ws == u.ws && n.ver == u.ver
    ensures n.cacheKey == MakeElementKey(id, workspace, version, edit)
  {
    var u := Utils.Normalize(update, workspace, version);
    Args(u.update, u.ws, u.ver, MakeElementKey(id, Some(u.ws), Some(u.ver), edit))
  }

  /** How string concatenation renders a boolean. */
  function BoolText(b: bool): string {
    if b then "true" else "false"
  }

  /** The in-flight key of `getElement`: the arguments concatenated as they are. */
  function ElementProgressKey(id: string, update: Option<bool>, workspace: Option<string>, version: Option<string>): string {
    var n := Utils.Normalize(update, workspace, version);
    "getElement(" + id + BoolText(n.update) + n.ws + n.ver + ")"
  }

  /** The in-flight key of `getGenericElements`. */
  function GenericProgressKey(url: string, field: string, update: Option<bool>, workspace: Option<string>, version: Option<string>): string {
    var n := Utils.Normalize(update, workspace, version);
    "getGenericElements(" + url + field + BoolText(n.update) + n.ws + n.ver + ")"
  }

  /** The two kinds of fetch never share an in-flight key. */
  lemma ProgressKindsDisjoint(id: string, update: Option<bool>, workspace: Option<string>, version: Option<string>,
                              url: string, field: string, update': Option<bool>, workspace': Option<string>, version': Option<string>)
    ensures ElementProgressKey(id, update, workspace, version) != GenericProgressKey(url, field, update', workspace', version')
  {
    assert ElementProgressKey(id, update, workspace, version)[3] == 'E';
    assert GenericProgressKey(url, field, update', workspace', version')[3] == 'G';
  }

  /**
   * The in-flight key has no separators, so fetches of different elements
   * can share it: while element `x` of workspace `falsew` is fetched with
   * `update` set, a fetch of element `xtrue` in workspace `w` is handed the
   * same pending promise.
   */
  lemma ProgressKeysCollide()
    ensures ElementProgressKey("x", Some(true), Some("falsew"), None) == ElementProgressKey("xtrue", None, Some("w"), None)
    ensures MakeElementKey("x", Some("falsew"), None, false) != MakeElementKey("xtrue", Some("w"), None, false)
  {
    assert MakeElementKey("x", Some("falsew"), None, false)[2] == "x";
  }

  /** A View or Product whose specialization lacks `contains` is fetched again. */
  predicate Incomplete(cached: Json) {
    var spec := Get(cached, "specialization");
    (Get(spec, "type") == JStr("View") || Get(spec, "type") == JStr("Product")) && !Has(spec, "contains")
  }

  datatype CacheUse = UseCached | Refetch | TypeError

  /** What `getElement` does with the cache entry (absent: `None`) when nothing is in flight. */
  function UseOfCache(cached: Option<Json>, update: bool): (u: CacheUse)
    ensures u == UseCached <==>
      cached.Some? && !update && Get(cached.value, "specialization") != JNull && !Incomplete(cached.value)
    ensures u == TypeError <==> cached.Some? && !update && Get(cached.value, "specialization") == JNull
    ensures u == Refetch <==> cached.None? || update || Incomplete(cached.value)
  {
    if cached.None? || update then Refetch
    else if Get(cached.value, "specialization") == JNull then TypeError
    else if Incomplete(cached.value) then Refetch
    else UseCached
  }

  /** The bookkeeping properties a conflict check ignores. */
  const Stamps: set<string> := {"modified", "read", "creator"}

  /** `delete e.modified; delete e.read; delete e.creator` */
  function Stripped(e: Json): (r: Json)
    ensures forall k :: !Has(r, k) || k !in Stamps
    ensures forall k :: k !in Stamps ==> Has(r, k) == Has(e, k) && Get(r, k) == Get(e, k)
    ensures r.JObj? <==> e.JObj?
  {
    Delete(Delete(Delete(e, "modified"), "read"), "creator")
  }

  datatype Conflict = Retry(read: Json) | Propagate

  /**
   * The 409 rule: with a truthy cached copy of the element, compare the
   * server's copy and the cached one, both stripped of their stamps and
   * cleaned; when they agree, post again with the server's `read` stamp.
   */
  function ConflictRule(server: Json, orig: Option<Json>): (c: Conflict)
    ensures orig.None? || !Truthy(orig.value) ==> c == Propagate
    ensures c.Retry? ==> c.read == Get(server, "read")
  {
    if orig.None? || !Truthy(orig.value) then Propagate
    else if Cleaned(Stripped(server), false) == Cleaned(Stripped(orig.value), false) then Retry(Get(server, "read"))
    else Propagate
  }

  /** Copies that differ only in their stamps are no conflict: the update is retried. */
  lemma ConflictIgnoresStamps(server: Json, orig: Json)
    requires server.JObj? && orig.JObj?
    requires forall k | k !in Stamps :: Has(server, k) == Has(orig, k) && Get(server, k) == Get(orig, k)
    ensures ConflictRule(server, Some(orig)) == Retry(Get(server, "read"))
  {
    var s, o := Stripped(server), Stripped(orig);
    assert s.fields.Keys == o.fields.Keys by {
      forall k ensures k in s.fields <==> k in o.fields {
        if k !in Stamps {
          assert Has(server, k) == Has(orig, k);
        }
      }
    }
    forall k | k in s.fields ensures s.fields[k] == o.fields[k] {
      assert Get(s, k) == Get(o, k);
    }
    assert s == o;
  }

  /** A change the server has to any other top-level property than the specialization is a conflict. */
  lemma ConflictSeesChange(server: Json, orig: Json, k: string)
    requires Truthy(orig) && k !in Stamps && k != "specialization"
    requires Get(server, k) != Get(orig, k)
    ensures ConflictRule(server, Some(orig)) == Propagate
  {
    assert Get(Cleaned(Stripped(server), false), k) == Get(server, k);
    assert Get(Cleaned(Stripped(orig), false), k) == Get(orig, k);
  }

  /**
   * A change the server has inside the specialization, to a property that
   * cleaning keeps, is a conflict too: its `type`, any other property but a
   * nested `specialization`, and a `value` unless one of the two is a Property.
   */
  lemma ConflictSeesSpecChange(server: Json, orig: Json, k: string)
    requires Truthy(orig)
    requires Get(server, "specialization").JObj? && Get(orig, "specialization").JObj?
    requires k != "specialization"
    requires k == "value" ==>
      Get(Get(server, "specialization"), "type") != JStr("Property") && Get(Get(orig, "specialization"), "type") != JStr("Property")
    requires Get(Get(server, "specialization"), k) != Get(Get(orig, "specialization"), k)
    ensures ConflictRule(server, Some(orig)) == Propagate
  {
    var s, o := Stripped(server), Stripped(orig);
    assert Get(s, "specialization") == Get(server, "specialization");
    assert Get(o, "specialization") == Get(orig, "specialization");
    assert Get(Get(Cleaned(s, false), "specialization"), k) == Get(Get(server, "specialization"), k);
    assert Get(Get(Cleaned(o, false), "specialization"), k) == Get(Get(orig, "specialization"), k);
  }

  /** A Property whose `i`-th value differs on the server in any property but its own specialization is a conflict. */
  lemma ConflictSeesValueChange(server: Json, orig: Json, i: nat, k: string)
    requires Truthy(orig)
    requires Get(server, "specialization").JObj? && Get(orig, "specialization").JObj?
    requires Get(Get(server, "specialization"), "type") == JStr("Property")
    requires Get(Get(orig, "specialization"), "type") == JStr("Property")
    requires Get(Get(server, "specialization"), "value").JArr? && Get(Get(orig, "specialization"), "value").JArr?
    requires i < |Get(Get(server, "specialization"), "value").items| && i < |Get(Get(orig, "specialization"), "value").items|
    requires k != "specialization"
    requires Get(Get(Get(server, "specialization"), "value").items[i], k) != Get(Get(Get(orig, "specialization"), "value").items[i], k)
    ensures ConflictRule(server, Some(orig)) == Propagate
  {
    var s, o := Stripped(server), Stripped(orig);
    assert Get(s, "specialization") == Get(server, "specialization");
    assert Get(o, "specialization") == Get(orig, "specialization");
    var cs, co := Get(Cleaned(s, false), "specialization"), Get(Cleaned(o, false), "specialization");
    assert Get(Get(cs, "value").items[i], k) != Get(Get(co, "value").items[i], k);
  }

  /** A Property whose list of values has a different length on the server is a conflict. */
  lemma ConflictSeesValueCount(server: Json, orig: Json)
    requires Truthy(orig)
    requires Get(server, "specialization").JObj? && Get(orig, "specialization").JObj?
    requires Get(Get(server, "specialization"), "type") == JStr("Property")
    requires Get(Get(server, "specialization"), "value").JArr? && Get(Get(orig, "specialization"), "value").JArr?
    requires |Get(Get(server, "specialization"), "value").items| != |Get(Get(orig, "specialization"), "value").items|
    ensures ConflictRule(server, Some(orig)) == Propagate
  {
    var s, o := Stripped(server), Stripped(orig);
    assert Get(s, "specialization") == Get(server, "specialization");
    assert Get(o, "specialization") == Get(orig, "specialization");
    var cs, co := Get(Cleaned(s, false), "specialization"), Get(Cleaned(o, false), "specialization");
    if Get(Get(orig, "specialization"), "type") == JStr("Property") {
      assert |Get(cs, "value").items| != |Get(co, "value").items|;
    } else {
      assert Get(cs, "type") != Get(co, "type");
    }
  }

  /** The products special case: the caller's `view2view` wins over the server's when both are set. */
  predicate KeepsView2View(resp: Json, elem: Json) {
    && Truthy(Get(resp, "specialization")) && Truthy(Get(Get(resp, "specialization"), "view2view"))
    && Truthy(Get(elem, "specialization")) && Truthy(Get(Get(elem, "specialization"), "view2view"))
  }

  /** The cached response after the products special case. */
  function AfterView2View(resp: Json, elem: Json): (r: Json)
    ensures KeepsView2View(resp, elem) ==>
      Get(Get(r, "specialization"), "view2view") == Get(Get(elem, "specialization"), "view2view")
    ensures !KeepsView2View(resp, elem) ==> r == resp
    ensures forall k :: k != "specialization" ==> Get(r, k) == Get(resp, k)
    ensures forall k :: k != "view2view" ==> Get(Get(r, "specialization"), k) == Get(Get(resp, "specialization"), k)
  {
    if KeepsView2View(resp, elem) then
      var spec := Get(resp, "specialization");
      Set(resp, "specialization", Set(spec, "view2view", Get(Get(elem, "specialization"), "view2view")))
    else resp
  }

  /** `isDirty(id, workspace)`: the edit copy is truthy and differs from the element. */
  function Dirty(st: Store, id: string, workspace: Option<string>): (b: bool)
    requires WellFormed(st)
    ensures var edit := Read(st, MakeKey(MakeElementKey(id, workspace, None, true)));
      var normal := Read(st, MakeKey(MakeElementKey(id, workspace, None, false)));
      b <==> edit.Some? && Truthy(edit.value) && normal != edit
  {
    var edit := Read(st, MakeKey(MakeElementKey(id, workspace, None, true)));
    var normal := Read(st, MakeKey(MakeElementKey(id, workspace, None, false)));
    var nv := if normal.Some? then normal.value else JNull;
    edit.Some? && Truthy(edit.value) && nv != edit.value
  }

  /**
   * A freshly made edit copy is dirty exactly when the element carries
   * something an edit copy drops.
   */
  lemma FreshEditCopyDirtyIff(st: Store, id: string, workspace: Option<string>)
    requires WellFormed(st) && Unaliased(st)
    requires MakeKey(MakeElementKey(id, workspace, None, false)) in st.cache
    requires MakeKey(MakeElementKey(id, workspace, None, true)) !in st.cache
    ensures var c := Read(st, MakeKey(MakeElementKey(id, workspace, None, false))).value;
      (Dirty(MergePut(st, MakeKey(MakeElementKey(id, workspace, None, true)), Cleaned(c, true)), id, workspace)
       <==> !IsClean(c, true))
  {
    var ck := MakeKey(MakeElementKey(id, workspace, None, false));
    var ek := MakeKey(MakeElementKey(id, workspace, None, true));
    var c := Read(st, ck).value;
    EditKeyIsNotCanonical(id, workspace, None);
    CleanedUnchangedIff(c, true);
    var s2 := MergePut(st, ek, Cleaned(c, true));
    assert Read(s2, ck) == Some(c);
    assert Read(s2, ek) == Some(Cleaned(c, true));
  }

  /** The key an element of a list reply is stored under. */
  function ElementKeyOf(el: Json, ws: string, ver: string): seq<string> {
    MakeElementKey(Text(Get(el, "sysmlid")), Some(ws), Some(ver), false)
  }

  /** How ElementService stores each element of a list reply. */
  function ElementDerive(ws: string, ver: string): Json -> Derived {
    el => Derived(ElementKeyOf(el, ws, ver), Cleaned(el, false), true)
  }

  /**
   * `stored` is written under `ck` and a truthy entry under `ek` is
   * replaced by its merge with `stored`, cleaned for editing. Every key
   * keeps its handle and no other key shows anything new.
   */
  ghost predicate StoredWithEdit(st: Store, st2: Store, ck: string, ek: string, stored: Json)
    requires WellFormed(st) && WellFormed(st2)
  {
    var edit := Read(st, ek);
    && st2.cache.Keys == st.cache.Keys + {ck}
    && (forall k | k in st.cache :: st2.cache[k] == st.cache[k])
    && Read(st2, ck) == Some(stored)
    && (edit.Some? && Truthy(edit.value) ==> Read(st2, ek) == Some(Cleaned(MergeTop(edit.value, stored), true)))
    && (!(edit.Some? && Truthy(edit.value)) ==> Read(st2, ek) == edit)
    && (forall k | k in st.cache && k != ck && k != ek :: Read(st2, k) == Read(st, k))
  }

  /**
   * What a successful update writes: the cleaned answer merged into the
   * element's entry, the caller's `view2view` kept when both carry one, and
   * a truthy edit copy merged with the entry and cleaned for editing.
   */
  ghost predicate UpdateStored(st: Store, st2: Store, elem: Json, ws: string, data: Json)
    requires WellFormed(st) && WellFormed(st2)
  {
    var id := Text(Get(elem, "sysmlid"));
    var ck := MakeKey(MakeElementKey(id, Some(ws), None, false));
    var ek := MakeKey(MakeElementKey(id, Some(ws), None, true));
    StoredWithEdit(st, st2, ck, ek,
      AfterView2View(MergeInto(Read(st, ck), Cleaned(First(Get(data, "elements")), false)), elem))
  }

  /**
   * A merge put of `v` under `ck` (`s1`), a rewrite of that entry's object
   * to `stored` (`s2`) and then the sync of the entry under `ek` (`s3`)
   * make up `StoredWithEdit`.
   */
  lemma StoredWithEditSteps(st: Store, s1: Store, s2: Store, s3: Store, ck: string, ek: string, v: Json, stored: Json)
    requires WellFormed(st) && Unaliased(st) && ck != ek
    requires s1 == MergePut(st, ck, v)
    requires WellFormed(s2) && s2.cache == s1.cache && s2.objects == s1.objects[s1.cache[ck] := stored]
    requires WellFormed(s3) && s3.cache == s2.cache
    requires var edit := Read(s2, ek);
      && (edit.Some? && Truthy(edit.value) ==> Read(s3, ek) == Some(Cleaned(MergeTop(edit.value, stored), true)))
      && (!(edit.Some? && Truthy(edit.value)) ==> s3.objects == s2.objects)
      && (forall k | k in s3.cache && k != ek :: Read(s3, k) == Read(s2, k))
    ensures StoredWithEdit(st, s3, ck, ek, stored)
  {
    var r := s1.cache[ck];
    assert Unaliased(s1);
    forall k | k in st.cache && k != ck
      ensures Read(s2, k) == Read(st, k)
    {
      assert s2.cache[k] != r;
    }
    assert Read(s3, ck) == Some(stored);
  }

  /** Storing one more element of a list reply is one more derived put. */
  lemma StoreElementsStep(s0: Store, items: seq<Json>, i: nat, ws: string, ver: string, before: Store, after: Store)
    requires WellFormed(s0) && i < |items|
    requires before == PutDerived(s0, items[..i], ElementDerive(ws, ver))
    requires after == MergePut(before, MakeKey(ElementKeyOf(items[i], ws, ver)), Cleaned(items[i], false))
    ensures after == PutDerived(s0, items[..i + 1], ElementDerive(ws, ver))
  {
    PutDerivedExtend(s0, items, i, ElementDerive(ws, ver));
    assert ElementDerive(ws, ver)(items[i]) == Derived(ElementKeyOf(items[i], ws, ver), Cleaned(items[i], false), true);
  }

  /** A put that keeps every handle keeps the handles already collected. */
  lemma HandlesExtend(c0: map<string, Ref>, c1: map<string, Ref>, keys: seq<string>, refs: seq<Ref>, r: Ref)
    requires |refs| < |keys|
    requires forall j | 0 <= j < |refs| :: keys[j] in c0 && refs[j] == c0[keys[j]]
    requires forall k | k in c0 :: k in c1 && c1[k] == c0[k]
    requires keys[|refs|] in c1 && r == c1[keys[|refs|]]
    ensures forall j | 0 <= j < |refs| + 1 :: keys[j] in c1 && (refs + [r])[j] == c1[keys[j]]
  {
  }

  /**
   * `getElementForEdit` passes its normalized arguments on to `getElement`,
   * which normalizes them to the same values, the canonical key and the
   * same in-flight key.
   */
  lemma ForEditFetchArgs(id: string, update: Option<bool>, workspace: Option<string>)
    ensures var n := NormalizeArgs(id, update, workspace, None, true);
      var f := NormalizeArgs(id, Some(n.update), Some(n.ws), None, false);
      && f.cacheKey == MakeElementKey(id, workspace, None, false)
      && f.update == n.update && f.ws == n.ws && f.ver == "latest"
      && ElementProgressKey(id, Some(n.update), Some(n.ws), None) == ElementProgressKey(id, update, workspace, None)
  {
  }

  class ElementService {
    const cs: CacheService
    var inProgress: map<string, Ticket>
    var jobs: map<Ticket, Job>
    var editWaits: map<Ticket, EditWait>
    var settled: map<Ticket, Settled>
    var sent: seq<Request>
    var nextTicket: Ticket

    ghost predicate Valid()
      reads this, cs
    {
      && cs.Valid() && Unaliased(cs.State())
      && (forall t | t in jobs :: t < nextTicket)
      && (forall w | w in editWaits :: w < nextTicket && w !in jobs)
      && (forall k | k in inProgress :: inProgress[k] in jobs && ProgressOf(jobs[inProgress[k]]) == Some(k))
      && (forall t | t in jobs && jobs[t].PostUpdate? :: Has(jobs[t].elem, "sysmlid") && !Has(jobs[t].elem, "owner"))
      && (forall t | t in settled && settled[t].Resolved? :: settled[t].ref < |cs.objects|)
    }

    constructor (cache: CacheService)
      requires cache.Valid() && Unaliased(cache.State())
      ensures Valid() && cs == cache
      ensures inProgress == map[] && jobs == map[] && editWaits == map[] && settled == map[]
      ensures sent == [] && nextTicket == 0
    {
      cs := cache;
      inProgress := map[];
      jobs := map[];
      editWaits := map[];
      settled := map[];
      sent := [];
      nextTicket := 0;
    }

    /**
     * Sends `req` and files `job` under a new ticket, a fetch also under its
     * in-flight key.
     */
    method Send(job: Job, req: Request) returns (t: Ticket)
      requires Valid()
      requires ProgressOf(job).Some? ==> ProgressOf(job).value !in inProgress
      requires job.PostUpdate? ==> Has(job.elem, "sysmlid") && !Has(job.elem, "owner")
      modifies this`nextTicket, this`inProgress, this`jobs, this`sent
      ensures Valid()
      ensures t == old(nextTicket) && nextTicket == t + 1
      ensures jobs == old(jobs)[t := job] && sent == old(sent) + [req]
      ensures ProgressOf(job).Some? ==> inProgress == old(inProgress)[ProgressOf(job).value := t]
      ensures ProgressOf(job).None? ==> inProgress == old(inProgress)
    {
      t := nextTicket;
      nextTicket := nextTicket + 1;
      if ProgressOf(job).Some? {
        inProgress := inProgress[ProgressOf(job).value := t];
      }
      jobs := jobs[t := job];
      sent := sent + [req];
    }

    /**
     * `getElement(id, update, workspace, version)`: a call with the
     * in-flight key of a pending fetch gets that fetch's promise; a usable
     * cache entry is returned as it is, without a request; anything else
     * sends a request and registers it as in flight.
     */
    method GetElement(id: string, update: Option<bool>, workspace: Option<string>, version: Option<string>) returns (p: Promise)
      requires Valid()
      modifies this
      ensures Valid()
      ensures var n := NormalizeArgs(id, update, workspace, version, false);
        var key := ElementProgressKey(id, update, workspace, version);
        var ck := MakeKey(n.cacheKey);
        var u := UseOfCache(Read(cs.State(), ck), n.update);
        var t := old(nextTicket);
        && (key in old(inProgress) ==> p == Pending(old(inProgress[key])) && unchanged(this))
        && (key !in old(inProgress) && u == TypeError ==> p == Threw && unchanged(this))
        && (key !in old(inProgress) && u == UseCached ==> p == Done(Resolved(cs.cache[ck])) && unchanged(this))
        && (key !in old(inProgress) && u == Refetch ==>
              && p == Pending(t) && nextTicket == t + 1
              && inProgress == old(inProgress)[key := t]
              && jobs == old(jobs)[t := FetchElement(key, n.cacheKey)]
              && sent == old(sent) + [GetElementRequest(id, n.ws, n.ver)]
              && editWaits == old(editWaits) && settled == old(settled))
    {
      var n := NormalizeArgs(id, update, workspace, version, false);
      var key := ElementProgressKey(id, update, workspace, version);
      if key in inProgress {
        return Pending(inProgress[key]);
      }
      var hit := cs.Exists(Segments(n.cacheKey));
      if hit && !n.update {
        var cached := cs.Get(Segments(n.cacheKey));
        var obj := cs.objects[cached.value];
        if Get(obj, "specialization") == JNull {
          return Threw;
        }
        if !Incomplete(obj) {
          return Done(Resolved(cached.value));
        }
      }
      var t := Send(FetchElement(key, n.cacheKey), GetElementRequest(id, n.ws, n.ver));
      p := Pending(t);
    }

    /** Allocates a cleaned clone of the object behind `from` and merge-puts it under `key`. */
    method EditCopy(key: seq<string>, from: Ref) returns (r: Ref)
      requires Valid() && from < |cs.objects|
      modifies cs
      ensures Valid()
      ensures cs.State() == MergePut(old(cs.State()), MakeKey(key), Cleaned(old(cs.objects[from]), true))
      ensures r == cs.cache[MakeKey(key)]
    {
      var copy := CleanElement(cs.objects[from], true);
      r := cs.PutMerged(key, copy);
    }

    /**
     * `getElementForEdit(id, update, workspace)`: an existing edit copy is
     * returned as it is unless `update` is set; otherwise the element is
     * got and its `then` is chained as an edit wait: `ReplyEditWait` merges
     * a cleaned clone into the edit key once the element's promise has
     * settled, which for an element at hand is a promise already resolved.
     * Nothing is written here.
     */
    method GetElementForEdit(id: string, update: Option<bool>, workspace: Option<string>) returns (p: Promise)
      requires Valid()
      modifies this
      ensures Valid() && unchanged(cs)
      ensures var n := NormalizeArgs(id, update, workspace, None, true);
        var ek := MakeKey(n.cacheKey);
        var canonical := MakeElementKey(id, workspace, None, false);
        var ck := MakeKey(canonical);
        var key := ElementProgressKey(id, update, workspace, None);
        var u := UseOfCache(Read(cs.State(), ck), n.update);
        var t := old(nextTicket);
        var fetch := !(ek in cs.cache && !n.update);
        && (!fetch ==> p == Done(Resolved(cs.cache[ek])) && unchanged(this))
        && (fetch && key in old(inProgress) ==>
              && p == Pending(t) && nextTicket == t + 1
              && editWaits == old(editWaits)[t := EditWait(old(inProgress[key]), n.cacheKey)]
              && inProgress == old(inProgress) && jobs == old(jobs) && settled == old(settled) && sent == old(sent))
        && (fetch && key !in old(inProgress) && u == TypeError ==> p == Threw && unchanged(this))
        && (fetch && key !in old(inProgress) && u == UseCached ==>
              && p == Pending(t + 1) && nextTicket == t + 2
              && settled == old(settled)[t := Resolved(cs.cache[ck])]
              && editWaits == old(editWaits)[t + 1 := EditWait(t, n.cacheKey)]
              && inProgress == old(inProgress) && jobs == old(jobs) && sent == old(sent))
        && (fetch && key !in old(inProgress) && u == Refetch ==>
              && p == Pending(t + 1) && nextTicket == t + 2
              && inProgress == old(inProgress)[key := t]
              && jobs == old(jobs)[t := FetchElement(key, canonical)]
              && editWaits == old(editWaits)[t + 1 := EditWait(t, n.cacheKey)]
              && sent == old(sent) + [GetElementRequest(id, n.ws, "latest")]
              && settled == old(settled))
    {
      var n := NormalizeArgs(id, update, workspace, None, true);
      ForEditFetchArgs(id, update, workspace);
      var hit := cs.Exists(Segments(n.cacheKey));
      if hit && !n.update {
        var r := cs.Get(Segments(n.cacheKey));
        p := Done(Resolved(r.value));
      } else {
        var q := GetElement(id, Some(n.update), Some(n.ws), None);
        p := ChainEditWait(q, n.cacheKey);
      }
    }

    /**
     * `promise.then(...)` of `getElementForEdit`: the edit waits on the
     * element's promise; a promise already resolved gets a ticket of its
     * own, settled at once. A thrown error propagates.
     */
    method ChainEditWait(q: Promise, editKey: seq<string>) returns (p: Promise)
      requires Valid()
      requires q.Done? && q.outcome.Resolved? ==> q.outcome.ref < |cs.objects|
      modifies this`settled, this`editWaits, this`nextTicket
      ensures Valid()
      ensures var t := old(nextTicket);
        && (q.Threw? ==> p == Threw && unchanged(this))
        && (q.Done? ==>
              && p == Pending(t + 1) && nextTicket == t + 2
              && settled == old(settled)[t := q.outcome]
              && editWaits == old(editWaits)[t + 1 := EditWait(t, editKey)])
        && (q.Pending? ==>
              && p == Pending(t) && nextTicket == t + 1
              && settled == old(settled)
              && editWaits == old(editWaits)[t := EditWait(q.ticket, editKey)])
    {
      match q
      case Threw =>
        p := Threw;
      case Done(o) =>
        // the promise `getElement` resolved at once still runs its `then` later
        var on := nextTicket;
        settled := settled[on := o];
        var w := on + 1;
        nextTicket := w + 1;
        editWaits := editWaits[w := EditWait(on, editKey)];
        p := Pending(w);
      case Pending(fetch) =>
        var w := nextTicket;
        nextTicket := nextTicket + 1;
        editWaits := editWaits[w := EditWait(fetch, editKey)];
        p := Pending(w);
    }

    /**
     * The callbacks of a `getElement` request: on success the cleaned first
     * element of the reply is merged into the element's entry and resolves
     * the fetch, on failure the fetch is rejected with the mapped status;
     * either way it is no longer in flight. The `getElementForEdit` calls
     * chained onto it continue in `ReplyEditWait`.
     */
    method ReplyFetchElement(t: Ticket, reply: HttpResult)
      requires Valid() && t in jobs && jobs[t].FetchElement?
      modifies this, cs
      ensures Valid()
      ensures var job := old(jobs[t]);
        var ck := MakeKey(job.cacheKey);
        && jobs == old(jobs) - {t} && inProgress == old(inProgress) - {job.progress}
        && sent == old(sent) && nextTicket == old(nextTicket) && editWaits == old(editWaits)
        && (reply.Success? ==>
              && cs.State() == MergePut(old(cs.State()), ck, Cleaned(First(Get(reply.data, "elements")), false))
              && settled == old(settled)[t := Resolved(cs.cache[ck])])
        && (reply.Failure? ==>
              && cs.State() == old(cs.State())
              && settled == old(settled)[t := Rejected(HandleHttpStatus(reply.data, reply.status))])
    {
      var job := jobs[t];
      if reply.Success? {
        var clean := CleanElement(First(Get(reply.data, "elements")), false);
        var r := cs.PutMerged(job.cacheKey, clean);
        Settle(t, Resolved(r));
      } else {
        Settle(t, Rejected(HandleHttpStatus(reply.data, reply.status)));
      }
    }

    /**
     * The callback a `getElementForEdit` chained onto a fetch, run once that
     * fetch has settled: a cleaned clone of the fetched element, as it is
     * now, is merged into the edit key and the edit resolves with it; a
     * rejected fetch rejects the edit with the same reason.
     */
    method ReplyEditWait(w: Ticket)
      requires Valid() && w in editWaits && editWaits[w].on in settled
      modifies this`settled, this`editWaits, cs
      ensures Valid()
      ensures var wait := old(editWaits[w]);
        var on := old(settled[wait.on]);
        var ek := MakeKey(wait.key);
        && editWaits == old(editWaits) - {w}
        && (on.Resolved? ==>
              && cs.State() == MergePut(old(cs.State()), ek, Cleaned(old(cs.objects[on.ref]), true))
              && settled == old(settled)[w := Resolved(cs.cache[ek])])
        && (!on.Resolved? ==> cs.State() == old(cs.State()) && settled == old(settled)[w := on])
    {
      var wait := editWaits[w];
      var on := settled[wait.on];
      editWaits := editWaits - {w};
      if on.Resolved? {
        var r := EditCopy(wait.key, on.ref);
        settled := settled[w := Resolved(r)];
      } else {
        settled := settled[w := on];
      }
    }

    /**
     * `getGenericElements(url, key, update, workspace, version)`: a pending
     * fetch with the same in-flight key is shared; otherwise the url is
     * requested, whatever the cache holds.
     */
    method GetGenericElements(url: string, field: string, update: Option<bool>, workspace: Option<string>, version: Option<string>)
      returns (p: Promise)
      requires Valid()
      modifies this
      ensures Valid()
      ensures var n := Utils.Normalize(update, workspace, version);
        var key := GenericProgressKey(url, field, update, workspace, version);
        var t := old(nextTicket);
        && (key in old(inProgress) ==> p == Pending(old(inProgress[key])) && unchanged(this))
        && (key !in old(inProgress) ==>
              && p == Pending(t) && nextTicket == t + 1
              && inProgress == old(inProgress)[key := t]
              && jobs == old(jobs)[t := FetchGeneric(key, field, n.ws, n.ver)]
              && sent == old(sent) + [GetRequest(url)]
              && editWaits == old(editWaits) && settled == old(settled))
    {
      var n := Utils.Normalize(update, workspace, version);
      var key := GenericProgressKey(url, field, update, workspace, version);
      if key in inProgress {
        return Pending(inProgress[key]);
      }
      var t := Send(FetchGeneric(key, field, n.ws, n.ver), GetRequest(url));
      p := Pending(t);
    }

    /**
     * The success callback of a `getGenericElements` request: each element
     * of the reply's list under the requested field is cleaned and merged
     * into its element key, in list order, and the fetch resolves with the
     * handles those keys hold.
     */
    method GenericFetched(t: Ticket, data: Json)
      requires Valid() && t in jobs && jobs[t].FetchGeneric?
      modifies this, cs
      ensures Valid()
      ensures var job := old(jobs[t]);
        var list := Get(data, job.field);
        var items := if list.JArr? then list.items else [];
        && jobs == old(jobs) - {t} && inProgress == old(inProgress) - {job.progress}
        && sent == old(sent) && nextTicket == old(nextTicket) && editWaits == old(editWaits)
        && cs.State() == PutDerived(old(cs.State()), items, ElementDerive(job.ws, job.ver))
        && t in settled && settled == old(settled)[t := settled[t]]
        && settled[t].ResolvedMany? && |settled[t].refs| == |items|
        && (forall i | 0 <= i < |items| ::
              var key := MakeKey(ElementKeyOf(items[i], job.ws, job.ver));
              key in cs.cache && settled[t].refs[i] == cs.cache[key])
    {
      var job := jobs[t];
      var list := Get(data, job.field);
      var items := if list.JArr? then list.items else [];
      var refs := StoreElements(items, job.ws, job.ver);
      Settle(t, ResolvedMany(refs));
    }

    /** The error callback of a `getGenericElements` request: rejected with the mapped status. */
    method GenericFetchFailed(t: Ticket, status: int, data: Json)
      requires Valid() && t in jobs && jobs[t].FetchGeneric?
      modifies this
      ensures Valid()
      ensures var job := old(jobs[t]);
        && jobs == old(jobs) - {t} && inProgress == old(inProgress) - {job.progress}
        && sent == old(sent) && nextTicket == old(nextTicket) && editWaits == old(editWaits)
        && settled == old(settled)[t := Rejected(HandleHttpStatus(data, status))]
    {
      Settle(t, Rejected(HandleHttpStatus(data, status)));
    }

    /** A request settles: its deferred gets `outcome` and a fetch's in-flight key is deleted. */
    method Settle(t: Ticket, outcome: Settled)
      requires Valid() && t in jobs
      requires outcome.Resolved? ==> outcome.ref < |cs.objects|
      modifies this`jobs, this`inProgress, this`settled
      ensures Valid()
      ensures jobs == old(jobs) - {t} && settled == old(settled)[t := outcome]
      ensures ProgressOf(old(jobs[t])).Some? ==> inProgress == old(inProgress) - {ProgressOf(old(jobs[t])).value}
      ensures ProgressOf(old(jobs[t])).None? ==> inProgress == old(inProgress)
    {
      if ProgressOf(jobs[t]).Some? {
        inProgress := inProgress - {ProgressOf(jobs[t]).value};
      }
      settled := settled[t := outcome];
      jobs := jobs - {t};
    }

    /** A conflicting update posts again under the same ticket. */
    method Resend(t: Ticket, job: Job, req: Request)
      requires Valid() && t in jobs && jobs[t].PostUpdate?
      requires job.PostUpdate? && Has(job.elem, "sysmlid") && !Has(job.elem, "owner")
      modifies this`jobs, this`sent
      ensures Valid()
      ensures jobs == old(jobs)[t := job] && sent == old(sent) + [req]
    {
      jobs := jobs[t := job];
      sent := sent + [req];
    }

    /** The `forEach` of a list reply: each element cleaned and merged into its element key, in order. */
    method StoreElements(items: seq<Json>, ws: string, ver: string) returns (refs: seq<Ref>)
      requires cs.Valid() && Unaliased(cs.State())
      modifies cs
      ensures cs.Valid() && Unaliased(cs.State())
      ensures cs.State() == PutDerived(old(cs.State()), items, ElementDerive(ws, ver))
      ensures |cs.objects| == old(|cs.objects|) + |items|
      ensures |refs| == |items|
      ensures forall i | 0 <= i < |items| ::
        MakeKey(ElementKeyOf(items[i], ws, ver)) in cs.cache && refs[i] == cs.cache[MakeKey(ElementKeyOf(items[i], ws, ver))]
    {
      ghost var s0 := cs.State();
      ghost var keys := seq(|items|, j requires 0 <= j < |items| => MakeKey(ElementKeyOf(items[j], ws, ver)));
      refs := [];
      var i := 0;
      while i < |items|
        invariant 0 <= i <= |items| && |refs| == i
        invariant cs.Valid() && Unaliased(cs.State())
        invariant cs.State() == PutDerived(s0, items[..i], ElementDerive(ws, ver))
        invariant forall j | 0 <= j < i :: keys[j] in cs.cache && refs[j] == cs.cache[keys[j]]
      {
        ghost var c0 := cs.cache;
        var r := StoreElement(s0, items, i, ws, ver);
        HandlesExtend(c0, cs.cache, keys, refs, r);
        refs := refs + [r];
        i := i + 1;
      }
      assert items[..i] == items;
      assert forall j | 0 <= j < |items| :: keys[j] == MakeKey(ElementKeyOf(items[j], ws, ver));
    }

    /**
     * The `forEach` body for element `i` of a list reply: the element,
     * cleaned, merged into its element key, after elements `0..i` have been
     * stored from `s0`.
     */
    method StoreElement(ghost s0: Store, items: seq<Json>, i: nat, ws: string, ver: string) returns (r: Ref)
      requires cs.Valid() && Unaliased(cs.State()) && WellFormed(s0) && i < |items|
      requires cs.State() == PutDerived(s0, items[..i], ElementDerive(ws, ver))
      modifies cs
      ensures cs.Valid() && Unaliased(cs.State())
      ensures cs.State() == PutDerived(s0, items[..i + 1], ElementDerive(ws, ver))
      ensures MakeKey(ElementKeyOf(items[i], ws, ver)) in cs.cache && r == cs.cache[MakeKey(ElementKeyOf(items[i], ws, ver))]
      ensures forall k | k in old(cs.cache) :: k in cs.cache && cs.cache[k] == old(cs.cache[k])
    {
      var ekey := MakeElementKey(Text(Get(items[i], "sysmlid")), Some(ws), Some(ver), false);
      var clean := CleanElement(items[i], false);
      ghost var before := cs.State();
      r := cs.PutMerged(ekey, clean);
      StoreElementsStep(s0, items, i, ws, ver, before, cs.State());
    }

    /**
     * `updateElement(elem, workspace)`: an element without `sysmlid` is
     * refused before any request; otherwise its `owner` is deleted (from
     * the caller's object too, returned as `elemAfter`) and it is posted.
     */
    method UpdateElement(elem: Json, workspace: Option<string>) returns (p: Promise, elemAfter: Json)
      requires Valid()
      modifies this
      ensures Valid()
      ensures !Has(elem, "sysmlid") ==>
        && p == Done(Rejected(Message("Element id not found, create element first!")))
        && elemAfter == elem && unchanged(this)
      ensures Has(elem, "sysmlid") ==>
        var ws := Utils.Normalize(None, workspace, None).ws;
        var t := old(nextTicket);
        && elemAfter == Delete(elem, "owner")
        && p == Pending(t) && nextTicket == t + 1
        && jobs == old(jobs)[t := PostUpdate(elemAfter, ws)]
        && sent == old(sent) + [PostElements(ws, [elemAfter])]
        && inProgress == old(inProgress) && editWaits == old(editWaits) && settled == old(settled)
    {
      elemAfter := elem;
      if !Has(elem, "sysmlid") {
        return Done(Rejected(Message("Element id not found, create element first!"))), elemAfter;
      }
      if Has(elemAfter, "owner") {
        elemAfter := Delete(elemAfter, "owner");
      } else {
        DeleteAbsent(elem, "owner");
      }
      var n := Utils.Normalize(None, workspace, None);
      var t := Send(PostUpdate(elemAfter, n.ws), PostElements(n.ws, [elemAfter]));
      p := Pending(t);
    }

    /**
     * The success callback of an `updateElement` post: the update resolves
     * with the element's entry after the writes `UpdateStored` describes.
     */
    method UpdateSucceeded(t: Ticket, data: Json)
      requires Valid() && t in jobs && jobs[t].PostUpdate?
      modifies this, cs
      ensures Valid()
      ensures var job := old(jobs[t]);
        var ck := MakeKey(MakeElementKey(Text(Get(job.elem, "sysmlid")), Some(job.ws), None, false));
        && UpdateStored(old(cs.State()), cs.State(), job.elem, job.ws, data)
        && inProgress == old(inProgress) && editWaits == old(editWaits) && nextTicket == old(nextTicket)
        && jobs == old(jobs) - {t} && sent == old(sent)
        && settled == old(settled)[t := Resolved(cs.cache[ck])]
    {
      var job := jobs[t];
      var r := StoreUpdated(job.elem, job.ws, data);
      Settle(t, Resolved(r));
    }

    /**
     * The error callback of an `updateElement` post: on a conflict the
     * conflict rule either posts the element again with the server's `read`
     * stamp, the same deferred waiting for that post, or the update rejects
     * as any other failure does. The code stamps `read` onto the caller's own
     * object; here the stamped element is returned as `elemAfter` instead, and
     * no cache entry is written.
     */
    method UpdateFailed(t: Ticket, status: int, data: Json) returns (elemAfter: Json)
      requires Valid() && t in jobs && jobs[t].PostUpdate?
      modifies this
      ensures Valid()
      ensures var job := old(jobs[t]);
        var ck := MakeKey(MakeElementKey(Text(Get(job.elem, "sysmlid")), Some(job.ws), None, false));
        var rule := ConflictRule(First(Get(data, "elements")), Read(cs.State(), ck));
        && inProgress == old(inProgress) && editWaits == old(editWaits) && nextTicket == old(nextTicket)
        && (status == 409 && rule.Retry? ==>
              var again := Set(job.elem, "read", rule.read);
              && jobs == old(jobs)[t := PostUpdate(again, job.ws)]
              && sent == old(sent) + [PostElements(job.ws, [again])]
              && settled == old(settled)
              && elemAfter == again)
        && (!(status == 409 && rule.Retry?) ==>
              && elemAfter == job.elem
              && jobs == old(jobs) - {t} && sent == old(sent)
              && settled == old(settled)[t := Rejected(HandleHttpStatus(data, status))])
    {
      var job := jobs[t];
      var canonical := MakeElementKey(Text(Get(job.elem, "sysmlid")), Some(job.ws), None, false);
      var rule := Propagate;
      if status == 409 {
        rule := CheckConflict(First(Get(data, "elements")), canonical);
      }
      if rule.Retry? {
        // the recursive `updateElement`: the element still has its id and has no owner left to delete
        var again := Set(job.elem, "read", rule.read);
        Resend(t, PostUpdate(again, job.ws), PostElements(job.ws, [again]));
        elemAfter := again;
      } else {
        Settle(t, Rejected(HandleHttpStatus(data, status)));
        elemAfter := job.elem;
      }
    }

    /** The success callback's writes to the cache; returns the element's entry. */
    method StoreUpdated(elem: Json, ws: string, data: Json) returns (r: Ref)
      requires cs.Valid() && Unaliased(cs.State())
      modifies cs
      ensures cs.Valid() && Unaliased(cs.State())
      ensures UpdateStored(old(cs.State()), cs.State(), elem, ws, data)
      ensures |cs.objects| > old(|cs.objects|)
      ensures r == cs.cache[MakeKey(MakeElementKey(Text(Get(elem, "sysmlid")), Some(ws), None, false))]
    {
      var id := Text(Get(elem, "sysmlid"));
      EditKeyIsNotCanonical(id, Some(ws), None);
      ghost var st := cs.State();
      var clean := CleanElement(First(Get(data, "elements")), false);
      r := cs.PutMerged(MakeElementKey(id, Some(ws), None, false), clean);
      ghost var s1 := cs.State();
      var resp := cs.objects[r];
      if KeepsView2View(resp, elem) {
        cs.Mutate(r, AfterView2View(resp, elem));
      } else {
        assert cs.objects == cs.objects[r := resp];
      }
      ghost var s2 := cs.State();
      SyncEdit(MakeElementKey(id, Some(ws), None, true), r);
      StoredWithEditSteps(st, s1, s2, cs.State(), MakeKey(MakeElementKey(id, Some(ws), None, false)),
        MakeKey(MakeElementKey(id, Some(ws), None, true)), clean, AfterView2View(resp, elem));
    }

    /**
     * `var edit = get(editKey); if (edit) { _.merge(edit, resp); cleanElement(edit, true); }`,
     * with `from` the handle of `resp`.
     */
    method SyncEdit(editKey: seq<string>, from: Ref)
      requires cs.Valid() && Unaliased(cs.State()) && from < |cs.objects|
      modifies cs
      ensures cs.Valid() && Unaliased(cs.State()) && cs.cache == old(cs.cache) && |cs.objects| == old(|cs.objects|)
      ensures var ek := MakeKey(editKey);
        var edit := Read(old(cs.State()), ek);
        && (edit.Some? && Truthy(edit.value) ==>
              Read(cs.State(), ek) == Some(Cleaned(MergeTop(edit.value, old(cs.objects[from])), true)))
        && (!(edit.Some? && Truthy(edit.value)) ==> cs.objects == old(cs.objects))
        && (forall k | k in cs.cache && k != ek :: Read(cs.State(), k) == Read(old(cs.State()), k))
    {
      var edit := cs.Get(Segments(editKey));
      if edit.Some? && Truthy(cs.objects[edit.value]) {
        var synced := CleanElement(MergeTop(cs.objects[edit.value], cs.objects[from]), true);
        cs.Mutate(edit.value, synced);
      }
    }

    /** The conflict callback's check: clone, strip and clean both copies, then compare. */
    method CheckConflict(server: Json, canonical: seq<string>) returns (rule: Conflict)
      requires cs.Valid()
      ensures rule == ConflictRule(server, Read(cs.State(), MakeKey(canonical)))
    {
      var copy := server;
      var newread := Get(copy, "read");
      copy := Delete(copy, "modified");
      copy := Delete(copy, "read");
      copy := Delete(copy, "creator");
      copy := CleanElement(copy, false);
      var orig := cs.Get(Segments(canonical));
      if orig.None? || !Truthy(cs.objects[orig.value]) {
        return Propagate;
      }
      var current := cs.objects[orig.value];
      current := Delete(current, "modified");
      current := Delete(current, "read");
      current := Delete(current, "creator");
      current := CleanElement(current, false);
      if copy == current {
        rule := Retry(newread);
      } else {
        rule := Propagate;
      }
    }

    /**
     * `createElement(elem, workspace)`: an element without an owner is given
     * the holding bin (on the caller's object, returned as `elemAfter`,
     * even when the call is then refused); an element that already has an
     * id is refused before any request; otherwise it is posted.
     */
    method CreateElement(elem: Json, workspace: Option<string>) returns (p: Promise, elemAfter: Json)
      requires Valid()
      modifies this
      ensures Valid()
      ensures Has(elem, "owner") ==> elemAfter == elem
      ensures elem.JObj? && !Has(elem, "owner") ==> Get(elemAfter, "owner") == JStr("holding_bin_project")
      ensures forall k :: k != "owner" ==> Has(elemAfter, k) == Has(elem, k) && Get(elemAfter, k) == Get(elem, k)
      ensures Has(elem, "sysmlid") ==>
        p == Done(Rejected(Validation(400, "Element create cannot have id"))) && unchanged(this)
      ensures !Has(elem, "sysmlid") ==>
        var ws := Utils.Normalize(None, workspace, None).ws;
        var t := old(nextTicket);
        && p == Pending(t) && nextTicket == t + 1
        && jobs == old(jobs)[t := PostCreate(ws)]
        && sent == old(sent) + [PostElements(ws, [elemAfter])]
        && inProgress == old(inProgress) && editWaits == old(editWaits) && settled == old(settled)
    {
      var n := Utils.Normalize(None, workspace, None);
      elemAfter := elem;
      if !Has(elemAfter, "owner") {
        elemAfter := Set(elemAfter, "owner", JStr("holding_bin_project"));
      }
      if Has(elemAfter, "sysmlid") {
        return Done(Rejected(Validation(400, "Element create cannot have id"))), elemAfter;
      }
      var t := Send(PostCreate(n.ws), PostElements(n.ws, [elemAfter]));
      p := Pending(t);
    }

    /**
     * The callbacks of a `createElement` post: on success the cleaned
     * answer is merged into the key of the id the server gave it, at
     * version `latest`, and resolves the creation; on failure it is
     * rejected with the mapped status.
     */
    method ReplyCreate(t: Ticket, reply: HttpResult)
      requires Valid() && t in jobs && jobs[t].PostCreate?
      modifies this, cs
      ensures Valid()
      ensures var job := old(jobs[t]);
        var resp := First(Get(reply.data, "elements"));
        var key := MakeKey(MakeElementKey(Text(Get(resp, "sysmlid")), Some(job.ws), Some("latest"), false));
        && jobs == old(jobs) - {t} && inProgress == old(inProgress) && editWaits == old(editWaits)
        && sent == old(sent) && nextTicket == old(nextTicket)
        && (reply.Success? ==>
              && cs.State() == MergePut(old(cs.State()), key, Cleaned(resp, false))
              && settled == old(settled)[t := Resolved(cs.cache[key])])
        && (reply.Failure? ==>
              && cs.State() == old(cs.State())
              && settled == old(settled)[t := Rejected(HandleHttpStatus(reply.data, reply.status))])
    {
      var job := jobs[t];
      if reply.Success? {
        var resp := First(Get(reply.data, "elements"));
        var key := MakeElementKey(Text(Get(resp, "sysmlid")), Some(job.ws), Some("latest"), false);
        var clean := CleanElement(resp, false);
        var r := cs.PutMerged(key, clean);
        Settle(t, Resolved(r));
      } else {
        Settle(t, Rejected(HandleHttpStatus(reply.data, reply.status)));
      }
    }

    /** `isDirty(id, workspace)` */
    method IsDirty(id: string, workspace: Option<string>) returns (b: bool)
      requires Valid()
      ensures b == Dirty(cs.State(), id, workspace)
    {
      var editKey := MakeElementKey(id, workspace, None, true);
      var normalKey := MakeElementKey(id, workspace, None, false);
      var normal := cs.Get(Segments(normalKey));
      var edit := cs.Get(Segments(editKey));
      var nv := if normal.Some? then cs.objects[normal.value] else JNull;
      b := edit.Some? && Truthy(cs.objects[edit.value]) && nv != cs.objects[edit.value];
    }
  }
}
