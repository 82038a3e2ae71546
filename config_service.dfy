/**
 * ConfigService: configurations (tags) and product snapshots, cached under
 * hierarchical keys in the shared CacheService:
 *
 *   ['sites', ws, site, 'configs']     the configurations of a site
 *   ['configs', ws, id]                one configuration
 *   ['configs', ws, id, 'products']    the products of a configuration
 *   ['configs', ws, id, 'snapshots']   the snapshots of a configuration
 *   ['products', ws, id, 'snapshots']  the snapshots of a product
 *   ['snapshots', ws, id]              one snapshot
 *
 * A list is put without merging and seeds one merging put per element.
 * Each call is given the `$http` outcome of the request it would send and
 * completes at once: the service keeps no record of requests in flight.
 */
module Configs {
  import opened Json
  import opened Cache
  import opened Utils
  import opened Urls

  /** The URLService endpoint a request goes to. */
  datatype Endpoint =
    | SiteConfigsUrl(site: string, ws: string)
    | ConfigUrl(id: string, site: string, ws: string)
    | ConfigProductsUrl(id: string, site: string, ws: string)
    | ConfigSnapshotsUrl(id: string, site: string, ws: string)
    | ProductSnapshotsUrl(id: string, site: string, ws: string)

  datatype Request = HttpGet(at: Endpoint) | HttpPost(at: Endpoint, body: Json)

  /** What a call leaves behind: the cache, the requests sent so far, and how its promise settled. */
  datatype Step = Step(st: Store, sent: seq<Request>, outcome: Settled)

  const NoIdMessage: string := "Config id not found, create configuration first!"
  const HasIdMessage: string := "Config create cannot already have id"

  /** ConfigService's `normalize(update, workspace)`: never a version. */
  function ConfigNormalize(update: Option<bool>, workspace: Option<string>): (n: Normalized)
    ensures n.ver == "latest"
    ensures n.update <==> update == Some(true)
    ensures Given(workspace) ==> n.ws == workspace.value
    ensures !Given(workspace) ==> n.ws == "master"
  {
    Normalize(update, workspace, None)
  }

  function SiteConfigsKey(ws: string, site: string): seq<string> { ["sites", ws, site, "configs"] }
  function ConfigKey(ws: string, id: string): seq<string> { ["configs", ws, id] }
  function ConfigProductsKey(ws: string, id: string): seq<string> { ["configs", ws, id, "products"] }
  function ConfigSnapshotsKey(ws: string, id: string): seq<string> { ["configs", ws, id, "snapshots"] }
  function ProductSnapshotsKey(ws: string, id: string): seq<string> { ["products", ws, id, "snapshots"] }
  function SnapshotKey(ws: string, id: string): seq<string> { ["snapshots", ws, id] }

  /** `val.id` as a key segment. */
  function IdOf(val: Json): string {
    Text(Get(val, "id"))
  }

  /** The derive function of a configuration list: `{key: ['configs', ws, val.id], value: val, merge: true}`. */
  function ConfigDerive(ws: string): Json -> Derived {
    val => Derived(ConfigKey(ws, IdOf(val)), val, true)
  }

  /** The derive function of a product list: each product is seeded under its latest element key. */
  function ProductDerive(ws: string): Json -> Derived {
    val => Derived(MakeElementKey(Text(Get(val, "sysmlid")), Some(ws), Some("latest"), false), val, true)
  }

  /** The derive function of a snapshot list: `{key: ['snapshots', ws, val.id], value: val, merge: true}`. */
  function SnapshotDerive(ws: string): Json -> Derived {
    val => Derived(SnapshotKey(ws, IdOf(val)), val, true)
  }

  /** Every key `f` derives has `head` as its first segment. */
  ghost predicate DerivesUnder(f: Json -> Derived, head: string) {
    forall x :: |f(x).key| > 0 && f(x).key[0] == head
  }

  /** The first segments of `key` and of `head` start with different letters. */
  predicate HeadsDiffer(key: seq<string>, head: string) {
    |key| > 0 && |key[0]| > 0 && |head| > 0 && key[0][0] != head[0]
  }

  /** A key outside the family `f` derives into is never one of the keys a list put derives. */
  lemma ApartFromDerived(key: seq<string>, head: string, v: Json, f: Json -> Derived)
    requires DerivesUnder(f, head) && HeadsDiffer(key, head)
    ensures MakeKey(key) !in ListKeys(v, f)
  {
    if v.JArr? {
      forall i | 0 <= i < |v.items| ensures MakeKey(f(v.items[i]).key) != MakeKey(key) {
        DifferentHeads(f(v.items[i]).key, key);
      }
    }
  }

  /** A getter's short cut: the key is cached and no update from the server is asked for. */
  predicate CacheHit(st: Store, rk: string, update: bool) {
    rk in st.cache && !update
  }

  /**
   * Sending a list request: its success puts the list under `rk` without
   * merging, seeds the derived puts of its elements, and resolves with what
   * `get(rk)` then holds; its failure rejects with the mapped status.
   */
  function ListSend(st: Store, sent: seq<Request>, rk: string, req: Request, field: string, f: Json -> Derived,
                    reply: HttpResult): (r: Step)
    requires WellFormed(st)
    ensures WellFormed(r.st) && r.sent == sent + [req]
    ensures r.outcome.Resolved? <==> reply.Success?
    ensures r.outcome.Resolved? ==> rk in r.st.cache && r.outcome.ref == r.st.cache[rk]
    ensures reply.Failure? ==> r.st == st && r.outcome == Rejected(HandleHttpStatus(reply.data, reply.status))
  {
    match reply
    case Success(data, _) =>
      var list := Get(data, field);
      ListPutKeys(st, rk, list, f);
      var st2 := ListPut(st, rk, list, f);
      Step(st2, sent + [req], Resolved(st2.cache[rk]))
    case Failure(status, data) =>
      Step(st, sent + [req], Rejected(HandleHttpStatus(data, status)))
  }

  /** A list getter: the cached list on a hit, without a request; otherwise `ListSend`. */
  function ListFetch(st: Store, sent: seq<Request>, rk: string, update: bool, req: Request, field: string,
                     f: Json -> Derived, reply: HttpResult): (r: Step)
    requires WellFormed(st)
    ensures WellFormed(r.st)
    ensures CacheHit(st, rk, update) ==> r.st == st && r.sent == sent && r.outcome == Resolved(st.cache[rk])
    ensures !CacheHit(st, rk, update) ==> r == ListSend(st, sent, rk, req, field, f, reply)
    ensures r.outcome.Resolved? ==> rk in r.st.cache && r.outcome.ref == r.st.cache[rk]
  {
    if CacheHit(st, rk, update) then Step(st, sent, Resolved(st.cache[rk]))
    else ListSend(st, sent, rk, req, field, f, reply)
  }

  /**
   * A successful list request leaves the list itself under its key (it
   * replaces, it does not merge), adds exactly the derived keys, keeps every
   * other key's object, and resolves with the list's handle.
   */
  lemma ListSendStores(st: Store, sent: seq<Request>, key: seq<string>, head: string, req: Request, field: string,
                       f: Json -> Derived, reply: HttpResult)
    requires WellFormed(st) && Unaliased(st) && reply.Success?
    requires DerivesUnder(f, head) && HeadsDiffer(key, head)
    ensures var rk := MakeKey(key);
      var r := ListSend(st, sent, rk, req, field, f, reply);
      var list := Get(reply.data, field);
      && Unaliased(r.st)
      && Read(r.st, rk) == Some(list) && r.outcome == Resolved(r.st.cache[rk])
      && r.st.cache.Keys == st.cache.Keys + {rk} + ListKeys(list, f)
      && (forall k | k in st.cache && k != rk && k !in ListKeys(list, f) :: Read(r.st, k) == Read(st, k))
  {
    var list := Get(reply.data, field);
    ApartFromDerived(key, head, list, f);
    ListPutUnaliased(st, MakeKey(key), list, f);
    ListPutKeys(st, MakeKey(key), list, f);
    ListPutShows(st, MakeKey(key), list, f);
  }

  /**
   * A successful list request leaves under each element's derived key what
   * the derived puts of the whole list, in order, leave there; an element
   * whose derived put merges and whose key no other element shares is thus
   * merged into what that key showed before.
   */
  lemma ListSendSeeds(st: Store, sent: seq<Request>, key: seq<string>, head: string, req: Request, field: string,
                      f: Json -> Derived, reply: HttpResult, i: nat)
    requires WellFormed(st) && Unaliased(st) && reply.Success?
    requires DerivesUnder(f, head) && HeadsDiffer(key, head)
    requires Get(reply.data, field).JArr? && i < |Get(reply.data, field).items|
    ensures var items := Get(reply.data, field).items;
      var k := MakeKey(f(items[i]).key);
      Read(ListSend(st, sent, MakeKey(key), req, field, f, reply).st, k) == DerivedShows(Read(st, k), items, f, k)
    ensures var items := Get(reply.data, field).items;
      var k := MakeKey(f(items[i]).key);
      f(items[i]).merge && (forall j | 0 <= j < |items| && j != i :: MakeKey(f(items[j]).key) != k) ==>
        Read(ListSend(st, sent, MakeKey(key), req, field, f, reply).st, k) == Some(MergeInto(Read(st, k), f(items[i]).value))
  {
    var list := Get(reply.data, field);
    DifferentHeads(f(list.items[i]).key, key);
    ListPutSeeds(st, MakeKey(key), list, f, MakeKey(f(list.items[i]).key));
    var k := MakeKey(f(list.items[i]).key);
    if f(list.items[i]).merge && (forall j | 0 <= j < |list.items| && j != i :: MakeKey(f(list.items[j]).key) != k) {
      DerivedShowsUnique(Read(st, k), list.items, f, i);
    }
  }

  /**
   * `getSiteConfigs` that reaches the server: each configuration's key
   * `['configs', ws, id]` shows what the configurations of the reply with
   * that id, merged in list order, leave there; a configuration whose id no
   * other one shares is merged into what the key showed before.
   */
  lemma SiteConfigsSeeded(st: Store, sent: seq<Request>, ws: string, site: string, req: Request, reply: HttpResult, i: nat)
    requires WellFormed(st) && Unaliased(st) && reply.Success?
    requires Get(reply.data, "configurations").JArr? && i < |Get(reply.data, "configurations").items|
    ensures var items := Get(reply.data, "configurations").items;
      var k := MakeKey(ConfigKey(ws, IdOf(items[i])));
      var r := ListSend(st, sent, MakeKey(SiteConfigsKey(ws, site)), req, "configurations", ConfigDerive(ws), reply);
      && Read(r.st, k) == DerivedShows(Read(st, k), items, ConfigDerive(ws), k)
      && ((forall j | 0 <= j < |items| && j != i :: MakeKey(ConfigKey(ws, IdOf(items[j]))) != k) ==>
            Read(r.st, k) == Some(MergeInto(Read(st, k), items[i])))
  {
    ListSendSeeds(st, sent, SiteConfigsKey(ws, site), "configs", req, "configurations", ConfigDerive(ws), reply, i);
  }

  /**
   * `getConfigProducts` that reaches the server: each product's latest
   * element key in the workspace shows what the products of the reply with
   * that id, merged in list order, leave there; a product whose id no other
   * one shares is merged into what the key showed before.
   */
  lemma ConfigProductsSeeded(st: Store, sent: seq<Request>, ws: string, id: string, req: Request, reply: HttpResult, i: nat)
    requires WellFormed(st) && Unaliased(st) && reply.Success?
    requires Get(reply.data, "products").JArr? && i < |Get(reply.data, "products").items|
    ensures var items := Get(reply.data, "products").items;
      var k := MakeKey(MakeElementKey(Text(Get(items[i], "sysmlid")), Some(ws), Some("latest"), false));
      var r := ListSend(st, sent, MakeKey(ConfigProductsKey(ws, id)), req, "products", ProductDerive(ws), reply);
      && Read(r.st, k) == DerivedShows(Read(st, k), items, ProductDerive(ws), k)
      && ((forall j | 0 <= j < |items| && j != i ::
             MakeKey(MakeElementKey(Text(Get(items[j], "sysmlid")), Some(ws), Some("latest"), false)) != k) ==>
            Read(r.st, k) == Some(MergeInto(Read(st, k), items[i])))
  {
    ListSendSeeds(st, sent, ConfigProductsKey(ws, id), "elements", req, "products", ProductDerive(ws), reply, i);
  }

  /**
   * A snapshot list stored under a key outside the `snapshots` family (a
   * configuration's or a product's): each snapshot's key
   * `['snapshots', ws, id]` shows what the snapshots of the reply with that
   * id, merged in list order, leave there; a snapshot whose id no other one
   * shares is merged into what the key showed before.
   */
  lemma SnapshotsSeeded(st: Store, sent: seq<Request>, ws: string, key: seq<string>, req: Request, reply: HttpResult, i: nat)
    requires WellFormed(st) && Unaliased(st) && reply.Success?
    requires HeadsDiffer(key, "snapshots")
    requires Get(reply.data, "snapshots").JArr? && i < |Get(reply.data, "snapshots").items|
    ensures var items := Get(reply.data, "snapshots").items;
      var k := MakeKey(SnapshotKey(ws, IdOf(items[i])));
      var r := ListSend(st, sent, MakeKey(key), req, "snapshots", SnapshotDerive(ws), reply);
      && Read(r.st, k) == DerivedShows(Read(st, k), items, SnapshotDerive(ws), k)
      && ((forall j | 0 <= j < |items| && j != i :: MakeKey(SnapshotKey(ws, IdOf(items[j]))) != k) ==>
            Read(r.st, k) == Some(MergeInto(Read(st, k), items[i])))
  {
    ListSendSeeds(st, sent, key, "snapshots", req, "snapshots", SnapshotDerive(ws), reply, i);
  }

  /**
   * A site-configs reply that lists the configuration `c` twice, as
   * `{id: 'c', a: 1}` and then `{id: 'c', b: 2}`, leaves `['configs', ws, 'c']`,
   * absent before, showing both merged in order.
   */
  lemma SiteConfigsRepeatedId(st: Store, sent: seq<Request>, ws: string, site: string, req: Request, config: Json)
    requires WellFormed(st) && Unaliased(st) && MakeKey(ConfigKey(ws, "c")) !in st.cache
    ensures var a := JObj(map["id" := JStr("c"), "a" := JNum(1)]);
      var b := JObj(map["id" := JStr("c"), "b" := JNum(2)]);
      var reply := Success(JObj(map["configurations" := JArr([a, b])]), config);
      var r := ListSend(st, sent, MakeKey(SiteConfigsKey(ws, site)), req, "configurations", ConfigDerive(ws), reply);
      Read(r.st, MakeKey(ConfigKey(ws, "c"))) == Some(JObj(map["id" := JStr("c"), "a" := JNum(1), "b" := JNum(2)]))
  {
    var a := JObj(map["id" := JStr("c"), "a" := JNum(1)]);
    var b := JObj(map["id" := JStr("c"), "b" := JNum(2)]);
    var reply := Success(JObj(map["configurations" := JArr([a, b])]), config);
    var k := MakeKey(ConfigKey(ws, "c"));
    var f := ConfigDerive(ws);
    assert Get(reply.data, "configurations").items == [a, b];
    assert IdOf(a) == "c" && IdOf(b) == "c";
    SiteConfigsSeeded(st, sent, ws, site, req, reply, 0);
    RepeatedKeyMerges(Read(st, k), a, b, f, k);
    MergeTwoConfigs();
  }

  lemma MergeTwoConfigs()
    ensures MergeTop(JObj(map["id" := JStr("c"), "a" := JNum(1)]), JObj(map["id" := JStr("c"), "b" := JNum(2)]))
      == JObj(map["id" := JStr("c"), "a" := JNum(1), "b" := JNum(2)])
  {
    var a := JObj(map["id" := JStr("c"), "a" := JNum(1)]);
    var b := JObj(map["id" := JStr("c"), "b" := JNum(2)]);
    var m := Merge(a, b);
    assert m.fields.Keys == {"id", "a", "b"};
    assert m.fields["id"] == Merge(JStr("c"), JStr("c")) == JStr("c");
    assert m.fields["b"] == Merge(JNull, JNum(2)) == JNum(2);
    assert m.fields == map["id" := JStr("c"), "a" := JNum(1), "b" := JNum(2)];
  }

  /** Two merging elements deriving one key merge into it one after the other. */
  lemma RepeatedKeyMerges(prev: Option<Json>, a: Json, b: Json, f: Json -> Derived, k: string)
    requires MakeKey(f(a).key) == k && MakeKey(f(b).key) == k && f(a).merge && f(b).merge
    ensures DerivedShows(prev, [a, b], f, k) == Some(MergeInto(Some(MergeInto(prev, f(a).value)), f(b).value))
  {
    assert [a, b][..1] == [a];
    assert [a][..0] == [];
  }

  /**
   * A refresh of a cached configuration whose reply lists no configuration:
   * `_.merge` of `undefined` takes nothing, so the entry keeps what it
   * showed and is what the promise resolves with.
   */
  lemma ConfigRefreshWithoutConfiguration(st: Store, sent: seq<Request>, rk: string, req: Request, reply: HttpResult)
    requires WellFormed(st) && Unaliased(st) && rk in st.cache && reply.Success?
    requires !Mergeable(First(Get(reply.data, "configurations")))
    ensures var r := ConfigFetch(st, sent, rk, true, req, reply);
      Read(r.st, rk) == Read(st, rk) && r.outcome == Resolved(st.cache[rk])
  {
  }

  /** The configuration and snapshot list keys lie outside the families their elements are seeded into. */
  lemma ListKeysApart(ws: string, site: string, id: string)
    ensures HeadsDiffer(SiteConfigsKey(ws, site), "configs")
    ensures HeadsDiffer(ConfigProductsKey(ws, id), "elements")
    ensures HeadsDiffer(ConfigSnapshotsKey(ws, id), "snapshots")
    ensures HeadsDiffer(ProductSnapshotsKey(ws, id), "snapshots")
  {
  }

  /**
   * `getConfig`: the cached configuration on a hit, without a request;
   * otherwise the first configuration of the reply merge-put under the key.
   */
  function ConfigFetch(st: Store, sent: seq<Request>, rk: string, update: bool, req: Request, reply: HttpResult): (r: Step)
    requires WellFormed(st)
    ensures WellFormed(r.st)
    ensures CacheHit(st, rk, update) ==> r.st == st && r.sent == sent && r.outcome == Resolved(st.cache[rk])
    ensures !CacheHit(st, rk, update) ==> r.sent == sent + [req]
    ensures !CacheHit(st, rk, update) && reply.Success? ==>
      r.st == MergePut(st, rk, First(Get(reply.data, "configurations")))
    ensures !CacheHit(st, rk, update) && reply.Failure? ==>
      r.st == st && r.outcome == Rejected(HandleHttpStatus(reply.data, reply.status))
    ensures r.outcome.Resolved? ==> rk in r.st.cache && r.outcome.ref == r.st.cache[rk]
  {
    if CacheHit(st, rk, update) then Step(st, sent, Resolved(st.cache[rk]))
    else match reply
      case Success(data, _) =>
        var st2 := MergePut(st, rk, First(Get(data, "configurations")));
        Step(st2, sent + [req], Resolved(st2.cache[rk]))
      case Failure(status, data) =>
        Step(st, sent + [req], Rejected(HandleHttpStatus(data, status)))
  }

  /** The body of a configuration post: `{configurations: [config]}`. */
  function ConfigsBody(config: Json): Json {
    JObj(map["configurations" := JArr([config])])
  }

  /**
   * `updateConfig(config, site, workspace)`: a configuration without an id
   * is refused with status 400 and no request; otherwise it is posted and
   * the reply is merge-put under the configuration's own key.
   */
  function ConfigUpdate(st: Store, sent: seq<Request>, config: Json, site: string, ws: string, reply: HttpResult): (r: Step)
    requires WellFormed(st)
    ensures WellFormed(r.st)
    ensures (r.outcome.Rejected? && r.outcome.reason.Validation?) <==> !Has(config, "id")
    ensures !Has(config, "id") ==> r.st == st && r.sent == sent && r.outcome == Rejected(Validation(400, NoIdMessage))
    ensures Has(config, "id") ==> r.sent == sent + [HttpPost(SiteConfigsUrl(site, ws), ConfigsBody(config))]
    ensures Has(config, "id") && reply.Success? ==>
      var rk := MakeKey(ConfigKey(ws, IdOf(config)));
      r.st == MergePut(st, rk, reply.data) && r.outcome == Resolved(r.st.cache[rk])
    ensures Has(config, "id") && reply.Failure? ==>
      r.st == st && r.outcome == Rejected(HandleHttpStatus(reply.data, reply.status))
  {
    if !Has(config, "id") then Step(st, sent, Rejected(Validation(400, NoIdMessage)))
    else
      var req := HttpPost(SiteConfigsUrl(site, ws), ConfigsBody(config));
      match reply
      case Success(data, _) =>
        var rk := MakeKey(ConfigKey(ws, IdOf(config)));
        var st2 := MergePut(st, rk, data);
        Step(st2, sent + [req], Resolved(st2.cache[rk]))
      case Failure(status, data) =>
        Step(st, sent + [req], Rejected(HandleHttpStatus(data, status)))
  }

  /**
   * `push(v)` onto the object under `lk` when the key exists and holds a
   * list; nothing happens otherwise, and no key is created.
   */
  function AppendToList(st: Store, lk: string, v: Json): (r: Store)
    requires WellFormed(st)
    ensures WellFormed(r) && r.cache == st.cache && |r.objects| == |st.objects|
    ensures lk in st.cache && st.objects[st.cache[lk]].JArr? ==>
      Read(r, lk) == Some(JArr(st.objects[st.cache[lk]].items + [v]))
    ensures !(lk in st.cache && st.objects[st.cache[lk]].JArr?) ==> r == st
    ensures Unaliased(st) ==> forall k | k in st.cache && k != lk :: Read(r, k) == Read(st, k)
  {
    if lk in st.cache && st.objects[st.cache[lk]].JArr? then
      var h := st.cache[lk];
      Store(st.cache, st.objects[h := JArr(st.objects[h].items + [v])])
    else st
  }

  /**
   * `createConfig(config, site, workspace)`: a configuration that already
   * has an id is refused with status 400 and no request; otherwise it is
   * posted, the reply is merge-put under `['configs', ws, id]` with the id
   * read from the reply's request config, and appended to the site's
   * configuration list when that list is cached.
   */
  function ConfigCreate(st: Store, sent: seq<Request>, config: Json, site: string, ws: string, reply: HttpResult): (r: Step)
    requires WellFormed(st)
    ensures WellFormed(r.st)
    ensures (r.outcome.Rejected? && r.outcome.reason.Validation?) <==> Has(config, "id")
    ensures Has(config, "id") ==> r.st == st && r.sent == sent && r.outcome == Rejected(Validation(400, HasIdMessage))
    ensures !Has(config, "id") ==> r.sent == sent + [HttpPost(SiteConfigsUrl(site, ws), ConfigsBody(config))]
    ensures !Has(config, "id") && reply.Success? ==>
      var rk := MakeKey(ConfigKey(ws, IdOf(reply.config)));
      var st2 := MergePut(st, rk, reply.data);
      r.st == AppendToList(st2, MakeKey(SiteConfigsKey(ws, site)), reply.data) && r.outcome == Resolved(st2.cache[rk])
    ensures !Has(config, "id") && reply.Failure? ==>
      r.st == st && r.outcome == Rejected(HandleHttpStatus(reply.data, reply.status))
  {
    if Has(config, "id") then Step(st, sent, Rejected(Validation(400, HasIdMessage)))
    else
      var req := HttpPost(SiteConfigsUrl(site, ws), ConfigsBody(config));
      match reply
      case Success(data, httpConfig) =>
        var rk := MakeKey(ConfigKey(ws, IdOf(httpConfig)));
        var st2 := MergePut(st, rk, data);
        Step(AppendToList(st2, MakeKey(SiteConfigsKey(ws, site)), data), sent + [req], Resolved(st2.cache[rk]))
      case Failure(status, data) =>
        Step(st, sent + [req], Rejected(HandleHttpStatus(data, status)))
  }

  /**
   * A created configuration: the promise's handle shows the reply merged
   * into what the configuration key showed, the site's list grows by the
   * reply exactly when it was cached as a list, a site list that was not
   * cached is not created, and no other key shows anything new.
   */
  lemma CreatedConfigStored(st: Store, sent: seq<Request>, config: Json, site: string, ws: string, reply: HttpResult)
    requires WellFormed(st) && Unaliased(st) && !Has(config, "id") && reply.Success?
    ensures var r := ConfigCreate(st, sent, config, site, ws, reply);
      var rk := MakeKey(ConfigKey(ws, IdOf(reply.config)));
      var lk := MakeKey(SiteConfigsKey(ws, site));
      && Unaliased(r.st) && r.outcome.Resolved? && rk in r.st.cache && r.outcome.ref == r.st.cache[rk]
      && Read(r.st, rk) == Some(MergeInto(Read(st, rk), reply.data))
      && (Read(st, lk).Some? && Read(st, lk).value.JArr? ==>
            Read(r.st, lk) == Some(JArr(Read(st, lk).value.items + [reply.data])))
      && (!(Read(st, lk).Some? && Read(st, lk).value.JArr?) ==> Read(r.st, lk) == Read(st, lk))
      && (forall k | k in st.cache && k != rk && k != lk :: Read(r.st, k) == Read(st, k))
  {
    var rk := MakeKey(ConfigKey(ws, IdOf(reply.config)));
    var lk := MakeKey(SiteConfigsKey(ws, site));
    DifferentHeads(ConfigKey(ws, IdOf(reply.config)), SiteConfigsKey(ws, site));
    var st2 := MergePut(st, rk, reply.data);
    assert Read(st2, lk) == Read(st, lk);
  }

  class ConfigService {
    const cs: CacheService
    var sent: seq<Request>

    ghost predicate Valid()
      reads this, cs
    {
      cs.Valid() && Unaliased(cs.State())
    }

    constructor (cache: CacheService)
      requires cache.Valid() && Unaliased(cache.State())
      ensures Valid() && cs == cache && sent == []
    {
      cs := cache;
      sent := [];
    }

    /** The request of a list getter, sent and answered. */
    method SendList(key: seq<string>, req: Request, field: string, f: Json -> Derived, reply: HttpResult) returns (o: Settled)
      requires Valid()
      modifies this`sent, cs
      ensures Valid()
      ensures Step(cs.State(), sent, o) == ListSend(old(cs.State()), old(sent), MakeKey(key), req, field, f, reply)
    {
      sent := sent + [req];
      match reply
      case Success(data, _) =>
        ghost var st := cs.State();
        var list := Get(data, field);
        var h := cs.Alloc(list);
        var _ := cs.Put(Segments(key), h, false, Some(f));
        ListPutUnaliased(st, MakeKey(key), list, f);
        var g := cs.Get(Segments(key));
        o := Resolved(g.value);
      case Failure(status, data) =>
        o := Rejected(HandleHttpStatus(data, status));
    }

    /** The common shape of the list getters: `exists(key) && !update` short-cuts. */
    method FetchList(key: seq<string>, update: bool, req: Request, field: string, f: Json -> Derived, reply: HttpResult)
      returns (o: Settled)
      requires Valid()
      modifies this`sent, cs
      ensures Valid()
      ensures Step(cs.State(), sent, o) == ListFetch(old(cs.State()), old(sent), MakeKey(key), update, req, field, f, reply)
    {
      var e := cs.Exists(Segments(key));
      if e && !update {
        var h := cs.Get(Segments(key));
        o := Resolved(h.value);
      } else {
        o := SendList(key, req, field, f, reply);
      }
    }

    /** `getSiteConfigs(site, workspace, update)` */
    method GetSiteConfigs(site: string, workspace: Option<string>, update: Option<bool>, reply: HttpResult) returns (o: Settled)
      requires Valid()
      modifies this`sent, cs
      ensures Valid()
      ensures var n := ConfigNormalize(update, workspace);
        Step(cs.State(), sent, o) == ListFetch(old(cs.State()), old(sent), MakeKey(SiteConfigsKey(n.ws, site)), n.update,
          HttpGet(SiteConfigsUrl(site, n.ws)), "configurations", ConfigDerive(n.ws), reply)
    {
      var n := ConfigNormalize(update, workspace);
      o := FetchList(SiteConfigsKey(n.ws, site), n.update, HttpGet(SiteConfigsUrl(site, n.ws)), "configurations",
        ConfigDerive(n.ws), reply);
    }

    /** `getConfig(id, site, workspace, update)` */
    method GetConfig(id: string, site: string, workspace: Option<string>, update: Option<bool>, reply: HttpResult)
      returns (o: Settled)
      requires Valid()
      modifies this`sent, cs
      ensures Valid()
      ensures var n := ConfigNormalize(update, workspace);
        Step(cs.State(), sent, o) == ConfigFetch(old(cs.State()), old(sent), MakeKey(ConfigKey(n.ws, id)), n.update,
          HttpGet(ConfigUrl(id, site, n.ws)), reply)
    {
      var n := ConfigNormalize(update, workspace);
      var key := ConfigKey(n.ws, id);
      var e := cs.Exists(Segments(key));
      if e && !n.update {
        var h := cs.Get(Segments(key));
        o := Resolved(h.value);
        return;
      }
      sent := sent + [HttpGet(ConfigUrl(id, site, n.ws))];
      match reply
      case Success(data, _) =>
        var h := cs.PutMerged(key, First(Get(data, "configurations")));
        o := Resolved(h);
      case Failure(status, data) =>
        o := Rejected(HandleHttpStatus(data, status));
    }

    /** `getConfigProducts(id, site, workspace, update)` */
    method GetConfigProducts(id: string, site: string, workspace: Option<string>, update: Option<bool>, reply: HttpResult)
      returns (o: Settled)
      requires Valid()
      modifies this`sent, cs
      ensures Valid()
      ensures var n := ConfigNormalize(update, workspace);
        Step(cs.State(), sent, o) == ListFetch(old(cs.State()), old(sent), MakeKey(ConfigProductsKey(n.ws, id)), n.update,
          HttpGet(ConfigProductsUrl(id, site, n.ws)), "products", ProductDerive(n.ws), reply)
    {
      var n := ConfigNormalize(update, workspace);
      o := FetchList(ConfigProductsKey(n.ws, id), n.update, HttpGet(ConfigProductsUrl(id, site, n.ws)), "products",
        ProductDerive(n.ws), reply);
    }

    /** `getConfigSnapshots(id, site, workspace, update)` */
    method GetConfigSnapshots(id: string, site: string, workspace: Option<string>, update: Option<bool>, reply: HttpResult)
      returns (o: Settled)
      requires Valid()
      modifies this`sent, cs
      ensures Valid()
      ensures var n := ConfigNormalize(update, workspace);
        Step(cs.State(), sent, o) == ListFetch(old(cs.State()), old(sent), MakeKey(ConfigSnapshotsKey(n.ws, id)), n.update,
          HttpGet(ConfigSnapshotsUrl(id, site, n.ws)), "snapshots", SnapshotDerive(n.ws), reply)
    {
      var n := ConfigNormalize(update, workspace);
      o := FetchList(ConfigSnapshotsKey(n.ws, id), n.update, HttpGet(ConfigSnapshotsUrl(id, site, n.ws)), "snapshots",
        SnapshotDerive(n.ws), reply);
    }

    /** `getProductSnapshots(id, site, workspace, update)` */
    method GetProductSnapshots(id: string, site: string, workspace: Option<string>, update: Option<bool>, reply: HttpResult)
      returns (o: Settled)
      requires Valid()
      modifies this`sent, cs
      ensures Valid()
      ensures var n := ConfigNormalize(update, workspace);
        Step(cs.State(), sent, o) == ListFetch(old(cs.State()), old(sent), MakeKey(ProductSnapshotsKey(n.ws, id)), n.update,
          HttpGet(ProductSnapshotsUrl(id, site, n.ws)), "snapshots", SnapshotDerive(n.ws), reply)
    {
      var n := ConfigNormalize(update, workspace);
      o := FetchList(ProductSnapshotsKey(n.ws, id), n.update, HttpGet(ProductSnapshotsUrl(id, site, n.ws)), "snapshots",
        SnapshotDerive(n.ws), reply);
    }

    /** `updateConfig(config, site, workspace)` */
    method UpdateConfig(config: Json, site: string, workspace: Option<string>, reply: HttpResult) returns (o: Settled)
      requires Valid()
      modifies this`sent, cs
      ensures Valid()
      ensures Step(cs.State(), sent, o) ==
        ConfigUpdate(old(cs.State()), old(sent), config, site, ConfigNormalize(None, workspace).ws, reply)
    {
      var n := ConfigNormalize(None, workspace);
      if !Has(config, "id") {
        o := Rejected(Validation(400, NoIdMessage));
        return;
      }
      sent := sent + [HttpPost(SiteConfigsUrl(site, n.ws), ConfigsBody(config))];
      match reply
      case Success(data, _) =>
        var h := cs.PutMerged(ConfigKey(n.ws, IdOf(config)), data);
        o := Resolved(h);
      case Failure(status, data) =>
        o := Rejected(HandleHttpStatus(data, status));
    }

    /** `createConfig(config, site, workspace)` */
    method CreateConfig(config: Json, site: string, workspace: Option<string>, reply: HttpResult) returns (o: Settled)
      requires Valid()
      modifies this`sent, cs
      ensures Valid()
      ensures Step(cs.State(), sent, o) ==
        ConfigCreate(old(cs.State()), old(sent), config, site, ConfigNormalize(None, workspace).ws, reply)
    {
      var n := ConfigNormalize(None, workspace);
      if Has(config, "id") {
        o := Rejected(Validation(400, HasIdMessage));
        return;
      }
      sent := sent + [HttpPost(SiteConfigsUrl(site, n.ws), ConfigsBody(config))];
      match reply
      case Success(data, httpConfig) =>
        var h := cs.PutMerged(ConfigKey(n.ws, IdOf(httpConfig)), data);
        o := Resolved(h);
        AppendToSiteList(SiteConfigsKey(n.ws, site), data);
      case Failure(status, data) =>
        o := Rejected(HandleHttpStatus(data, status));
    }

    /** `if (exists(key)) get(key).push(v)` */
    method AppendToSiteList(key: seq<string>, v: Json)
      requires Valid()
      modifies cs
      ensures Valid() && cs.State() == AppendToList(old(cs.State()), MakeKey(key), v)
    {
      var e := cs.Exists(Segments(key));
      if e {
        var l := cs.Get(Segments(key));
        var list := cs.objects[l.value];
        if list.JArr? {
          cs.Mutate(l.value, JArr(list.items + [v]));
        }
      }
    }

    /** `updateConfigSnapshots(id, snapshots, site, workspace)`: always posts, the reply's list replaces the cached one. */
    method UpdateConfigSnapshots(id: string, snapshots: Json, site: string, workspace: Option<string>, reply: HttpResult)
      returns (o: Settled)
      requires Valid()
      modifies this`sent, cs
      ensures Valid()
      ensures var ws := ConfigNormalize(None, workspace).ws;
        Step(cs.State(), sent, o) == ListSend(old(cs.State()), old(sent), MakeKey(ConfigSnapshotsKey(ws, id)),
          HttpPost(ConfigSnapshotsUrl(id, site, ws), JObj(map["snapshots" := snapshots])), "snapshots", SnapshotDerive(ws), reply)
    {
      var n := ConfigNormalize(None, workspace);
      o := SendList(ConfigSnapshotsKey(n.ws, id), HttpPost(ConfigSnapshotsUrl(id, site, n.ws), JObj(map["snapshots" := snapshots])),
        "snapshots", SnapshotDerive(n.ws), reply);
    }
  }
}
