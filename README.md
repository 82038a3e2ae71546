# mms services: caching and synchronisation kernel

A Dafny model of the caching and synchronisation kernel of the `mms` AngularJS
services: CacheService, the key and cleaning helpers of UtilsService, the element
fetch/edit/update/create orchestration of ElementService (the 409 conflict rule
included), the pure pieces of URLService, and ConfigService's configuration and
snapshot caches.

- `json.dfy` (`Json`): JSON values, property access, `delete`, and lodash's
  `_.merge`: a deep merge of nested properties, and the top-level call, which
  leaves a destination that cannot take the value as it was. Lemmas cover
  override, idempotence and merging into nothing.
- `cache_service.dfy` (`Cache`):
  - The cache is a map from joined keys (`keys.join('|')`) to handles into a
    heap of objects, so reference sharing is explicit: a merging put updates
    the object behind the entry's handle.
  - `put` is specified as a function of the store it starts from (`PutSpec`),
    including the cascade of derived puts over the elements of a list.
  - `class CacheService` holds the mutable map and heap, and its methods are
    proved against those functions.
- `utils_service.dfy` (`Utils`): `normalize`, `makeElementKey`, and
  `cleanElement`, both as a specification function and as the in-place loops of
  the code.
- `url_service.dfy` (`Urls`): `isTimestamp`, `addVersion` with a round trip,
  `handleHttpStatus`, and the shapes of replies and rejections.
- `element_service.dfy` (`Elements`):
  - `class ElementService` holds `inProgress`, the pending jobs, the settled
    deferreds and the requests sent.
  - Each call files its request and returns a pending ticket.
  - Each `$http` callback and each chained `then` is a separate method that
    settles a ticket.
- `config_service.dfy` (`Configs`):
  - `class ConfigService` over the shared cache.
  - Each call is given the `$http` result of its request.
  - Its effect on the store, the request log and the outcome is specified by a
    function per operation.

## Model

| member | source | states |
|---|---|---|
| Json.Merge | src/mmstolen.js:122 | the deep merge applied to the properties inside the merged values: an object source yields an object with the union of both property sets, an array source an array of the longer length, and any other source value replaces the destination's |
| Json.MergeTop | src/mmstolen.js:120-123 | the top-level `_.merge(cache[realkey], value)`: a null or scalar value, or an entry that is not an object or array, leaves the entry as it was; two objects give the union of their property sets, keeping every property the value lacks; two arrays give an array of the longer length |
| Json.MergeTopSelf | src/mmstolen.js:120-123 | a top-level merge of a value into itself changes nothing |
| Json.MergeTopIdempotent | src/mmstolen.js:120-123 | a second top-level merge of the same value changes nothing more |
| Json.MergeOverrides | src/mmstolen.js:120-121 | a scalar the source sets wins, a property the source lacks keeps the destination's value, and a property exists afterwards iff either side had it |
| Json.MergeIntoNothing | src/mmstolen.js:120-123 | merging into an absent value yields the source itself, so a merging put of a new key stores the value as given |
| Json.MergeSelf | src/mmstolen.js:120-121 | merging a value into itself changes nothing |
| Json.MergeIdempotent | src/mmstolen.js:120-121 | merging the same source a second time changes nothing more |
| Json.Delete | src/mmstolen.js:976 | `delete j[k]` removes exactly `k` and leaves every other property as it was |
| Cache.MakeKeyInjective | src/mmstolen.js:172-174 | for non-empty segment lists without the delimiter, joined keys are equal iff the segment lists are equal |
| Cache.MakeKeyAppend | src/mmstolen.js:172-174 | joining one more segment appends the delimiter and the segment |
| Cache.JoinedContainsDelimiter | src/mmstolen.js:172-174 | a key of two or more segments contains the delimiter |
| Cache.MakeKeyStartsWith | src/mmstolen.js:172-174 | a joined key starts with its first segment |
| Cache.DifferentHeads | src/mmstolen.js:172-174 | keys whose first segments start with different letters are different |
| Cache.DelimiterInSegmentCollides | src/mmstolen.js:172-174 | a segment containing the delimiter collides with the split segments (`['a|b']` and `['a','b']`) |
| Cache.Lookup | src/mmstolen.js:91-98 | `get` yields the entry's handle exactly when the key exists, and null otherwise |
| Cache.Read | src/mmstolen.js:91-98 | the object a key shows exists exactly when the key does, and is the object behind its handle |
| Cache.PutOne | src/mmstolen.js:116-124 | a put keeps the store well formed and the heap's size; afterwards the key exists and no other key is added |
| Cache.PutObserved | src/mmstolen.js:120-124 | merging into an existing entry keeps its handle and shows the top-level merge of the value into it, visible through every key sharing the handle; otherwise the key takes the new handle; no other key changes its handle |
| Cache.PutOneFreshUnaliased | src/mmstolen.js:116-124 | putting a handle that no key holds keeps the cache free of shared handles |
| Cache.DeriveStep | src/mmstolen.js:126-128 | one derived put allocates its value and adds exactly the derived key |
| Cache.PutDerived | src/mmstolen.js:125-130 | the derived puts allocate one object per list element |
| Cache.PutDerivedExtend | src/mmstolen.js:125-130 | the derived puts of a prefix one element longer are one more derived put, in list order |
| Cache.PutDerivedKeys | src/mmstolen.js:125-130 | after the derived puts, a key exists iff it existed before or is the derived key of some element |
| Cache.PutDerivedUnaliased | src/mmstolen.js:125-130 | the derived puts keep the cache free of shared handles |
| Cache.DerivedKeys | src/mmstolen.js:125-130 | the set of keys the derive function names for the elements |
| Cache.PutDerivedOthers | src/mmstolen.js:125-130 | a key that no element's derived key names keeps its handle and what it shows |
| Cache.PutDerivedUnique | src/mmstolen.js:125-130 | an element with a merging derived put, whose key no other element names, shows its value merged into what the key showed before |
| Cache.DerivedShows | src/mmstolen.js:125-130 | what the derived puts leave under a key, as a function of what it showed: a key no element names keeps it; a key some element names shows something afterwards |
| Cache.PutDerivedShows | src/mmstolen.js:125-130 | after the derived puts every key shows what `DerivedShows` gives: each element naming it, in list order, merges into (or replaces) what the earlier ones left, repeated keys included |
| Cache.DerivedShowsUnique | src/mmstolen.js:125-130 | when a single merging element names a key, the key shows that element's value merged into what it showed |
| Cache.PutSpec | src/mmstolen.js:116-132 | `put(key, value, merge, func)` keeps the store well formed and never shrinks the heap |
| Cache.PutSpecKeys | src/mmstolen.js:116-132 | after a cascading put of a list, the key, every element's derived key and every earlier key exist |
| Cache.PutSpecFreshUnaliased | src/mmstolen.js:116-132 | a cascading put of a fresh value keeps the cache free of shared handles |
| Cache.ListPut | src/mmstolen.js:116-132 | a non-merging put of a freshly allocated list with a derive function keeps the store well formed |
| Cache.ListPutUnaliased | src/mmstolen.js:116-132 | such a list put keeps the cache free of shared handles |
| Cache.ListPutKeys | src/mmstolen.js:116-132 | such a list put adds exactly the key and the keys derived from the list's elements |
| Cache.ListPutShows | src/mmstolen.js:116-132 | afterwards the key shows the list itself (it is replaced, not merged) unless an element derives the same key; every other key not derived keeps its handle and its object |
| Cache.ListPutItem | src/mmstolen.js:125-130 | afterwards an element whose merging derived key is unique and differs from the list key shows its value merged into what that key showed before |
| Cache.MergeInto | src/mmstolen.js:120-123 | what a merging put shows: the top-level merge into the previous object, or the value itself when the key was absent |
| Cache.ListPutSeeds | src/mmstolen.js:116-132 | after a list put, every key other than the list key shows what the list's derived puts, in order, leave there, whether or not elements repeat a key |
| Cache.MergePut | src/mmstolen.js:116-124 | a merging put of a fresh value: the key shows the merge into its previous object, every existing key keeps its handle, and without shared handles no other key shows anything new |
| Cache.MergingPutsCombine | src/mmstolen.js:120-121 | two merging puts of `{a: 1}` and `{b: 2}` leave `{a: 1, b: 2}` under the key |
| Cache.CacheService.constructor | src/mmstolen.js:78 | the cache starts empty |
| Cache.CacheService.Get | src/mmstolen.js:91-98 | `get` returns `Lookup` of the joined key, and a returned handle is in the heap |
| Cache.CacheService.Exists | src/mmstolen.js:165-170 | `exists` holds exactly when the joined key is in the cache |
| Cache.CacheService.Remove | src/mmstolen.js:145-151 | `remove` deletes exactly that key, leaves the heap alone and returns what the key held |
| Cache.CacheService.Put | src/mmstolen.js:116-132 | the new store is `PutSpec` of the old one, and the result is the handle the key holds at the end |
| Cache.CacheService.PutEach | src/mmstolen.js:125-130 | the `forEach` loop leaves the store as `PutDerived` of the old one, in list order, and keeps every key |
| Cache.CacheService.PutMerged | src/mmstolen.js:116-124 | allocating a value and putting it with merge is `MergePut`, and the cache stays free of shared handles |
| Utils.Normalize | src/mmstolen.js:1916-1922 | `update` holds only for a true argument; a falsy workspace or version becomes `'master'` or `'latest'`, and a truthy one is kept |
| Utils.NormalizeFixpoint | src/mmstolen.js:1916-1922 | normalizing normalized arguments changes nothing |
| Utils.MakeElementKey | src/mmstolen.js:1938-1945 | the key is `['elements', ws, id, ver]` with the normalize defaults, plus a fifth segment `'edit'` for an edit copy |
| Utils.ElementKeysDistinct | src/mmstolen.js:1938-1945 | element keys whose segments have no delimiter are equal only for the same id, workspace, version and edit flag |
| Utils.EditKeyIsNotCanonical | src/mmstolen.js:1938-1945 | an element's edit key is never its canonical key |
| Utils.DeleteAll | src/mmstolen.js:1892-1898 | deleting a list of keys removes exactly those keys and keeps every other property |
| Utils.StripSpecs | src/mmstolen.js:1880-1883 | every value of a Property loses its own `specialization` and keeps every other property and whether it is an object; the number and order of the values are kept |
| Utils.Cleaned | src/mmstolen.js:1874-1901 | an element without an object `specialization` is unchanged; only `specialization` changes; in it a nested `specialization` and, for edit, every non-edit key are gone, and every other property (`type` included) is kept; a non-Property keeps its `value`; a Property's value becomes `StripSpecs` of the old array (empty when it was none): as long, each value of the same kind and losing only its own specialization |
| Utils.CleanElement | src/mmstolen.js:1874-1901 | the in-place cleaning computes `Cleaned` |
| Utils.StripValueSpecs | src/mmstolen.js:1880-1883 | the `forEach` over a Property's values computes `StripSpecs` |
| Utils.DeleteKeys | src/mmstolen.js:1892-1898 | the `for` loop over `nonEditKeys` computes `DeleteAll` |
| Utils.DeleteAbsent | src/mmstolen.js:1894-1896 | deleting a property that is absent changes nothing |
| Utils.DeleteAllAbsent | src/mmstolen.js:1892-1898 | deleting keys that are all absent changes nothing |
| Utils.StripSpecsAbsent | src/mmstolen.js:1880-1883 | stripping values that carry no specialization changes nothing |
| Utils.CleanedUnchangedIff | src/mmstolen.js:1874-1901 | cleaning leaves an element unchanged iff it is already clean |
| Utils.CleanedIsClean | src/mmstolen.js:1874-1901 | whatever cleaning produces is clean |
| Utils.CleanedTwice | src/mmstolen.js:1874-1901 | cleaning twice equals cleaning once, and cleaning for edit absorbs a later plain cleaning |
| Urls.IndexOf | src/mmstolen.js:1471 | `indexOf` is -1 iff the character is absent, and otherwise is its first position |
| Urls.IsTimestamp | src/mmstolen.js:1470-1474 | a version is a timestamp iff it contains a hyphen |
| Urls.IsTimestampExamples | src/mmstolen.js:1470-1474 | a zoned date is a timestamp; `latest`, a version number and the empty string are not |
| Urls.AddVersion | src/mmstolen.js:1813-1820 | `latest` leaves the url alone, a timestamp becomes a `?timestamp=` query, and any other version a `/versions/` path |
| Urls.VersionOf | src/mmstolen.js:1813-1820 | the inverse reading of a versioned url only succeeds on urls that extend the base |
| Urls.AddVersionRoundTrip | src/mmstolen.js:1813-1820 | the version can be read back from every url `addVersion` builds |
| Urls.AddVersionInjective | src/mmstolen.js:1813-1820 | different versions give different urls |
| Urls.StatusMessage | src/mmstolen.js:1754-1763 | the message for each status: 404, 500, 401 or 403, 409, and `Failed` for every other status, each iff its condition holds |
| Urls.HandleHttpStatus | src/mmstolen.js:1752-1765 | the rejection carries the status, the data and the message for the status |
| Elements.NormalizeArgs | src/mmstolen.js:1203-1207 | ElementService's normalize is UtilsService's, plus the element key of the normalized arguments |
| Elements.ProgressKindsDisjoint | src/mmstolen.js:721 | an element fetch and a generic fetch never share an in-flight key |
| Elements.ProgressKeysCollide | src/mmstolen.js:721 | the unseparated in-flight key lets fetches of two different elements share one pending promise |
| Elements.UseOfCache | src/mmstolen.js:727-735 | with nothing in flight, the cached entry is used iff present, no update is asked for, its specialization is set and it is not an incomplete View/Product; a missing specialization throws; otherwise the element is fetched |
| Elements.Stripped | src/mmstolen.js:998-1000 | the stamps `modified`, `read` and `creator` are gone and every other property is kept |
| Elements.ConflictRule | src/mmstolen.js:995-1022 | with no truthy cached copy the failure propagates; a retry carries the server's `read` stamp |
| Elements.ConflictIgnoresStamps | src/mmstolen.js:996-1013 | copies that differ only in their stamps lead to a retry |
| Elements.ConflictSeesChange | src/mmstolen.js:1011-1020 | a server change to any top-level property other than the stamps and the specialization propagates the failure |
| Elements.ConflictSeesSpecChange | src/mmstolen.js:996-1020 | a server change inside the specialization to a property cleaning keeps (`type`, any property but a nested specialization, and `value` when neither is a Property) propagates the failure |
| Elements.ConflictSeesValueCount | src/mmstolen.js:996-1020 | a server Property whose list of values differs in length from the cached one propagates the failure |
| Elements.ConflictSeesValueChange | src/mmstolen.js:996-1020 | a server Property whose value at some position differs from the cached one in any property but that value's own specialization propagates the failure |
| Elements.AfterView2View | src/mmstolen.js:984-986 | when both carry a `view2view`, the caller's wins in the cached answer; nothing else changes |
| Elements.Dirty | src/mmstolen.js:1146-1154 | dirty iff the edit copy exists, is truthy and differs from the canonical entry |
| Elements.FreshEditCopyDirtyIff | src/mmstolen.js:817-823 | a fresh edit copy is dirty iff the element carries something an edit copy drops |
| Elements.StoredWithEditSteps | src/mmstolen.js:982-993 | the merge put, the `view2view` rewrite and the edit sync together leave the store `StoredWithEdit` describes |
| Elements.StoreElementsStep | src/mmstolen.js:914-917 | storing one more element of a list reply is one more derived put |
| Elements.HandlesExtend | src/mmstolen.js:916 | the handles collected in `result` stay those of their keys after a further put |
| Elements.ForEditFetchArgs | src/mmstolen.js:813-820 | `getElementForEdit` hands `getElement` arguments with the same canonical key and the same in-flight key as its own |
| Elements.ElementService.constructor | src/mmstolen.js:669-670 | nothing in flight, pending or settled, and no request sent |
| Elements.ElementService.Send | src/mmstolen.js:736-737 | a request is logged and its job filed under a fresh ticket, a fetch also under its in-flight key |
| Elements.ElementService.GetElement | src/mmstolen.js:719-747 | an in-flight key returns the pending promise unchanged; a usable cache entry resolves without a request; a missing specialization throws; otherwise one request is sent and registered in flight |
| Elements.ElementService.ReplyFetchElement | src/mmstolen.js:738-745 | success merge-puts the cleaned first element and resolves with the entry's handle; failure rejects with the mapped status; either way the key is no longer in flight |
| Elements.ElementService.EditCopy | src/mmstolen.js:822-823 | a cleaned clone of the fetched object is merge-put under the edit key |
| Elements.ElementService.GetElementForEdit | src/mmstolen.js:813-829 | an existing edit copy resolves at once unless an update is asked for; otherwise it chains on `getElement` without writing the cache, with every case of `getElement` told apart |
| Elements.ElementService.ChainEditWait | src/mmstolen.js:820-826 | the `then` waits on the element's promise; an already settled promise gets a settled ticket of its own; a throw propagates |
| Elements.ElementService.ReplyEditWait | src/mmstolen.js:821-826 | a resolved fetch makes the edit copy from the fetched object as it is now, and the edit resolves with it; a rejection is passed on unchanged |
| Elements.ElementService.GetGenericElements | src/mmstolen.js:901-911 | a pending fetch with the same in-flight key is shared; otherwise the url is requested whatever the cache holds |
| Elements.ElementService.GenericFetched | src/mmstolen.js:912-919 | each listed element is cleaned and merged into its element key in order, and the fetch resolves with those keys' handles |
| Elements.ElementService.GenericFetchFailed | src/mmstolen.js:920-923 | the fetch is rejected with the mapped status and is no longer in flight |
| Elements.ElementService.Settle | src/mmstolen.js:740-744 | the deferred gets its outcome and a fetch's in-flight key is deleted |
| Elements.ElementService.StoreElements | src/mmstolen.js:913-917 | the loop leaves the store as the derived puts of the list, and each collected handle is its element key's |
| Elements.ElementService.StoreElement | src/mmstolen.js:915-916 | one element is cleaned and merged into its key, keeping every other handle |
| Elements.ElementService.UpdateElement | src/mmstolen.js:970-980 | without `sysmlid` it is rejected before any request; otherwise `owner` is deleted and the element is posted |
| Elements.ElementService.UpdateSucceeded | src/mmstolen.js:981-993 | the update resolves with the element's entry after the writes `UpdateStored` describes |
| Elements.ElementService.StoreUpdated | src/mmstolen.js:982-993 | the cleaned answer is merged into the entry, `view2view` is kept, a truthy edit copy is merged and cleaned for edit, and nothing else changes |
| Elements.ElementService.SyncEdit | src/mmstolen.js:989-993 | a truthy edit copy becomes the edit-cleaned merge with the answer; otherwise nothing changes |
| Elements.ElementService.UpdateFailed | src/mmstolen.js:994-1025 | a 409 whose rule retries posts the element again with the server's `read`, under the same ticket, and returns the element so stamped; anything else rejects with the mapped status and leaves the element as it was |
| Elements.ElementService.CheckConflict | src/mmstolen.js:996-1011 | the clone, strip and clean of both copies computes `ConflictRule` |
| Elements.ElementService.Resend | src/mmstolen.js:1012-1013 | the retry posts again under the same ticket |
| Elements.ElementService.CreateElement | src/mmstolen.js:1090-1103 | an element without an owner gets the holding bin; one that has an id is rejected with 400 before any request; otherwise it is posted |
| Elements.ElementService.ReplyCreate | src/mmstolen.js:1104-1110 | success merge-puts the cleaned answer under its `latest` key and resolves with that entry; failure rejects with the mapped status |
| Elements.ElementService.IsDirty | src/mmstolen.js:1146-1154 | the method computes `Dirty` of the current store |
| Configs.ConfigNormalize | src/services/ConfigService.js:362-364 | the version is always `latest`, the workspace defaults to `master`, and update holds only when asked for |
| Configs.ApartFromDerived | src/services/ConfigService.js:54-56 | a list key outside the family its elements are seeded into is never one of the derived keys |
| Configs.ListSend | src/services/ConfigService.js:52-60 | one request is sent; resolution happens iff the reply succeeds, and then with the handle the list key then holds; a failure leaves the cache alone and rejects with the mapped status |
| Configs.ListFetch | src/services/ConfigService.js:44-62 | a hit resolves with the cached handle and sends nothing; a miss is `ListSend` |
| Configs.ListSendStores | src/services/ConfigService.js:54-57 | the list key shows the reply's list itself; the keys added are exactly it and the derived ones; no other key shows anything new; the promise gets the list's handle |
| Configs.ListSendSeeds | src/services/ConfigService.js:54-56 | each element's derived key shows what the derived puts of the whole reply list, in order, leave there; a merging element whose key is unique in the list is merged into what the key showed |
| Configs.SiteConfigsSeeded | src/services/ConfigService.js:54-56 | after `getSiteConfigs` reaches the server, `['configs', ws, id]` shows the configurations with that id merged in list order; one whose id is unique is merged into what the key showed |
| Configs.SiteConfigsRepeatedId | src/services/ConfigService.js:54-56 | a reply listing one id twice leaves both merged in order under its key |
| Configs.RepeatedKeyMerges | src/mmstolen.js:125-130 | two merging elements naming one key merge into it one after the other |
| Configs.ConfigProductsSeeded | src/services/ConfigService.js:119-121 | after `getConfigProducts` reaches the server, each product's latest element key in the workspace shows the products with that id merged in list order; one whose id is unique is merged into what the key showed |
| Configs.SnapshotsSeeded | src/services/ConfigService.js:153-155 | after a snapshot list reaches the server, `['snapshots', ws, id]` shows the snapshots with that id merged in list order; one whose id is unique is merged into what the key showed |
| Configs.ListKeysApart | src/services/ConfigService.js:24-28 | the site-configs, config-products, config-snapshots and product-snapshots keys lie outside the families their elements go to |
| Configs.ConfigFetch | src/services/ConfigService.js:78-93 | a hit resolves with the cached handle and sends nothing; a miss sends one request; success merge-puts the first configuration and resolves with its handle; failure rejects with the mapped status |
| Configs.ConfigRefreshWithoutConfiguration | src/services/ConfigService.js:86-89 | a refresh of a cached configuration whose reply lists none leaves the entry as it was and resolves with it |
| Configs.ConfigUpdate | src/services/ConfigService.js:210-224 | rejects with a validation reason iff the configuration has no id, then sending nothing; otherwise posts it and merge-puts the answer under that configuration's own key |
| Configs.AppendToList | src/services/ConfigService.js:249-251 | the reply is pushed onto the cached list only when the key exists and holds a list; no key is created and no other key changes |
| Configs.ConfigCreate | src/services/ConfigService.js:239-256 | rejects with a validation reason iff the configuration already has an id, then sending nothing; otherwise posts it, merge-puts the answer under the id of the reply's request config, and appends it to the cached site list |
| Configs.CreatedConfigStored | src/services/ConfigService.js:247-251 | the promise's handle shows the merged answer; the site list grows by the answer exactly when it was cached as a list; an uncached list is not created; nothing else changes |
| Configs.ConfigService.constructor | src/services/ConfigService.js:29 | the service starts over a valid cache with no request sent |
| Configs.ConfigService.SendList | src/services/ConfigService.js:52-60 | the request and its callbacks leave the store, request log and outcome `ListSend` gives |
| Configs.ConfigService.FetchList | src/services/ConfigService.js:48-60 | the short cut and the request leave what `ListFetch` gives |
| Configs.ConfigService.GetSiteConfigs | src/services/ConfigService.js:44-62 | `ListFetch` under `['sites', ws, site, 'configs']` of the reply's `configurations`, seeding `['configs', ws, id]` |
| Configs.ConfigService.GetConfig | src/services/ConfigService.js:78-93 | `ConfigFetch` under `['configs', ws, id]` |
| Configs.ConfigService.GetConfigProducts | src/services/ConfigService.js:109-127 | `ListFetch` under `['configs', ws, id, 'products']` of the reply's `products`, seeding the products' element keys |
| Configs.ConfigService.GetConfigSnapshots | src/services/ConfigService.js:143-161 | `ListFetch` under `['configs', ws, id, 'snapshots']` of the reply's `snapshots`, seeding `['snapshots', ws, id]` |
| Configs.ConfigService.GetProductSnapshots | src/services/ConfigService.js:177-195 | `ListFetch` under `['products', ws, id, 'snapshots']` of the reply's `snapshots`, seeding `['snapshots', ws, id]` |
| Configs.ConfigService.UpdateConfig | src/services/ConfigService.js:210-224 | the call leaves what `ConfigUpdate` gives |
| Configs.ConfigService.CreateConfig | src/services/ConfigService.js:239-256 | the call leaves what `ConfigCreate` gives |
| Configs.ConfigService.AppendToSiteList | src/services/ConfigService.js:249-251 | leaves `AppendToList` of the store |
| Configs.ConfigService.UpdateConfigSnapshots | src/services/ConfigService.js:272-286 | always posts the snapshots, with no cache short cut, then does what `ListSend` does |

## Left out

- HTTP, URLs and promises:
  - `$http` is not modelled. A reply is an input: a success with its data and request config, or a failure with a status and data.
  - URLs are not built as strings. ElementService records request values (element id and version, url, posted elements). ConfigService records endpoint values.
  - The URLService string builders are not part of this model.
- Promise scheduling:
  - ElementService callbacks are separate methods, which may run in any order the caller picks.
  - A ConfigService call runs its callback at once with the given reply, so no other call falls between its request and its callback.
- Operations outside this model: `getElements`, `getElementsForEdit`, `updateElements`, `createElements`, `getOwnedElements`, `search`, `getElementVersions`. The first four are `$q.all` fan-outs of the single-element operations; `getOwnedElements` is `getGenericElements` with an owned-elements url.
- `updateConfigProducts`, `createSnapshot`, `createSnapshotArtifact`: their callbacks write no cache entry.
- Numbers are integers, with no floating point.
- Aliasing inside values:
  - A value inside another value is a copy, not a shared object.
  - A list put allocates a separate object for each element's derived put. In the code, the list and the per-item key share each element object.
  - So do `createConfig`'s push and its put.
- Cache.PutSpec: `put`'s `forEach` over an object value (one derived put per property) is not modelled. Derived descriptors carry no nested `func`; no derive function in the code returns one.
- Absent properties, `undefined` and `null` are the same value. A key segment that is not a string renders as the empty string, whereas JavaScript renders numbers as digits.
- TypeErrors: the only one modelled is `getElement` on a cached entry without a specialization. Others are not:
  - a reply without the expected property reads as null, and a missing list as an empty list;
  - cleaning a value that is not an object leaves it as it is;
  - pushing onto a cached site list that is not an array does nothing.
- Json.MergeTop: when the entry is an object and the value an array, or the reverse, lodash adds the value's indices or properties to the entry in place. The model instead merges into an empty value of the value's kind. A string value, which lodash spreads into indexed properties, leaves the entry as it was in the model.
- Elements.ConflictRule: compares with structural equality. `angular.equals` in the code also ignores `$`-prefixed properties and functions.
- Elements.ElementService.UpdateElement: deleting `owner` from the caller's object is modelled as a returned value (`elemAfter`), not as a write to a shared object.
- Elements.ElementService.UpdateFailed: the conflict retry is unbounded, as in the code. Each round is one more post under the same ticket.
- Elements.ElementService.UpdateFailed: `elem.read = newread` writes the caller's own object. When the caller passes the edit copy that `getElementForEdit` resolved with, that object is the cache entry under the edit key. The model returns the stamped element as `elemAfter` and writes no cache entry, so the edit copy's `read` stamp, and what `isDirty` later compares, do not change.
- Elements.ElementService.UpdateFailed: the retry re-posts the element as it was when `updateElement` was called. The code re-reads the caller's object when the 409 arrives, so changes made to it in between are not modelled.
- Elements.ElementProgressKey: the in-flight key concatenates its parts without separators, as the code does. `ProgressKeysCollide` shows the collision this allows.
