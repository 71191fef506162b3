# service-cache-operator: a Dafny model of its two controllers

The service-cache operator keeps two Kubernetes objects of the same namespace and name
in step:

- a **Service**, whose annotations `service-cache.github.io/default` (a boolean) and
  `service-cache.github.io/URLs` (a bracketed, comma-separated list) say what to cache;
- a **ServiceCache** custom resource, whose spec holds the same two settings as
  `CacheableByDefault` and `URLs`.

The **Service controller** copies the annotations into the ServiceCache. It creates the
ServiceCache when it is missing and deletes it when the Service carries no annotation
with the `service-cache.github.io/` prefix. The **ServiceCache controller** writes the
spec back into the Service's annotations and deletes a ServiceCache whose Service is
gone. Both passes first ask `DiffServiceAndServiceCache` whether the two objects disagree.

## How the model is built

- `go_strings.dfy` (module `GoStrings`) models the Go library calls the controllers
  rely on: `strings.TrimSpace` (with `unicode.IsSpace`), `TrimPrefix`, `TrimSuffix`,
  `HasPrefix`, `Split` with a one-character separator, `Join`, and `strconv.FormatBool`.
- `go_sort.dfy` (module `GoSort`) models `sort.Strings` as insertion sort on the
  lexicographic order. It proves that the sorted permutation is unique, so Go's unstable
  sort gives the same result.
- `store.dfy` (module `Store`) holds the object store the controller-runtime client
  reaches:
  - two maps keyed by (namespace, name);
  - in-memory `Service` and `ServiceCache` objects as classes;
  - a `Cluster` class whose Get, Create, Update and Delete methods copy objects in and
    out and log every write call they issue.
  - The kinds of call that fail in a pass form a set `faults`. A failing call returns
    Unavailable, a missing object returns NotFound, and a create of an existing one
    returns AlreadyExists.
  - A Service's annotation map can be nil (`None`), and so can a ServiceCache's URL list.
- `utils.dfy` (module `Utils`) is the diff:
  - the method `DiffServiceAndServiceCache`, which sorts the ServiceCache's URL list in
    place;
  - the function `HasDiff`, its result;
  - `SpecAfterDiff`, the spec it leaves behind.
- `service_controller.dfy` (module `ServiceController`) and `servicecache_controller.dfy`
  (module `ServiceCacheController`) hold the two reconcilers as classes over a `Cluster`.
  - Each `Reconcile` method is proved to do exactly what a pure function of the store
    describes (`ServicePass`, `CachePass`): its result, the new store, and the write calls
    appended to the log.
  - The lemmas about each controller are stated on those functions.
- `convergence.dfy` (module `Convergence`) states what the two controllers do together:
  - the codec round trip;
  - the state in which both passes do nothing;
  - how one pass of either controller, or two passes in either order, reaches that state;
  - the inputs on which one controller, run on its own, never settles, and those on which
    two passes, ServiceCache first, do not settle.

The model follows the code where its behaviour is surprising:

- With no failing call, a Service pass followed by a ServiceCache pass brings every
  annotated Service and its ServiceCache into agreement, and both passes then do nothing
  (`ServiceThenCacheSyncs`, `InSyncQuiet`). The ServiceCache pass does so by rewriting the
  Service where its annotations disagree with their own decoding.
- In the other order, a ServiceCache pass followed by a Service pass brings the pair into
  agreement for every Service with a non-nil annotation map, provided that, when the list
  is nil, the URLs annotation left in place has no white space at its ends
  (`CacheThenServiceSyncs`). Without that proviso two passes need not settle. Take a
  Service annotated `default: "false"` and `URLs: " [a] "` next to a ServiceCache
  `(false, nil)`. The ServiceCache pass writes the same annotations back, because a nil
  list leaves URLs alone. The Service pass then stores the untrimmed item `" [a] "`, and
  the diff, which trims, still reads `"a"` (`CacheThenServicePaddedURLs`).
- The same padding changes the user's URL in the Service-first order. With
  `default: "true"` and `URLs: " [a] "`, the Service pass stores the item `" [a] "` and
  the ServiceCache pass writes it back as `"[ [a] ]"`. The pair then agrees on the URL
  `" [a] "`, and the URL `"a"` the diff had read is gone (`PaddedURLsWrappedAgain`).
- The Service controller decodes the `default` annotation without trimming it, while the
  diff trims it. A Service annotated `" true "` is therefore decoded as `false` and
  disagrees with every ServiceCache decoded from it: repeated Service passes alone issue
  an update every time (`PaddedDefaultUpdatesEveryPass`). The ServiceCache pass that
  follows then writes `"false"` into the Service, so caching by default ends up off
  although the user asked for it (`PaddedDefaultBecomesFalse`).
- A ServiceCache with a nil URL list leaves any old URLs annotation in place. If that
  annotation holds items, repeated ServiceCache passes alone rewrite the Service every
  time (`NilURLsUpdateEveryPass`); a Service pass in between stores a list decoded from
  the annotation.
- An absent URLs annotation, and the `"[]"` written for an empty list, both decode to the
  one-item list `[""]` rather than to an empty list (`DecodeAbsentURLs`,
  `EmptyListDecodesToEmptyItem`).
- When a ServiceCache is NotFound, `removeAnnotationsFromService` is called with the name
  and the namespace swapped. It edits only a fetched copy and never writes it back, so the
  Service in the store is untouched (`CacheGoneIsQuiet`).
- Writing into a nil annotation map is a Go panic. A ServiceCache pass that reaches the
  sync for such a Service ends with `Panic` and writes nothing (`NilAnnotationsPanic`).
- A ServiceCache that the Service controller cannot read for a reason other than NotFound
  is compared as the zero spec. It is never created, the read error is not reported, and
  an update is issued exactly when the annotations differ from the zero spec
  (`UnreadableCacheComparedWithZeroSpec`).

## Model

| member | source | states |
|---|---|---|
| GoStrings.TrimSpace | pkg/controller/utils/utils.go:22 | strings.TrimSpace: the result is no longer than the input and has no white space at either end; TrimSpaceExact pins it down for every input |
| GoStrings.TrimSpaceExact | pkg/controller/utils/utils.go:22 | for every input: whenever the string is white space, then a part that is empty or has non-space ends, then white space, TrimSpace returns exactly that part (an all-blank string gives "") |
| GoStrings.TrimSpacePadded | pkg/controller/utils/utils.go:22 | white space padding around a string with non-space ends is removed exactly, so " true " trims to "true" |
| GoStrings.TrimSpaceSplitExists | pkg/controller/utils/utils.go:22 | every string splits into white space, a part with non-space ends (or empty), and white space, and TrimSpace returns that part |
| GoStrings.IsSpaceLatin1 | pkg/controller/utils/utils.go:22 | unicode.IsSpace in the Latin-1 range holds on exactly tab, newline, vertical tab, form feed, carriage return, space, NEL and NBSP |
| GoStrings.Split | pkg/controller/service/service_controller.go:178 | strings.Split with a one-character separator: never an empty list (Split("", ",") is [""]) and no piece holds the separator |
| GoStrings.JoinSplit | pkg/controller/service/service_controller.go:176-178 | joining the pieces of Split with the separator gives back the split string |
| GoStrings.SplitJoin | pkg/controller/utils/utils.go:29 | Split undoes Join for a non-empty list of separator-free items |
| GoStrings.JoinInjective | pkg/controller/utils/utils.go:33 | two non-empty separator-free lists that join to the same string are equal |
| GoStrings.JoinLength | pkg/controller/servicecache/servicecache_controller.go:149 | strings.Join: "" for no items, otherwise the items' lengths plus one separator between each pair |
| GoStrings.HasPrefixMeans | pkg/controller/service/service_controller.go:186 | strings.HasPrefix holds exactly when the string is the prefix followed by the rest |
| GoStrings.HasSuffixMeans | pkg/controller/utils/utils.go:28 | strings.HasSuffix holds exactly when the string is the rest followed by the suffix |
| GoStrings.TrimPrefixMeans | pkg/controller/utils/utils.go:28 | strings.TrimPrefix takes off the prefix when it is there and otherwise returns the string unchanged |
| GoStrings.TrimSuffixMeans | pkg/controller/service/service_controller.go:177 | strings.TrimSuffix takes off the suffix when it is there and otherwise returns the string unchanged |
| GoStrings.TrimPrefixConcat | pkg/controller/utils/utils.go:28 | TrimPrefix of the prefix followed by t gives back t |
| GoStrings.TrimSuffixConcat | pkg/controller/service/service_controller.go:177 | TrimSuffix of t followed by the suffix gives back t |
| GoStrings.FormatBoolReadsBack | pkg/controller/utils/utils.go:23 | strconv.FormatBool writes "true" or "false", and comparing with "true" reads the flag back |
| GoSort.Insert | pkg/controller/utils/utils.go:30 | inserting into a sorted list keeps it sorted and adds exactly the one item |
| GoSort.SortStrings | pkg/controller/utils/utils.go:30 | sort.Strings: the result is sorted and a permutation of the input |
| GoSort.SortedUnique | pkg/controller/utils/utils.go:30-32 | two sorted permutations of the same items are equal, so the unstable sort is deterministic |
| GoSort.SortIgnoresOrder | pkg/controller/utils/utils.go:30-32 | sorting two permutations of each other gives the same list |
| GoSort.SortKeepsSorted | pkg/controller/utils/utils.go:32 | sorting an already sorted list leaves it unchanged |
| Store.Cluster.GetService | pkg/controller/service/service_controller.go:87 | client.Get of a Service: NotFound for a missing object, the failure for a failing call, otherwise a fresh copy of the stored annotations |
| Store.Cluster.GetServiceCache | pkg/controller/servicecache/servicecache_controller.go:92 | client.Get of a ServiceCache: the error as for a Service; on an error the object keeps the zero spec |
| Store.Cluster.CreateServiceCache | pkg/controller/service/service_controller.go:169 | client.Create: AlreadyExists for a present object; only a successful create stores the spec; the call is logged |
| Store.Cluster.UpdateServiceCache | pkg/controller/service/service_controller.go:132 | client.Update of a ServiceCache: stores the spec only when the object exists and the call succeeds; the call is logged |
| Store.Cluster.DeleteServiceCache | pkg/controller/service/service_controller.go:194 | client.Delete: removes the key only when it exists and the call succeeds; the call is logged |
| Store.Cluster.UpdateService | pkg/controller/servicecache/servicecache_controller.go:153 | client.Update of a Service: stores the annotations only when the Service exists and the call succeeds; the call is logged |
| Store.Cluster.SetControllerReference | pkg/controller/service/service_controller.go:135 | only the failure of the call is visible; the store is untouched |
| Utils.Lookup | pkg/controller/utils/utils.go:22 | Go map index: a present key reads as its stored value, and a non-empty result comes only from a present key, so a nil map or a missing key reads as "" |
| Utils.StripBracketsWrapped | pkg/controller/utils/utils.go:28 | TrimPrefix "[" then TrimSuffix "]" undoes the bracketing the encoder writes |
| Utils.SortURLs | pkg/controller/utils/utils.go:31-32 | sort.Strings on a nil-able slice: nil stays nil, and the result is sorted and a permutation |
| Utils.DiffServiceAndServiceCache | pkg/controller/utils/utils.go:15-34 | the method returns HasDiff of its arguments; the ServiceCache's URL list is sorted in place exactly when the default check passes; the Service is not modified |
| Utils.DiffNilCases | pkg/controller/utils/utils.go:16-21 | two nil objects have no difference, and exactly one nil object always has one |
| Utils.DiffOnDefault | pkg/controller/utils/utils.go:22-33 | a trimmed `default` annotation other than the formatted flag is a difference; once it matches, the diff is decided by the sorted, comma-joined URL items of both sides |
| Utils.DiffMissingDefault | pkg/controller/utils/utils.go:22-25 | a Service without a `default` annotation, or with a nil map, always differs |
| Utils.DiffTrimsDefault | pkg/controller/utils/utils.go:22 | a `default` annotation of " true " matches a true flag |
| Utils.DefaultExact | pkg/controller/utils/utils.go:22-23 | a `default` annotation that is exactly the formatted flag passes the default check |
| Utils.SortedJoinsAgree | pkg/controller/utils/utils.go:29-33 | for comma-free lists, the sorted joins are equal exactly when the items are a permutation of the list, an empty list standing for [""] |
| Utils.DiffAsMultisets | pkg/controller/utils/utils.go:22-33 | for a comma-free ServiceCache list, there is no difference exactly when the flag matches and the annotation's items are a permutation of the list (empty standing for [""]) |
| Utils.DiffIgnoresCompanionOrder | pkg/controller/utils/utils.go:31-33 | permuting the ServiceCache's URLs, or swapping nil for an empty list, never changes the diff |
| Utils.DiffIgnoresAnnotationOrder | pkg/controller/utils/utils.go:29-33 | permuting the items of the URLs annotation never changes the diff |
| Utils.DiffEmptyURLs | pkg/controller/utils/utils.go:27-33 | an absent or empty URLs annotation against a nil or empty list leaves only the flag to decide |
| Utils.ServiceItemsOfBracketed | pkg/controller/utils/utils.go:27-29 | a URLs annotation "[" + j + "]" is read as the pieces of j |
| Utils.DiffComparesJoinedStrings | pkg/controller/utils/utils.go:29-33 | the one-item list ["a,b"] matches the annotation "[a,b]", which splits into "a" and "b" |
| Utils.DiffSortsCompanion | pkg/controller/utils/utils.go:31-32 | after the diff the spec keeps its flag and its nil-ness, and its URLs are a permutation of the old ones, sorted once the flag matched |
| ServiceController.IsAnnotatedByServiceCache | pkg/controller/service/service_controller.go:184-191 | the loop returns true exactly when some annotation key has the service-cache prefix (false for a nil map) |
| ServiceController.Decode | pkg/controller/service/service_controller.go:174-178 | the flag is set exactly when `default` is "true" untrimmed; the list is non-nil, non-empty and comma-free, and joins back to the URLs annotation with at most one bracket stripped from each end |
| ServiceController.DecodeAbsentURLs | pkg/controller/service/service_controller.go:176-178 | an absent URLs annotation decodes to [""] |
| ServiceController.DecodeThenNoDiff | pkg/controller/service/service_controller.go:174-178 | a Service whose `default` is exactly "true" or "false" and whose URLs annotation is untrimmed agrees with its decoded spec |
| ServiceController.ServicePass | pkg/controller/service/service_controller.go:79-143 | a Service pass never changes a Service nor any ServiceCache but the requested one, and every write it issues is a ServiceCache write on that key |
| ServiceController.FindOrCreate | pkg/controller/service/service_controller.go:115-122 | only a NotFound ServiceCache is created, with the zero spec, which is then the spec compared; a failed create is the only error and leaves the store; without a create there is no error, no write, the store is unchanged and the spec compared is the stored one (the zero spec when the read failed) |
| ServiceController.SyncFromService | pkg/controller/service/service_controller.go:124-138 | at most one update of the requested ServiceCache is added, and no other object changes |
| ServiceController.ReconcileService.Reconcile | pkg/controller/service/service_controller.go:79-143 | the result, the new store and the logged write calls are those of ServicePass |
| ServiceController.ReconcileService.FindOrCreateServiceCache | pkg/controller/service/service_controller.go:115-122 | the get-or-create step does what FindOrCreate describes and hands back a fresh object with the spec to compare |
| ServiceController.ReconcileService.UpdateFromService | pkg/controller/service/service_controller.go:130-138 | copy, update and owner reference do what SyncFromService describes for a difference |
| ServiceController.ReconcileService.FindServiceCache | pkg/controller/service/service_controller.go:146-157 | NotFound gives no object; any other outcome gives a fresh object, the stored spec on success and the zero spec on an error |
| ServiceController.ReconcileService.CreateServiceCache | pkg/controller/service/service_controller.go:160-172 | a fresh ServiceCache named like the Service with false and a nil list, and the create's outcome in the store |
| ServiceController.ReconcileService.CopyConfigurationToServiceCache | pkg/controller/service/service_controller.go:174-182 | the in-memory spec becomes the decoded annotations |
| ServiceController.ReconcileService.RemoveServiceCache | pkg/controller/service/service_controller.go:193-195 | the ServiceCache is deleted unless the call fails, and the error is dropped |
| ServiceController.MissingServiceIsQuiet | pkg/controller/service/service_controller.go:88-96 | a NotFound Service ends the pass with success, no write and the store unchanged; its ServiceCache stays |
| ServiceController.ServiceReadErrorRequeues | pkg/controller/service/service_controller.go:97-99 | any other read error is returned with no write |
| ServiceController.UnannotatedRemovesCache | pkg/controller/service/service_controller.go:103-112 | a Service without the prefix loses its ServiceCache when it can be read, and nothing else is written; the pass succeeds |
| ServiceController.AnnotatedCreatesCache | pkg/controller/service/service_controller.go:115-132 | an annotated Service without a ServiceCache first creates one; a failed create is returned alone; otherwise the new ServiceCache holds the decoded spec when it differed from the zero spec |
| ServiceController.AgreeingCacheIsQuiet | pkg/controller/service/service_controller.go:124-128 | no difference means no write and no change |
| ServiceController.DisagreeingCacheIsUpdated | pkg/controller/service/service_controller.go:130-138 | a difference means one update to the decoded spec (kept unless the update fails), and only the owner-reference failure is reported |
| ServiceController.UnreadableCacheComparedWithZeroSpec | pkg/controller/service/service_controller.go:115-138 | a ServiceCache unreadable for another reason is never created and is updated exactly when the zero spec differs; the read error is not returned, only a failing SetControllerReference on the update path is |
| ServiceCacheController.EncodeAnnotations | pkg/controller/servicecache/servicecache_controller.go:144-152 | `default` is the formatted flag; `URLs` is the bracketed join only for a non-nil list, and otherwise the old value or its absence is kept; every other annotation is kept |
| ServiceCacheController.ValidateServiceCache | pkg/controller/servicecache/servicecache_controller.go:177-180 | every ServiceCache is valid |
| ServiceCacheController.StripCacheAnnotations | pkg/controller/servicecache/servicecache_controller.go:159-162 | the two keys are gone and every other one kept; a nil map stays nil |
| ServiceCacheController.CachePass | pkg/controller/servicecache/servicecache_controller.go:81-142 | a ServiceCache pass at most deletes the requested ServiceCache, changes no Service but the requested one, and writes only on that key |
| ServiceCacheController.SyncToService | pkg/controller/servicecache/servicecache_controller.go:124-137 | at most one Service update, on the requested key, and no ServiceCache change |
| ServiceCacheController.ReconcileServiceCache.Reconcile | pkg/controller/servicecache/servicecache_controller.go:81-142 | the result, the new store and the logged write calls are those of CachePass |
| ServiceCacheController.ReconcileServiceCache.UpdateFromCache | pkg/controller/servicecache/servicecache_controller.go:130-141 | sync and owner reference do what SyncToService describes for a difference |
| ServiceCacheController.ReconcileServiceCache.SyncServiceCacheToService | pkg/controller/servicecache/servicecache_controller.go:144-155 | a nil map panics before anything changes; otherwise the in-memory annotations are encoded from the spec and stored when the update succeeds, and the update is logged |
| ServiceCacheController.ReconcileServiceCache.RemoveAnnotationsFromService | pkg/controller/servicecache/servicecache_controller.go:157-164 | only the read's error is returned; the store is not written |
| ServiceCacheController.ReconcileServiceCache.FindService | pkg/controller/servicecache/servicecache_controller.go:166-175 | reads the Service of the given name and namespace into a fresh object |
| ServiceCacheController.CacheGoneIsQuiet | pkg/controller/servicecache/servicecache_controller.go:93-101 | a NotFound ServiceCache ends the pass with success and no write; the Service keeps its annotations |
| ServiceCacheController.CacheReadErrorRequeues | pkg/controller/servicecache/servicecache_controller.go:103-104 | any other read error is returned with no write |
| ServiceCacheController.OrphanCacheDeleted | pkg/controller/servicecache/servicecache_controller.go:113-119 | a ServiceCache whose Service is NotFound is deleted (unless the delete fails) and the pass succeeds |
| ServiceCacheController.ServiceUnreadableRequeues | pkg/controller/servicecache/servicecache_controller.go:121 | any other Service read error is returned with no write |
| ServiceCacheController.AgreeingServiceIsQuiet | pkg/controller/servicecache/servicecache_controller.go:124-128 | no difference means no write and no change |
| ServiceCacheController.NilAnnotationsPanic | pkg/controller/servicecache/servicecache_controller.go:145 | a Service with a nil annotation map panics the pass before any write |
| ServiceCacheController.DisagreeingServiceIsUpdated | pkg/controller/servicecache/servicecache_controller.go:130-137 | a difference means one Service update to the annotations encoded from the sorted spec; the ServiceCache is not written; only the owner-reference failure is reported |
| ServiceCacheController.EncodeEmptyList | pkg/controller/servicecache/servicecache_controller.go:146-151 | an empty list is written as "[]" |
| ServiceCacheController.EncodeThenNoDiff | pkg/controller/servicecache/servicecache_controller.go:145-151 | the annotations encoded from a comma-free spec agree with it (a nil list provided no URLs annotation was there) |
| ServiceCacheController.NilURLsKeepDiffering | pkg/controller/servicecache/servicecache_controller.go:146 | a nil list never clears a URLs annotation whose items do not join to "", so the rewritten Service still differs |
| Convergence.AgreeingIsAnnotated | pkg/controller/service/service_controller.go:184-191 | a Service that agrees with some ServiceCache is annotated |
| Convergence.InSyncQuiet | pkg/controller/service/service_controller.go:124-128 | once the pair agrees, both passes return success with no write and no change |
| Convergence.DecodeEncode | pkg/controller/service/service_controller.go:174-178 | decoding the annotations encoded from a spec with a non-empty comma-free list gives the spec back |
| Convergence.EmptyListDecodesToEmptyItem | pkg/controller/service/service_controller.go:176-178 | an empty list does not round-trip: "[]" decodes to [""] |
| Convergence.ServicePassOnAnnotated | pkg/controller/service/service_controller.go:114-132 | a Service pass on an annotated Service leaves the decoded spec when it differed from the one it compared against, and that one otherwise |
| Convergence.ServicePassSyncs | pkg/controller/service/service_controller.go:124-132 | after one Service pass the pair agrees, for an exact `default` and an untrimmed URLs annotation |
| Convergence.ServicePassIdempotent | pkg/controller/service/service_controller.go:124-128 | under the same conditions a second Service pass does nothing |
| Convergence.ServiceThenCacheQuiet | pkg/controller/servicecache/servicecache_controller.go:124-128 | a ServiceCache pass after such a Service pass does nothing |
| Convergence.ServiceThenCacheSyncs | pkg/controller/servicecache/servicecache_controller.go:124-131 | for every annotated Service, a Service pass then a ServiceCache pass (no failing call) leave the pair in sync |
| Convergence.SyncedServiceAgrees | pkg/controller/servicecache/servicecache_controller.go:131 | a Service rewritten from the sorted spec agrees with the unsorted one |
| Convergence.CachePassSyncs | pkg/controller/servicecache/servicecache_controller.go:124-131 | after one ServiceCache pass the pair agrees, for a non-nil map and a comma-free spec, provided a nil list meets no URLs annotation |
| Convergence.CachePassIdempotent | pkg/controller/servicecache/servicecache_controller.go:124-128 | for a non-nil map and a comma-free spec, provided a nil list meets no URLs annotation, a second ServiceCache pass does nothing |
| Convergence.CacheThenServiceQuiet | pkg/controller/service/service_controller.go:124-128 | for a non-nil map and a comma-free spec, provided a nil list meets no URLs annotation, a Service pass after a ServiceCache pass does nothing |
| Convergence.EncodedReadsBack | pkg/controller/servicecache/servicecache_controller.go:144-153 | what the ServiceCache pass writes makes the Service annotated and agrees with its own decoding, unless a nil list leaves a URLs value padded with white space |
| Convergence.CacheThenServiceSyncs | pkg/controller/service/service_controller.go:124-138 | for every Service with a non-nil map, a ServiceCache pass then a Service pass (no failing call) leave the pair in sync, unless a nil list leaves a padded URLs value |
| Convergence.CacheThenServicePaddedURLs | pkg/controller/utils/utils.go:27-29 | default "false" and URLs " [a] " next to (false, nil): after a ServiceCache pass then a Service pass the ServiceCache holds [" [a] "] and the pair still differs |
| Convergence.PaddedDefaultNeverAgrees | pkg/controller/service/service_controller.go:175 | a `default` of " true " trims to "true" for the diff but decodes to false, so the decoded spec always differs |
| Convergence.PaddedDefaultUpdatesEveryPass | pkg/controller/service/service_controller.go:124-132 | such a Service gets an update of its ServiceCache on every pass, with the store unchanged |
| Convergence.PaddedDefaultBecomesFalse | pkg/controller/servicecache/servicecache_controller.go:145 | for a `default` of " true ", a Service pass then a ServiceCache pass leave the pair in sync with the Service's `default` rewritten to "false" |
| Convergence.PaddedURLsReadTwoWays | pkg/controller/service/service_controller.go:176-178 | the diff reads the URLs value " [a] " as the item "a", while the decoder, which does not trim, reads it as " [a] " |
| Convergence.PaddedURLsNeverAgree | pkg/controller/utils/utils.go:27-33 | with an exact default and URLs " [a] ", the Service differs from its own decoding and from a nil list |
| Convergence.PaddedURLsWrappedAgain | pkg/controller/servicecache/servicecache_controller.go:146-152 | default "true" and URLs " [a] ": after a Service pass then a ServiceCache pass the pair is in sync on the item " [a] ", written back as "[ [a] ]" |
| Convergence.NilListCachePassRewritesSame | pkg/controller/servicecache/servicecache_controller.go:144-153 | a ServiceCache pass that finds a difference, for a nil list and an exact default, leaves the store as it was |
| Convergence.NilURLsUpdateEveryPass | pkg/controller/servicecache/servicecache_controller.go:146-153 | a nil list against URL items that do not join to "" rewrites the Service on the first and the next pass |
| Convergence.CreatesFromAnnotations | pkg/controller/service/service_controller.go:115-132 | default "true" and URLs "[x,y]" without a ServiceCache: it is created, then updated to true and ["x", "y"] |
| Convergence.CreateThenUpdate | pkg/controller/service/service_controller.go:115-138 | an annotated Service without a ServiceCache that differs from the zero spec: Ok, a create then an update, and the ServiceCache holds the decoded annotations |
| Convergence.PermutedListAgrees | pkg/controller/utils/utils.go:29-33 | a ServiceCache holding ["y", "x"] agrees with a Service annotated "[x,y]" |

## Left out

- Logging, `context.TODO`, the `Add`, `newReconciler` and `add` wiring of both controllers, and the registration file `add_servicecache.go`: plumbing with no effect on the store.
- `reconcile.Result`: both controllers always return the empty result, so a pass's outcome is only success, an error (a requeue) or a panic.
- The real client and API server: optimistic concurrency (`resourceVersion` conflicts), watches, caching, garbage collection through owner references, and requeue scheduling. The store is two maps, and a failing call fails with one error.
- Concurrent passes: the model describes one pass at a time on one key.
- `controllerutil.SetControllerReference` is a library call: only its possible failure is modelled. The owner reference it sets is not written back by either controller.
- The ServiceCache's status, the other fields of a Service, labels, and the generated OpenAPI schema. Of `servicecache_types.go` only the two spec fields are modelled.
- `controller_utils.KeyOfCacheableByDefault` and `KeyOfCacheableUrls` are defined in a file that is not part of this model. They are taken to be the literal keys the diff reads.
- GoStrings.Split: only a one-character separator is modelled, the only kind the controllers use.
- GoStrings.TrimSpace: strings are sequences of Unicode scalar values, so invalid UTF-8 bytes are not modelled.
- ServiceCacheController.ReconcileServiceCache.Reconcile: the delete of an invalid ServiceCache (lines 107-111) is unreachable because every ServiceCache is valid. The method asserts that instead of modelling the delete; `CachePass` keeps the branch.
- Convergence under failing calls: the convergence lemmas assume no failing call in the passes they describe.
