/**
 * The ServiceCache controller (pkg/controller/servicecache/servicecache_controller.go):
 * for every ServiceCache it rewrites the `default` and `URLs` annotations of the Service
 * of the same namespace and name from the ServiceCache's spec, and deletes a
 * ServiceCache whose Service is gone.
 */
module ServiceCacheController {
  import opened GoStrings
  import opened GoSort
  import opened Store
  import opened Utils

  /**
   * The annotations syncServiceCacheToService gives a Service whose annotation map is
   * non-nil: `default` is always the formatted flag, `URLs` is the bracketed, comma-joined
   * list only when the list is non-nil (a nil list leaves the old value, or its absence,
   * alone), and every other annotation is kept.
   */
  function EncodeAnnotations(spec: Spec, ann: map<string, string>): (r: map<string, string>)
    ensures KeyOfCacheableByDefault in r && r[KeyOfCacheableByDefault] == FormatBool(spec.cacheableByDefault)
    ensures spec.urls.Some? ==> KeyOfCacheableUrls in r && r[KeyOfCacheableUrls] == "[" + Join(spec.urls.value, ",") + "]"
    ensures spec.urls.None? ==> (KeyOfCacheableUrls in r <==> KeyOfCacheableUrls in ann)
    ensures spec.urls.None? && KeyOfCacheableUrls in ann ==> r[KeyOfCacheableUrls] == ann[KeyOfCacheableUrls]
    ensures r - {KeyOfCacheableByDefault, KeyOfCacheableUrls} == ann - {KeyOfCacheableByDefault, KeyOfCacheableUrls}
  {
    var withDefault := ann[KeyOfCacheableByDefault := FormatBool(spec.cacheableByDefault)];
    if spec.urls.Some? then withDefault[KeyOfCacheableUrls := "[" + Join(spec.urls.value, ",") + "]"] else withDefault
  }

  /** validateServiceCache: every spec is accepted. */
  function ValidateServiceCache(spec: Spec): (valid: bool)
    ensures valid
  {
    true
  }

  /**
   * The annotations removeAnnotationsFromService leaves on its copy of a Service: the
   * `default` and `URLs` keys are gone and every other one is kept; deleting from a nil
   * map does nothing.
   */
  function StripCacheAnnotations(ann: Annotations): (r: Annotations)
    ensures r.Some? == ann.Some?
    ensures r.Some? ==> KeyOfCacheableByDefault !in r.value && KeyOfCacheableUrls !in r.value
    ensures r.Some? ==> r.value == ann.value - {KeyOfCacheableByDefault, KeyOfCacheableUrls}
  {
    if ann.Some? then Some(ann.value - {KeyOfCacheableByDefault} - {KeyOfCacheableUrls}) else None
  }

  /**
   * One pass of the ServiceCache controller for the key `k`, on the store `s`, with the
   * calls of the kinds in `faults` failing. It never creates or updates a ServiceCache
   * (at most it deletes the one named `k`), touches no Service but the one named `k`,
   * and every write it issues is on `k`.
   */
  function CachePass(s: State, faults: set<Op>, k: Key): (step: Step)
    ensures step.state.caches == s.caches || step.state.caches == s.caches - {k}
    ensures step.state.services - {k} == s.services - {k}
    ensures forall w :: w in step.writes ==> w.key == k && w.op in {DeleteServiceCache, UpdateService}
  {
    var getErr := Reply(GetServiceCache, k in s.caches, faults);
    if getErr.Some? then
      // On NotFound, removeAnnotationsFromService only edits a fetched copy of the
      // Service (looked up with name and namespace swapped) and never writes it back.
      Step(if getErr.value == NotFound then Ok else Err(getErr.value), s, [])
    else
      var spec := s.caches[k];
      if !ValidateServiceCache(spec) then
        var deleteErr := Reply(DeleteServiceCache, k in s.caches, faults);
        Step(Ok, if deleteErr.None? then s.(caches := s.caches - {k}) else s, [Write(DeleteServiceCache, k)])
      else
        var findErr := Reply(GetService, k in s.services, faults);
        if findErr == Some(NotFound) then
          var deleteErr := Reply(DeleteServiceCache, k in s.caches, faults);
          Step(Ok, if deleteErr.None? then s.(caches := s.caches - {k}) else s, [Write(DeleteServiceCache, k)])
        else if findErr.Some? then
          Step(Err(findErr.value), s, [])
        else
          var ann := s.services[k];
          SyncToService(s, faults, k, ann, SpecAfterDiff(ann, spec), HasDiff(Some(ann), Some(spec)))
  }

  /**
   * The end of a ServiceCache pass, once the diff has been decided: when the Service and
   * the ServiceCache differ, the annotations are encoded from `sorted` (the spec as the
   * diff left it) and written with Update (its error is dropped), then the owner
   * reference is set. A nil annotation map makes the first assignment panic.
   */
  function SyncToService(s: State, faults: set<Op>, k: Key, ann: Annotations, sorted: Spec, differs: bool): (step: Step)
    ensures step.state.caches == s.caches
    ensures step.state.services - {k} == s.services - {k}
    ensures step.writes == [] || step.writes == [Write(UpdateService, k)]
  {
    if !differs then
      Step(Ok, s, [])
    else if ann.None? then
      Step(Panic, s, [])
    else
      var updateErr := Reply(UpdateService, k in s.services, faults);
      var ownerErr := OwnerReply(faults);
      UpdateThenRemove(s.services, k, Some(EncodeAnnotations(sorted, ann.value)));
      Step(if ownerErr.Some? then Err(ownerErr.value) else Ok,
           if updateErr.None? then s.(services := s.services[k := Some(EncodeAnnotations(sorted, ann.value))]) else s,
           [Write(UpdateService, k)])
  }

  /** ReconcileServiceCache: the ServiceCache controller, holding the client it reaches the store through. */
  class ReconcileServiceCache {
    const client: Cluster

    constructor (client: Cluster)
      ensures this.client == client
    {
      this.client := client;
    }

    /** Reconcile: one pass for the requested key, doing exactly what CachePass describes. */
    method Reconcile(request: Key) returns (result: PassResult)
      modifies client
      ensures var step := CachePass(old(client.Snapshot()), client.faults, request);
        result == step.result && client.Snapshot() == step.state && client.log == old(client.log) + step.writes
    {
      var instance, err1 := client.GetServiceCache(request);
      if err1.Some? {
        if err1.value == NotFound {
          // the Service's name and namespace are passed in the wrong order
          var _ := RemoveAnnotationsFromService(instance.key.namespace, instance.key.name);
          return Ok;
        }
        return Err(err1.value);
      }

      if !ValidateServiceCache(instance.spec) {
        // validateServiceCache accepts every spec, so the delete of an invalid one is never reached
        assert false;
      }

      var svc, err := FindService(instance.key.name, instance.key.namespace);
      if err.Some? {
        if err.value == NotFound {
          var _ := client.DeleteServiceCache(instance);
          return Ok;
        }
        return Err(err.value);
      }

      var hasDiff := DiffServiceAndServiceCache(svc, instance);
      if !hasDiff {
        return Ok;
      }
      result := UpdateFromCache(instance, svc);
    }

    /**
     * The end of Reconcile once a difference was found: rewrites the Service's annotations
     * from the ServiceCache's spec (as the diff left it) and sets the ServiceCache as the
     * Service's owner; a panic in the rewrite ends the pass.
     */
    method UpdateFromCache(instance: ServiceCache, svc: Service) returns (result: PassResult)
      requires instance.key == svc.key
      modifies client, svc
      ensures var step := SyncToService(old(client.Snapshot()), client.faults, svc.key, old(svc.annotations), instance.spec, true);
        result == step.result && client.Snapshot() == step.state && client.log == old(client.log) + step.writes
    {
      var panicked := SyncServiceCacheToService(instance, svc);
      if panicked {
        return Panic;
      }

      var ownerErr := client.SetControllerReference(instance, svc);
      if ownerErr.Some? {
        return Err(ownerErr.value);
      }
      return Ok;
    }

    /**
     * syncServiceCacheToService: writes the spec into the Service's annotations in place
     * and updates the Service, dropping the error. `panicked` reports the Go panic of
     * assigning into a nil annotation map, before anything is written.
     */
    method SyncServiceCacheToService(sc: ServiceCache, svc: Service) returns (panicked: bool)
      modifies svc, client`services, client`log
      ensures panicked <==> old(svc.annotations).None?
      ensures panicked ==> svc.annotations == old(svc.annotations) && unchanged(client)
      ensures !panicked ==> svc.annotations == Some(EncodeAnnotations(sc.spec, old(svc.annotations).value))
      ensures !panicked ==> client.services == if Op.UpdateService !in client.faults && svc.key in old(client.services)
                                               then old(client.services)[svc.key := svc.annotations] else old(client.services)
      ensures !panicked ==> client.log == old(client.log) + [Write(Op.UpdateService, svc.key)]
    {
      if svc.annotations.None? {
        return true;
      }
      var annotations := svc.annotations.value;
      annotations := annotations[KeyOfCacheableByDefault := FormatBool(sc.spec.cacheableByDefault)];
      if sc.spec.urls.Some? {
        annotations := annotations[KeyOfCacheableUrls := "[" + Join(sc.spec.urls.value, ",") + "]"];
      }
      svc.annotations := Some(annotations);
      var _ := client.UpdateService(svc);
      return false;
    }

    /**
     * removeAnnotationsFromService: fetches the Service named `svcName` in `svcNamespace`
     * and deletes the two annotations from the fetched copy only; the store is left as it
     * is. The error of the fetch is returned.
     */
    method RemoveAnnotationsFromService(svcName: string, svcNamespace: string) returns (err: Option<ApiError>)
      ensures err == Reply(Op.GetService, Key(svcNamespace, svcName) in client.services, client.faults)
    {
      var svc, e := FindService(svcName, svcNamespace);
      if e.None? {
        svc.annotations := StripCacheAnnotations(svc.annotations);
      }
      return e;
    }

    /** findService: reads the Service `svcName` in `svcNamespace` into a fresh object. */
    method FindService(svcName: string, svcNamespace: string) returns (svc: Service, err: Option<ApiError>)
      ensures err == Reply(Op.GetService, Key(svcNamespace, svcName) in client.services, client.faults)
      ensures fresh(svc) && svc.key == Key(svcNamespace, svcName)
      ensures svc.annotations == if err.None? then client.services[svc.key] else None
    {
      svc, err := client.GetService(Key(svcNamespace, svcName));
    }
  }

  // ---------------------------------------------------------------------------
  // Properties of a ServiceCache pass

  /** A ServiceCache that is gone ends the pass quietly: the Service it named is not written. */
  lemma CacheGoneIsQuiet(s: State, faults: set<Op>, k: Key)
    requires GetServiceCache !in faults && k !in s.caches
    ensures CachePass(s, faults, k) == Step(Ok, s, [])
  {
  }

  /** A failed read of the ServiceCache is returned (for a requeue) and nothing is written. */
  lemma CacheReadErrorRequeues(s: State, faults: set<Op>, k: Key)
    requires GetServiceCache in faults
    ensures CachePass(s, faults, k) == Step(Err(Unavailable), s, [])
  {
  }

  /** A ServiceCache whose Service is gone is deleted (unless the delete fails), and the pass succeeds. */
  lemma OrphanCacheDeleted(s: State, faults: set<Op>, k: Key)
    requires GetServiceCache !in faults && GetService !in faults
    requires k in s.caches && k !in s.services
    ensures var step := CachePass(s, faults, k);
      step.result == Ok && step.writes == [Write(DeleteServiceCache, k)]
      && step.state.services == s.services
      && step.state.caches == (if DeleteServiceCache in faults then s.caches else s.caches - {k})
  {
  }

  /** A failed read of the Service is returned and nothing is written. */
  lemma ServiceUnreadableRequeues(s: State, faults: set<Op>, k: Key)
    requires GetServiceCache !in faults && GetService in faults && k in s.caches
    ensures CachePass(s, faults, k) == Step(Err(Unavailable), s, [])
  {
  }

  /** A Service that already agrees with its ServiceCache is left as it is. */
  lemma AgreeingServiceIsQuiet(s: State, faults: set<Op>, k: Key)
    requires GetServiceCache !in faults && GetService !in faults
    requires k in s.caches && k in s.services
    requires !HasDiff(Some(s.services[k]), Some(s.caches[k]))
    ensures CachePass(s, faults, k) == Step(Ok, s, [])
  {
  }

  /** A Service with a nil annotation map always differs, and writing into that map panics before any write. */
  lemma NilAnnotationsPanic(s: State, faults: set<Op>, k: Key)
    requires GetServiceCache !in faults && GetService !in faults
    requires k in s.caches && k in s.services && s.services[k].None?
    ensures CachePass(s, faults, k) == Step(Panic, s, [])
  {
    DiffMissingDefault(s.services[k], s.caches[k]);
    CachePassOnBoth(s, faults, k);
  }

  /**
   * A Service (with a non-nil annotation map) that disagrees with its ServiceCache gets
   * the ServiceCache's spec encoded into its annotations, the URL list sorted, unless the
   * update fails; only a failure to set the owner reference is reported. The sorted list
   * is never written back to the ServiceCache.
   */
  lemma DisagreeingServiceIsUpdated(s: State, faults: set<Op>, k: Key)
    requires GetServiceCache !in faults && GetService !in faults
    requires k in s.caches && k in s.services && s.services[k].Some?
    requires HasDiff(Some(s.services[k]), Some(s.caches[k]))
    ensures var step := CachePass(s, faults, k);
      var ann := s.services[k].value;
      step.writes == [Write(UpdateService, k)]
      && step.result == (if SetControllerReference in faults then Err(Unavailable) else Ok)
      && step.state.caches == s.caches
      && step.state.services == (if UpdateService in faults then s.services
                                 else s.services[k := Some(EncodeAnnotations(SpecAfterDiff(Some(ann), s.caches[k]), ann))])
  {
  }

  /** With both objects read, the pass is the sync step on the Service's annotations and the spec as the diff left it. */
  lemma CachePassOnBoth(s: State, faults: set<Op>, k: Key)
    requires GetServiceCache !in faults && GetService !in faults
    requires k in s.caches && k in s.services
    ensures CachePass(s, faults, k) ==
      SyncToService(s, faults, k, s.services[k], SpecAfterDiff(s.services[k], s.caches[k]), HasDiff(Some(s.services[k]), Some(s.caches[k])))
  {
  }

  /** An empty URL list is written as "[]". */
  lemma EncodeEmptyList(flag: bool, ann: map<string, string>)
    ensures EncodeAnnotations(Spec(flag, Some([])), ann)[KeyOfCacheableUrls] == "[]"
  {
  }

  /**
   * What the encoder writes is what the diff expects: a spec whose URLs hold no comma
   * shows no difference with the annotations encoded from it, provided that a nil list
   * meets no URLs annotation (a nil list leaves an old one in place).
   */
  lemma EncodeThenNoDiff(spec: Spec, ann: map<string, string>)
    requires NoCommas(URLList(spec.urls))
    requires spec.urls.None? ==> KeyOfCacheableUrls !in ann
    ensures !HasDiff(Some(Some(EncodeAnnotations(spec, ann))), Some(spec))
  {
    var written := Some(EncodeAnnotations(spec, ann));
    DefaultExact(written, spec);
    var list := URLList(spec.urls);
    if list == [] {
      assert Lookup(written, KeyOfCacheableUrls) == "" || Lookup(written, KeyOfCacheableUrls) == "[]";
      EmptyURLsOrBrackets(written);
      EmptyListJoins();
    } else {
      ServiceItemsOfBracketed(written, Join(list, ","));
      assert [','] == ",";
      SplitJoin(list, ',');
    }
    DiffUnfold(written, spec);
  }

  /** An absent URLs annotation and "[]" are both read as the single empty item. */
  lemma EmptyURLsOrBrackets(ann: Annotations)
    requires Lookup(ann, KeyOfCacheableUrls) == "" || Lookup(ann, KeyOfCacheableUrls) == "[]"
    ensures ServiceURLItems(ann) == [""]
  {
    if Lookup(ann, KeyOfCacheableUrls) == "" {
      assert TrimSpace("") == "";
      assert StripBrackets("") == "";
    } else {
      assert "[]" == "[" + "" + "]";
      ServiceItemsOfBracketed(ann, "");
    }
  }

  /** The single empty item and the empty list both sort and join to "". */
  lemma EmptyListJoins()
    ensures Join(SortStrings([""]), ",") == Join(SortStrings([]), ",")
  {
    SortKeepsSorted([""]);
  }

  /**
   * A nil URL list never clears an old URLs annotation: when the Service's URL items do
   * not join to "", the Service keeps differing from the ServiceCache after it has been
   * rewritten, so every pass rewrites it again.
   */
  lemma NilURLsKeepDiffering(spec: Spec, ann: map<string, string>)
    requires spec.urls.None?
    requires Join(SortStrings(ServiceURLItems(Some(ann))), ",") != ""
    ensures HasDiff(Some(Some(ann)), Some(spec))
    ensures HasDiff(Some(Some(EncodeAnnotations(SpecAfterDiff(Some(ann), spec), ann))), Some(spec))
  {
    var written := Some(EncodeAnnotations(SpecAfterDiff(Some(ann), spec), ann));
    assert Lookup(written, KeyOfCacheableUrls) == Lookup(Some(ann), KeyOfCacheableUrls);
    SameURLsSameItems(written, Some(ann));
    NilListJoins(spec);
    DiffUnfold(Some(ann), spec);
    DiffUnfold(written, spec);
  }

  /** Two annotation maps with the same URLs annotation give the same URL items. */
  lemma SameURLsSameItems(ann: Annotations, ann': Annotations)
    requires Lookup(ann, KeyOfCacheableUrls) == Lookup(ann', KeyOfCacheableUrls)
    ensures ServiceURLItems(ann) == ServiceURLItems(ann')
  {
  }

  /** A nil URL list sorts and joins to "". */
  lemma NilListJoins(spec: Spec)
    requires spec.urls.None?
    ensures Join(SortStrings(URLList(spec.urls)), ",") == ""
  {
    assert URLList(spec.urls) == [];
  }
}
