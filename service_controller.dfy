/**
 * The Service controller (pkg/controller/service/service_controller.go): for every
 * Service it keeps a ServiceCache of the same namespace and name whose spec mirrors the
 * Service's `default` and `URLs` annotations, and removes that ServiceCache once the
 * Service carries no annotation of the service-cache prefix.
 */
module ServiceController {
  import opened GoStrings
  import opened Store
  import opened Utils

  const AnnotationPrefix: string := "service-cache.github.io/"

  /** The Service carries at least one annotation whose key has the service-cache prefix. */
  predicate Annotated(ann: Annotations) {
    ann.Some? && exists k :: k in ann.value && HasPrefix(k, AnnotationPrefix)
  }

  /** isAnnotatedByServiceCache: a loop over the annotation keys that stops at the first prefixed one. */
  method IsAnnotatedByServiceCache(svc: Service) returns (annotated: bool)
    ensures annotated == Annotated(svc.annotations)
  {
    if svc.annotations.None? {
      // ranging over a nil map visits nothing
      return false;
    }
    var annotations := svc.annotations.value;
    var unvisited := annotations.Keys;
    while unvisited != {}
      invariant unvisited <= annotations.Keys
      invariant forall k :: k in annotations && k !in unvisited ==> !HasPrefix(k, AnnotationPrefix)
      decreases unvisited
    {
      var k :| k in unvisited;
      if HasPrefix(k, AnnotationPrefix) {
        return true;
      }
      unvisited := unvisited - {k};
    }
    return false;
  }

  /**
   * The ServiceCache spec that copyConfigurationToServiceCache writes for a Service: the
   * flag is set exactly when the `default` annotation is "true" (untrimmed), and the URL
   * list is never nil, holds at least one item, none with a comma, and joins back with
   * commas to the URLs annotation with one bracket stripped from each end.
   */
  function Decode(ann: Annotations): (spec: Spec)
    ensures spec.cacheableByDefault <==> Lookup(ann, KeyOfCacheableByDefault) == "true"
    ensures spec.urls.Some? && |spec.urls.value| >= 1 && NoCommas(spec.urls.value)
    ensures Join(spec.urls.value, ",") == StripBrackets(Lookup(ann, KeyOfCacheableUrls))
  {
    assert [','] == ",";
    JoinSplit(StripBrackets(Lookup(ann, KeyOfCacheableUrls)), ',');
    Spec(Lookup(ann, KeyOfCacheableByDefault) == "true",
         Some(Split(StripBrackets(Lookup(ann, KeyOfCacheableUrls)), ',')))
  }

  /**
   * One pass of the Service controller for the key `k`, on the store `s`, with the calls
   * of the kinds in `faults` failing. It never touches a Service nor any ServiceCache
   * other than the one named `k`, and every write it issues is a ServiceCache write on `k`.
   */
  function ServicePass(s: State, faults: set<Op>, k: Key): (step: Step)
    ensures step.state.services == s.services
    ensures forall w :: w in step.writes ==> w.key == k && w.op in {CreateServiceCache, UpdateServiceCache, DeleteServiceCache}
    ensures step.state.caches - {k} == s.caches - {k}
  {
    var getErr := Reply(GetService, k in s.services, faults);
    if getErr.Some? then
      Step(if getErr.value == NotFound then Ok else Err(getErr.value), s, [])
    else
      var ann := s.services[k];
      var findErr := Reply(GetServiceCache, k in s.caches, faults);
      if !Annotated(ann) then
        if findErr.None? then
          var deleteErr := Reply(DeleteServiceCache, k in s.caches, faults);
          Step(Ok, if deleteErr.None? then s.(caches := s.caches - {k}) else s, [Write(DeleteServiceCache, k)])
        else
          Step(Ok, s, [])
      else
        var found := FindOrCreate(s, faults, k);
        if found.err.Some? then
          Step(Err(found.err.value), s, found.writes)
        else
          SyncFromService(found.state, faults, k, ann, HasDiff(Some(ann), Some(found.spec)), found.writes)
  }

  /** What the get-or-create step of a Service pass leaves: an error, the store, the spec to compare, the writes. */
  datatype Found = Found(err: Option<ApiError>, state: State, spec: Spec, writes: seq<Write>)

  /**
   * The get-or-create step of a Service pass: a ServiceCache that is NotFound is created
   * with the zero spec (a failed create is the pass's error); one that cannot be read for
   * another reason is compared as the zero spec, without creating it and without an error.
   */
  function FindOrCreate(s: State, faults: set<Op>, k: Key): (found: Found)
    ensures found.state.services == s.services
    ensures found.state.caches - {k} == s.caches - {k}
    ensures found.err.Some? ==> found.state == s
    ensures found.writes == [] || found.writes == [Write(CreateServiceCache, k)]
    ensures found.writes == [] <==> GetServiceCache in faults || k in s.caches
    ensures found.writes != [] ==> found.spec == EmptySpec
    ensures found.writes != [] && found.err.None? ==> found.state.caches == s.caches[k := EmptySpec]
    ensures found.writes == [] ==> found.err.None? && found.state == s
    ensures found.writes == [] ==> found.spec == (if GetServiceCache !in faults && k in s.caches then s.caches[k] else EmptySpec)
  {
    var findErr := Reply(GetServiceCache, k in s.caches, faults);
    if findErr == Some(NotFound) then
      var createErr := CreateReply(k in s.caches, faults);
      UpdateThenRemove(s.caches, k, EmptySpec);
      Found(createErr, if createErr.None? then s.(caches := s.caches[k := EmptySpec]) else s, EmptySpec,
            [Write(CreateServiceCache, k)])
    else
      Found(None, s, if findErr.None? then s.caches[k] else EmptySpec, [])
  }

  /**
   * The end of a Service pass, once the diff has been decided: when the Service's
   * annotations and the ServiceCache differ, the decoded spec is written with Update (its
   * error is dropped) and the owner reference is set; `writes` are the writes issued before.
   */
  function SyncFromService(s: State, faults: set<Op>, k: Key, ann: Annotations, differs: bool, writes: seq<Write>): (step: Step)
    ensures step.state.services == s.services
    ensures step.writes == writes || step.writes == writes + [Write(UpdateServiceCache, k)]
    ensures step.state.caches - {k} == s.caches - {k}
  {
    if !differs then
      Step(Ok, s, writes)
    else
      var updateErr := Reply(UpdateServiceCache, k in s.caches, faults);
      var ownerErr := OwnerReply(faults);
      Step(if ownerErr.Some? then Err(ownerErr.value) else Ok,
           if updateErr.None? then s.(caches := s.caches[k := Decode(ann)]) else s,
           writes + [Write(UpdateServiceCache, k)])
  }

  /** ReconcileService: the Service controller, holding the client it reaches the store through. */
  class ReconcileService {
    const client: Cluster

    constructor (client: Cluster)
      ensures this.client == client
    {
      this.client := client;
    }

    /** Reconcile: one pass for the requested key, doing exactly what ServicePass describes. */
    method Reconcile(request: Key) returns (result: PassResult)
      modifies client
      ensures var step := ServicePass(old(client.Snapshot()), client.faults, request);
        result == step.result && client.Snapshot() == step.state && client.log == old(client.log) + step.writes
    {
      var instance, err := client.GetService(request);
      if err.Some? {
        if err.value == NotFound {
          return Ok;
        }
        return Err(err.value);
      }

      var annotated := IsAnnotatedByServiceCache(instance);
      if !annotated {
        var serviceCache, findErr := FindServiceCache(instance);
        if findErr.None? && serviceCache != null {
          RemoveServiceCache(serviceCache);
        }
        return Ok;
      }

      var serviceCache, err1 := FindOrCreateServiceCache(instance);
      if err1.Some? {
        return Err(err1.value);
      }

      var hasDiff := DiffServiceAndServiceCache(instance, serviceCache);
      if !hasDiff {
        return Ok;
      }
      result := UpdateFromService(instance, serviceCache);
    }

    /**
     * Lines 115-122 of Reconcile: finds the ServiceCache of the Service, creating it when it
     * is NotFound; only the error of the create is reported.
     */
    method FindOrCreateServiceCache(instance: Service) returns (serviceCache: ServiceCache, err: Option<ApiError>)
      modifies client`caches, client`log
      ensures var found := FindOrCreate(old(client.Snapshot()), client.faults, instance.key);
        err == found.err && client.Snapshot() == found.state && client.log == old(client.log) + found.writes
        && fresh(serviceCache) && serviceCache.key == instance.key && serviceCache.spec == found.spec
    {
      var sc, findErr := FindServiceCache(instance);
      if findErr == Some(NotFound) {
        serviceCache, err := CreateServiceCache(instance);
        return;
      }
      return sc, None;
    }

    /**
     * The end of Reconcile once a difference was found: copies the configuration into the
     * ServiceCache, updates it (dropping the error) and sets the Service as its owner.
     */
    method UpdateFromService(instance: Service, serviceCache: ServiceCache) returns (result: PassResult)
      requires instance.key == serviceCache.key
      modifies client, serviceCache
      ensures var step := SyncFromService(old(client.Snapshot()), client.faults, instance.key, instance.annotations, true, []);
        result == step.result && client.Snapshot() == step.state && client.log == old(client.log) + step.writes
    {
      CopyConfigurationToServiceCache(instance, serviceCache);
      var _ := client.UpdateServiceCache(serviceCache);

      var ownerErr := client.SetControllerReference(instance, serviceCache);
      if ownerErr.Some? {
        return Err(ownerErr.value);
      }
      return Ok;
    }

    /**
     * findServiceCache: reads the ServiceCache named like the Service. NotFound gives no
     * object; any other error still gives the (zero) object along with the error.
     */
    method FindServiceCache(svc: Service) returns (sc: ServiceCache?, err: Option<ApiError>)
      ensures err == Reply(Op.GetServiceCache, svc.key in client.caches, client.faults)
      ensures sc == null <==> err == Some(NotFound)
      ensures sc != null ==> fresh(sc) && sc.key == svc.key
      ensures sc != null ==> sc.spec == if err.None? then client.caches[svc.key] else EmptySpec
    {
      var found, e := client.GetServiceCache(svc.key);
      if e == Some(NotFound) {
        return null, e;
      }
      return found, e;
    }

    /** createServiceCache: creates a ServiceCache named like the Service with the zero spec. */
    method CreateServiceCache(svc: Service) returns (sc: ServiceCache, err: Option<ApiError>)
      modifies client`caches, client`log
      ensures fresh(sc) && sc.key == svc.key && sc.spec == EmptySpec
      ensures err == CreateReply(svc.key in old(client.caches), client.faults)
      ensures client.caches == if err.None? then old(client.caches)[svc.key := EmptySpec] else old(client.caches)
      ensures client.log == old(client.log) + [Write(Op.CreateServiceCache, svc.key)]
    {
      sc := new ServiceCache(svc.key, Spec(false, None));
      err := client.CreateServiceCache(sc);
    }

    /** copyConfigurationToServiceCache: overwrites the in-memory spec with the decoded annotations. */
    method CopyConfigurationToServiceCache(svc: Service, serviceCache: ServiceCache)
      modifies serviceCache
      ensures serviceCache.spec == Decode(svc.annotations)
    {
      serviceCache.spec := serviceCache.spec.(cacheableByDefault := Lookup(svc.annotations, KeyOfCacheableByDefault) == "true");
      var urls := Lookup(svc.annotations, KeyOfCacheableUrls);
      urls := TrimSuffix(TrimPrefix(urls, "["), "]");
      serviceCache.spec := serviceCache.spec.(urls := Some(Split(urls, ',')));
    }

    /** removeServiceCache: deletes the ServiceCache, dropping the error. */
    method RemoveServiceCache(sc: ServiceCache)
      modifies client`caches, client`log
      ensures client.caches == if Op.DeleteServiceCache in client.faults then old(client.caches) else old(client.caches) - {sc.key}
      ensures client.log == old(client.log) + [Write(Op.DeleteServiceCache, sc.key)]
    {
      var _ := client.DeleteServiceCache(sc);
    }
  }

  // ---------------------------------------------------------------------------
  // Properties of a Service pass

  /** A Service that is gone ends the pass quietly: no error, no write. */
  lemma MissingServiceIsQuiet(s: State, faults: set<Op>, k: Key)
    requires GetService !in faults && k !in s.services
    ensures ServicePass(s, faults, k) == Step(Ok, s, [])
  {
  }

  /** A failed read of the Service is returned (for a requeue) and nothing is written. */
  lemma ServiceReadErrorRequeues(s: State, faults: set<Op>, k: Key)
    requires GetService in faults
    ensures ServicePass(s, faults, k) == Step(Err(Unavailable), s, [])
  {
  }

  /**
   * A Service without service-cache annotations loses its ServiceCache: the pass returns
   * no error and deletes the ServiceCache when it could read it, and writes nothing else.
   */
  lemma UnannotatedRemovesCache(s: State, faults: set<Op>, k: Key)
    requires GetService !in faults && k in s.services && !Annotated(s.services[k])
    ensures var step := ServicePass(s, faults, k);
      var found := GetServiceCache !in faults && k in s.caches;
      step.result == Ok
      && step.writes == (if found then [Write(DeleteServiceCache, k)] else [])
      && step.state.caches == (if found && DeleteServiceCache !in faults then s.caches - {k} else s.caches)
  {
  }

  /**
   * An annotated Service without a ServiceCache gets one: the zero spec is created first,
   * and then overwritten by the decoded annotations when it differs from them.
   * A failed create is returned and nothing else is written.
   */
  lemma AnnotatedCreatesCache(s: State, faults: set<Op>, k: Key)
    requires GetService !in faults && GetServiceCache !in faults
    requires k in s.services && Annotated(s.services[k]) && k !in s.caches
    ensures var step := ServicePass(s, faults, k);
      |step.writes| >= 1 && step.writes[0] == Write(CreateServiceCache, k)
    ensures var step := ServicePass(s, faults, k);
      CreateServiceCache in faults ==> step == Step(Err(Unavailable), s, [Write(CreateServiceCache, k)])
    ensures var step := ServicePass(s, faults, k);
      var ann := s.services[k];
      CreateServiceCache !in faults ==>
        k in step.state.caches
        && step.state.caches[k] == (if HasDiff(Some(ann), Some(EmptySpec)) && UpdateServiceCache !in faults then Decode(ann) else EmptySpec)
  {
  }

  /** An annotated Service whose ServiceCache already agrees with it leaves everything as it is. */
  lemma AgreeingCacheIsQuiet(s: State, faults: set<Op>, k: Key)
    requires GetService !in faults && GetServiceCache !in faults
    requires k in s.services && Annotated(s.services[k]) && k in s.caches
    requires !HasDiff(Some(s.services[k]), Some(s.caches[k]))
    ensures ServicePass(s, faults, k) == Step(Ok, s, [])
  {
  }

  /**
   * A ServiceCache that disagrees with its annotated Service is overwritten with the
   * decoded annotations (unless the update fails), and only a failure to set the owner
   * reference is reported.
   */
  lemma DisagreeingCacheIsUpdated(s: State, faults: set<Op>, k: Key)
    requires GetService !in faults && GetServiceCache !in faults
    requires k in s.services && Annotated(s.services[k]) && k in s.caches
    requires HasDiff(Some(s.services[k]), Some(s.caches[k]))
    ensures var step := ServicePass(s, faults, k);
      step.writes == [Write(UpdateServiceCache, k)]
      && step.result == (if SetControllerReference in faults then Err(Unavailable) else Ok)
      && step.state.caches == (if UpdateServiceCache in faults then s.caches else s.caches[k := Decode(s.services[k])])
  {
  }

  /**
   * When the ServiceCache cannot be read for a reason other than NotFound, the pass goes
   * on with the zero spec: it never creates, and it issues an update exactly when the
   * annotations differ from the zero spec. The read error is not returned; only a failing
   * SetControllerReference on the update path is.
   */
  lemma UnreadableCacheComparedWithZeroSpec(s: State, faults: set<Op>, k: Key)
    requires GetService !in faults && GetServiceCache in faults
    requires k in s.services && Annotated(s.services[k])
    ensures var step := ServicePass(s, faults, k);
      step.writes == (if HasDiff(Some(s.services[k]), Some(EmptySpec)) then [Write(UpdateServiceCache, k)] else [])
    ensures var step := ServicePass(s, faults, k);
      step.result == (if HasDiff(Some(s.services[k]), Some(EmptySpec)) && SetControllerReference in faults then Err(Unavailable) else Ok)
  {
  }

  /** The URLs annotation with at most one bracket taken off each end and split at the commas. */
  lemma DecodeURLs(ann: Annotations)
    ensures Decode(ann).urls == Some(Split(StripBrackets(Lookup(ann, KeyOfCacheableUrls)), ','))
  {
    var items := Decode(ann).urls.value;
    assert [','] == ",";
    SplitJoin(items, ',');
  }

  /** A Service without a URLs annotation gets the one-item list [""] rather than an empty list. */
  lemma DecodeAbsentURLs(ann: Annotations)
    requires Lookup(ann, KeyOfCacheableUrls) == ""
    ensures Decode(ann).urls == Some([""])
  {
    DecodeURLs(ann);
    assert StripBrackets("") == "";
  }

  /**
   * Decoding what the diff compares against gives no difference, provided the `default`
   * annotation is exactly "true" or "false" and the URLs annotation has no white space
   * at its ends (the diff trims both, the decoder neither).
   */
  lemma DecodeThenNoDiff(ann: Annotations)
    requires Lookup(ann, KeyOfCacheableByDefault) == "true" || Lookup(ann, KeyOfCacheableByDefault) == "false"
    requires TrimSpace(Lookup(ann, KeyOfCacheableUrls)) == Lookup(ann, KeyOfCacheableUrls)
    ensures !HasDiff(Some(ann), Some(Decode(ann)))
  {
    DefaultExact(ann, Decode(ann));
    DecodeURLs(ann);
    DiffOnItems(ann, Decode(ann), Decode(ann).urls.value);
  }
}
