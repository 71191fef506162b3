/**
 * The objects the controllers work on and the object store they reach through the
 * controller-runtime client, abstracted as two maps keyed by (namespace, name).
 *
 * A Service is reduced to its annotation map, which may be nil (None); a ServiceCache
 * to its spec, whose URL list may be nil (None) and so stays distinct from an empty list.
 * Which client calls fail is fixed per reconcile pass by the set `faults`: every call whose
 * kind is in the set fails with Unavailable. Each kind of call is made at most once in a
 * pass, so a set can make any combination of calls fail.
 */
module Store {

  datatype Option<T> = None | Some(value: T)

  datatype Key = Key(namespace: string, name: string)

  /** A Service's annotations; None is Go's nil map. */
  type Annotations = Option<map<string, string>>

  /** ServiceCacheSpec: CacheableByDefault and URLs (None is a nil slice). */
  datatype Spec = Spec(cacheableByDefault: bool, urls: Option<seq<string>>)

  /** The zero ServiceCacheSpec: false and a nil URL list. */
  const EmptySpec: Spec := Spec(false, None)

  datatype ApiError = NotFound | AlreadyExists | Unavailable

  /** The calls a reconcile pass makes, and the kinds of call that can be made to fail. */
  datatype Op =
    | GetService | GetServiceCache
    | CreateServiceCache | UpdateServiceCache | DeleteServiceCache
    | UpdateService
    | SetControllerReference

  /** A write call issued to the store (whether or not it succeeded). */
  datatype Write = Write(op: Op, key: Key)

  /** The content of the store. */
  datatype State = State(services: map<Key, Annotations>, caches: map<Key, Spec>)

  /** What a reconcile pass returns: success, an error (requeue), or a Go panic. */
  datatype PassResult = Ok | Err(error: ApiError) | Panic

  /** What one reconcile pass did: its result, the store afterwards, and the write calls it issued. */
  datatype Step = Step(result: PassResult, state: State, writes: seq<Write>)

  /** Overwriting an entry and then dropping its key is the same as dropping the key. */
  lemma UpdateThenRemove<K, V>(m: map<K, V>, k: K, v: V)
    ensures m[k := v] - {k} == m - {k}
  {
  }

  /** The error of a Get, Update or Delete of an object that is `present` or not. */
  function Reply(op: Op, present: bool, faults: set<Op>): (err: Option<ApiError>)
    ensures err.None? <==> op !in faults && present
    ensures err == Some(NotFound) <==> op !in faults && !present
  {
    if op in faults then Some(Unavailable) else if present then None else Some(NotFound)
  }

  /** The error of a Create of an object that is `present` or not. */
  function CreateReply(present: bool, faults: set<Op>): (err: Option<ApiError>)
    ensures err.None? <==> CreateServiceCache !in faults && !present
  {
    if CreateServiceCache in faults then Some(Unavailable)
    else if present then Some(AlreadyExists)
    else None
  }

  /** The error of controllerutil.SetControllerReference, a call into a library outside the model. */
  function OwnerReply(faults: set<Op>): Option<ApiError> {
    if SetControllerReference in faults then Some(Unavailable) else None
  }

  /** An in-memory copy of a Service. */
  class Service {
    const key: Key
    var annotations: Annotations

    constructor (key: Key, annotations: Annotations)
      ensures this.key == key && this.annotations == annotations
    {
      this.key := key;
      this.annotations := annotations;
    }
  }

  /** An in-memory copy of a ServiceCache. */
  class ServiceCache {
    const key: Key
    var spec: Spec

    constructor (key: Key, spec: Spec)
      ensures this.key == key && this.spec == spec
    {
      this.key := key;
      this.spec := spec;
    }
  }

  /**
   * The object store behind the client. Get copies an object out of the store into a
   * fresh in-memory object; Create, Update and Delete copy one back. `log` records every
   * write call issued.
   */
  class Cluster {
    var services: map<Key, Annotations>
    var caches: map<Key, Spec>
    var log: seq<Write>
    const faults: set<Op>

    function Snapshot(): State
      reads this
    {
      State(services, caches)
    }

    constructor (init: State, faults: set<Op>)
      ensures Snapshot() == init && log == [] && this.faults == faults
    {
      services := init.services;
      caches := init.caches;
      log := [];
      this.faults := faults;
    }

    /** client.Get of a Service; on an error the object keeps only its name and namespace. */
    method GetService(key: Key) returns (svc: Service, err: Option<ApiError>)
      ensures err == Reply(Op.GetService, key in services, faults)
      ensures fresh(svc) && svc.key == key
      ensures svc.annotations == if err.None? then services[key] else None
    {
      err := Reply(Op.GetService, key in services, faults);
      svc := new Service(key, if err.None? then services[key] else None);
    }

    /** client.Get of a ServiceCache; on an error the object keeps the zero spec. */
    method GetServiceCache(key: Key) returns (sc: ServiceCache, err: Option<ApiError>)
      ensures err == Reply(Op.GetServiceCache, key in caches, faults)
      ensures fresh(sc) && sc.key == key
      ensures sc.spec == if err.None? then caches[key] else EmptySpec
    {
      err := Reply(Op.GetServiceCache, key in caches, faults);
      sc := new ServiceCache(key, if err.None? then caches[key] else EmptySpec);
    }

    method CreateServiceCache(sc: ServiceCache) returns (err: Option<ApiError>)
      modifies this`caches, this`log
      ensures err == CreateReply(sc.key in old(caches), faults)
      ensures caches == if err.None? then old(caches)[sc.key := sc.spec] else old(caches)
      ensures log == old(log) + [Write(Op.CreateServiceCache, sc.key)]
    {
      err := CreateReply(sc.key in caches, faults);
      if err.None? {
        caches := caches[sc.key := sc.spec];
      }
      log := log + [Write(Op.CreateServiceCache, sc.key)];
    }

    method UpdateServiceCache(sc: ServiceCache) returns (err: Option<ApiError>)
      modifies this`caches, this`log
      ensures err == Reply(Op.UpdateServiceCache, sc.key in old(caches), faults)
      ensures caches == if err.None? then old(caches)[sc.key := sc.spec] else old(caches)
      ensures log == old(log) + [Write(Op.UpdateServiceCache, sc.key)]
    {
      err := Reply(Op.UpdateServiceCache, sc.key in caches, faults);
      if err.None? {
        caches := caches[sc.key := sc.spec];
      }
      log := log + [Write(Op.UpdateServiceCache, sc.key)];
    }

    method DeleteServiceCache(sc: ServiceCache) returns (err: Option<ApiError>)
      modifies this`caches, this`log
      ensures err == Reply(Op.DeleteServiceCache, sc.key in old(caches), faults)
      ensures caches == if err.None? then old(caches) - {sc.key} else old(caches)
      ensures log == old(log) + [Write(Op.DeleteServiceCache, sc.key)]
    {
      err := Reply(Op.DeleteServiceCache, sc.key in caches, faults);
      if err.None? {
        caches := caches - {sc.key};
      }
      log := log + [Write(Op.DeleteServiceCache, sc.key)];
    }

    method UpdateService(svc: Service) returns (err: Option<ApiError>)
      modifies this`services, this`log
      ensures err == Reply(Op.UpdateService, svc.key in old(services), faults)
      ensures services == if err.None? then old(services)[svc.key := svc.annotations] else old(services)
      ensures log == old(log) + [Write(Op.UpdateService, svc.key)]
    {
      err := Reply(Op.UpdateService, svc.key in services, faults);
      if err.None? {
        services := services[svc.key := svc.annotations];
      }
      log := log + [Write(Op.UpdateService, svc.key)];
    }

    /**
     * controllerutil.SetControllerReference: it only edits the in-memory dependent's
     * owner references, which neither controller persists afterwards, so the store is
     * untouched and only its possible failure is modelled.
     */
    method SetControllerReference(owner: object, dependent: object) returns (err: Option<ApiError>)
      ensures err == OwnerReply(faults)
    {
      err := OwnerReply(faults);
    }
  }
}
