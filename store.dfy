/** The namespaced object store the grant server talks to through its
    Kubernetes and Skupper clients, as an in-memory map with a table of
    injected faults and a log of every write call issued. */
module Store {
  import opened Wrappers
  import opened Meta

  datatype Resource = Pods | Certificates | SecuredAccesses

  /** The group-qualified resource name that API errors print. */
  function ResourceName(r: Resource): string
  {
    match r
    case Pods => "pods"
    case Certificates => "certificates.skupper.io"
    case SecuredAccesses => "securedaccesses.skupper.io"
  }

  datatype Key = Key(resource: Resource, namespace: string, name: string)

  datatype Verb = Get | Create | Update

  /** A kind of store call; the fault table makes every call of that kind fail. */
  datatype Call = Call(verb: Verb, resource: Resource)

  /** `v2alpha1.SecuredAccessPort`. */
  datatype SecuredAccessPort = SecuredAccessPort(name: string, port: int, targetPort: int, protocol: string)

  /** The kind-specific `Spec` of the objects the core handles: a pod's spec
      is never read, so it carries nothing; `v2alpha1.CertificateSpec` and
      `v2alpha1.SecuredAccessSpec` carry their fields. */
  datatype Spec =
    | PodSpec
    | CertificateSpec(ca: string, subject: string, hosts: seq<string>, client: bool, server: bool, signing: bool)
    | SecuredAccessSpec(
        accessType: string,
        selector: map<string, string>,
        ports: seq<SecuredAccessPort>,
        issuer: string,
        certificate: string,
        settings: map<string, string>)

  /** Status, owned by whoever reconciles the object's runtime state. */
  datatype Status = Status(message: string, conditions: seq<Condition>)

  const EmptyStatus := Status("", [])

  datatype TypeMeta = TypeMeta(apiVersion: string, kind: string)

  datatype Object = Object(typeMeta: TypeMeta, meta: ObjectMeta, spec: Spec, status: Status)

  /** A write call as the store received it, whatever its outcome. */
  datatype Write = Created(key: Key, obj: Object) | Updated(key: Key, obj: Object)

  datatype StoreState = StoreState(objects: map<Key, Object>, faults: map<Call, string>, writes: seq<Write>)

  /** The store keeps every object under its own name and namespace. */
  predicate WellFormed(st: StoreState)
  {
    forall k :: k in st.objects ==> st.objects[k].meta.name == k.name && st.objects[k].meta.namespace == k.namespace
  }

  /** `Get(name)`: an injected fault, NotFound, or the stored object. */
  function GetObject(st: StoreState, key: Key): (r: Result<Object, StoreError>)
    ensures r.Ok? <==> Call(Get, key.resource) !in st.faults && key in st.objects
    ensures r.Ok? ==> r.value == st.objects[key]
    ensures r.Err? && r.error.NotFound? <==> Call(Get, key.resource) !in st.faults && key !in st.objects
    ensures Call(Get, key.resource) in st.faults ==> r == Err(Failed(st.faults[Call(Get, key.resource)]))
    ensures Call(Get, key.resource) !in st.faults && key !in st.objects ==>
              r == Err(NotFound(ResourceName(key.resource), key.name))
  {
    if Call(Get, key.resource) in st.faults then Err(Failed(st.faults[Call(Get, key.resource)]))
    else if key !in st.objects then Err(NotFound(ResourceName(key.resource), key.name))
    else Ok(st.objects[key])
  }

  /** What the store keeps of a created object: it is placed in the namespace
      of the call and given its first resource version. */
  function Stored(obj: Object, namespace: string): (o: Object)
    ensures o.meta.ownerReferences == obj.meta.ownerReferences && o.spec == obj.spec
    ensures o.meta.name == obj.meta.name && o.meta.resourceVersion == 1
  {
    obj.(meta := obj.meta.(namespace := namespace, resourceVersion := 1))
  }

  /** `Create(obj)` in a namespace: logged; fails on a fault or an existing name. */
  function CreateObject(st: StoreState, resource: Resource, namespace: string, obj: Object): (r: (StoreState, Option<StoreError>))
    ensures var key := Key(resource, namespace, obj.meta.name);
      && r.0.writes == st.writes + [Created(key, obj)]
      && r.0.faults == st.faults
      && (r.1.None? <==> Call(Create, resource) !in st.faults && key !in st.objects)
      && r.0.objects == (if r.1.None? then st.objects[key := Stored(obj, namespace)] else st.objects)
    // the error: an injected fault, else the name already taken
    ensures Call(Create, resource) in st.faults ==> r.1 == Some(Failed(st.faults[Call(Create, resource)]))
    ensures Call(Create, resource) !in st.faults && Key(resource, namespace, obj.meta.name) in st.objects ==>
              r.1 == Some(AlreadyExists(ResourceName(resource), obj.meta.name))
    ensures WellFormed(st) ==> WellFormed(r.0)
  {
    var key := Key(resource, namespace, obj.meta.name);
    var st' := st.(writes := st.writes + [Created(key, obj)]);
    if Call(Create, resource) in st.faults then (st', Some(Failed(st.faults[Call(Create, resource)])))
    else if key in st.objects then (st', Some(AlreadyExists(ResourceName(resource), obj.meta.name)))
    else (st'.(objects := st.objects[key := Stored(obj, namespace)]), None)
  }

  /** `Update(obj)`: logged; fails on a fault, a missing object, or a stale
      resource version (optimistic concurrency); otherwise replaces the object
      and advances its version. */
  function UpdateObject(st: StoreState, resource: Resource, namespace: string, obj: Object): (r: (StoreState, Option<StoreError>))
    ensures var key := Key(resource, namespace, obj.meta.name);
      && r.0.writes == st.writes + [Updated(key, obj)]
      && r.0.faults == st.faults
      && (r.1.None? <==> Call(Update, resource) !in st.faults && key in st.objects &&
                         st.objects[key].meta.resourceVersion == obj.meta.resourceVersion)
      && r.0.objects == (if r.1.None?
                         then st.objects[key := obj.(meta := obj.meta.(resourceVersion := obj.meta.resourceVersion + 1))]
                         else st.objects)
    // the error: an injected fault, else a missing object, else a stale version
    ensures Call(Update, resource) in st.faults ==> r.1 == Some(Failed(st.faults[Call(Update, resource)]))
    ensures Call(Update, resource) !in st.faults && Key(resource, namespace, obj.meta.name) !in st.objects ==>
              r.1 == Some(NotFound(ResourceName(resource), obj.meta.name))
    ensures var key := Key(resource, namespace, obj.meta.name);
              Call(Update, resource) !in st.faults && key in st.objects &&
              st.objects[key].meta.resourceVersion != obj.meta.resourceVersion ==>
              r.1 == Some(Conflict(ResourceName(resource), obj.meta.name))
    ensures WellFormed(st) && (r.1.None? ==> obj.meta.namespace == namespace) ==> WellFormed(r.0)
  {
    var key := Key(resource, namespace, obj.meta.name);
    var st' := st.(writes := st.writes + [Updated(key, obj)]);
    if Call(Update, resource) in st.faults then (st', Some(Failed(st.faults[Call(Update, resource)])))
    else if key !in st.objects then (st', Some(NotFound(ResourceName(resource), obj.meta.name)))
    else if st.objects[key].meta.resourceVersion != obj.meta.resourceVersion then
      (st', Some(Conflict(ResourceName(resource), obj.meta.name)))
    else (st'.(objects := st.objects[key := obj.(meta := obj.meta.(resourceVersion := obj.meta.resourceVersion + 1))]), None)
  }

  /** The clients (`internalclient.Clients`) with the store behind them. */
  class Clients {
    var objects: map<Key, Object>
    var faults: map<Call, string>
    var writes: seq<Write>

    constructor (objects: map<Key, Object>, faults: map<Call, string>)
      requires WellFormed(StoreState(objects, faults, []))
      ensures Valid()
      ensures State() == StoreState(objects, faults, [])
    {
      this.objects := objects;
      this.faults := faults;
      this.writes := [];
    }

    function State(): StoreState
      reads this
    {
      StoreState(objects, faults, writes)
    }

    predicate Valid()
      reads this
    {
      WellFormed(State())
    }

    method Get(key: Key) returns (r: Result<Object, StoreError>)
      ensures r == GetObject(State(), key)
    {
      if Call(Verb.Get, key.resource) in faults {
        r := Err(Failed(faults[Call(Verb.Get, key.resource)]));
      } else if key !in objects {
        r := Err(NotFound(ResourceName(key.resource), key.name));
      } else {
        r := Ok(objects[key]);
      }
    }

    method Create(resource: Resource, namespace: string, obj: Object) returns (err: Option<StoreError>)
      modifies this
      ensures (State(), err) == CreateObject(old(State()), resource, namespace, obj)
    {
      var key := Key(resource, namespace, obj.meta.name);
      writes := writes + [Created(key, obj)];
      if Call(Verb.Create, resource) in faults {
        err := Some(Failed(faults[Call(Verb.Create, resource)]));
      } else if key in objects {
        err := Some(AlreadyExists(ResourceName(resource), obj.meta.name));
      } else {
        objects := objects[key := Stored(obj, namespace)];
        err := None;
      }
    }

    method Update(resource: Resource, namespace: string, obj: Object) returns (err: Option<StoreError>)
      modifies this
      ensures (State(), err) == UpdateObject(old(State()), resource, namespace, obj)
    {
      var key := Key(resource, namespace, obj.meta.name);
      writes := writes + [Updated(key, obj)];
      if Call(Verb.Update, resource) in faults {
        err := Some(Failed(faults[Call(Verb.Update, resource)]));
      } else if key !in objects {
        err := Some(NotFound(ResourceName(resource), obj.meta.name));
      } else if objects[key].meta.resourceVersion != obj.meta.resourceVersion {
        err := Some(Conflict(ResourceName(resource), obj.meta.name));
      } else {
        objects := objects[key := obj.(meta := obj.meta.(resourceVersion := obj.meta.resourceVersion + 1))];
        err := None;
      }
    }
  }
}
