/** The get / create-if-absent / patch-changed-fields / no-op-if-equal step
    that the grant server applies to its Certificate and its SecuredAccess. */
module Reconcile {
  import opened Wrappers
  import opened Meta
  import opened Store

  /** The object an update sends: the existing object with the desired
      owner references and spec, everything else (type, name, namespace,
      labels, resource version, status) as fetched. */
  function Merge(existing: Object, desired: Object): (m: Object)
    ensures m.meta.ownerReferences == desired.meta.ownerReferences && m.spec == desired.spec
    ensures m.typeMeta == existing.typeMeta && m.status == existing.status
    ensures m.meta.(ownerReferences := existing.meta.ownerReferences) == existing.meta
  {
    existing.(meta := existing.meta.(ownerReferences := desired.meta.ownerReferences), spec := desired.spec)
  }

  /** The update is needed exactly when the owner references or the spec differ. */
  lemma MergeChangesIff(existing: Object, desired: Object)
    ensures Merge(existing, desired) != existing <==>
            existing.meta.ownerReferences != desired.meta.ownerReferences || existing.spec != desired.spec
  {
    if Merge(existing, desired) == existing {
      assert existing.meta.ownerReferences == Merge(existing, desired).meta.ownerReferences;
    }
  }

  /** The key a desired object is reconciled under. */
  function KeyOf(resource: Resource, namespace: string, desired: Object): Key
  {
    Key(resource, namespace, desired.meta.name)
  }

  /** The reconcile step as a transition of the store, with the outcome the
      caller sees. */
  function EnsureSpec(st: StoreState, resource: Resource, namespace: string, desired: Object): (r: (StoreState, Option<StoreError>))
    requires WellFormed(st)
    ensures WellFormed(r.0)
    // at most one write, and the log only grows
    ensures r.0.faults == st.faults
    ensures |st.writes| <= |r.0.writes| <= |st.writes| + 1 && r.0.writes[..|st.writes|] == st.writes
    // only the reconciled name is touched
    ensures r.0.objects - {KeyOf(resource, namespace, desired)} == st.objects - {KeyOf(resource, namespace, desired)}
    // a failed fetch other than NotFound: returned unchanged, no write
    ensures Call(Get, resource) in st.faults ==>
              r == (st, Some(Failed(st.faults[Call(Get, resource)])))
    // absent: exactly one create, of the desired object verbatim, and its error
    ensures Call(Get, resource) !in st.faults && KeyOf(resource, namespace, desired) !in st.objects ==>
              && r.0.writes == st.writes + [Created(KeyOf(resource, namespace, desired), desired)]
              && (r.1.None? <==> Call(Create, resource) !in st.faults)
    // present: no write when nothing differs, otherwise one update of the merge
    ensures Call(Get, resource) !in st.faults && KeyOf(resource, namespace, desired) in st.objects ==>
              var existing := st.objects[KeyOf(resource, namespace, desired)];
              && (r.0.writes == st.writes <==>
                    existing.meta.ownerReferences == desired.meta.ownerReferences && existing.spec == desired.spec)
              && (r.0.writes == st.writes ==> r == (st, None))
              && (r.0.writes != st.writes ==>
                    && r.0.writes == st.writes + [Updated(KeyOf(resource, namespace, desired), Merge(existing, desired))]
                    && (r.1.None? <==> Call(Update, resource) !in st.faults))
    // a create or update is the store's own, so its error is returned unchanged
    ensures Call(Get, resource) !in st.faults && KeyOf(resource, namespace, desired) !in st.objects ==>
              r == CreateObject(st, resource, namespace, desired)
    ensures Call(Get, resource) !in st.faults && KeyOf(resource, namespace, desired) in st.objects &&
            Merge(st.objects[KeyOf(resource, namespace, desired)], desired) != st.objects[KeyOf(resource, namespace, desired)] ==>
              r == UpdateObject(st, resource, namespace, Merge(st.objects[KeyOf(resource, namespace, desired)], desired))
    // failure: no object changes
    ensures r.1.Some? ==> r.0.objects == st.objects
    // success: the stored object carries the desired owner references and spec
    ensures r.1.None? ==>
              var key := KeyOf(resource, namespace, desired);
              key in r.0.objects &&
              r.0.objects[key].meta.ownerReferences == desired.meta.ownerReferences &&
              r.0.objects[key].spec == desired.spec
  {
    var key := KeyOf(resource, namespace, desired);
    match GetObject(st, key)
    case Err(NotFound(_, _)) => CreateObject(st, resource, namespace, desired)
    case Err(e) => (st, Some(e))
    case Ok(existing) =>
      var merged := Merge(existing, desired);
      MergeChangesIff(existing, desired);
      if merged == existing then (st, None) else UpdateObject(st, resource, namespace, merged)
  }

  /** Idempotence: after a successful reconcile and with no change in
      between, reconciling the same desired object again writes nothing. */
  lemma EnsureIdempotent(st: StoreState, resource: Resource, namespace: string, desired: Object)
    requires WellFormed(st)
    requires EnsureSpec(st, resource, namespace, desired).1 == None
    ensures var st1 := EnsureSpec(st, resource, namespace, desired).0;
            EnsureSpec(st1, resource, namespace, desired) == (st1, None)
  {
    var st1 := EnsureSpec(st, resource, namespace, desired).0;
    assert Call(Get, resource) !in st1.faults;
  }

  /** Every write the reconcile step issues is to the reconciled name. */
  lemma EnsureWritesKey(st: StoreState, resource: Resource, namespace: string, desired: Object)
    requires WellFormed(st)
    ensures var r := EnsureSpec(st, resource, namespace, desired);
            forall i :: |st.writes| <= i < |r.0.writes| ==> r.0.writes[i].key == KeyOf(resource, namespace, desired)
  {
  }

  /** Reconciling leaves every other name's object and fetch outcome as it was. */
  lemma EnsureFrame(st: StoreState, resource: Resource, namespace: string, desired: Object, other: Key)
    requires WellFormed(st)
    requires other != KeyOf(resource, namespace, desired)
    ensures GetObject(EnsureSpec(st, resource, namespace, desired).0, other) == GetObject(st, other)
  {
    var st1 := EnsureSpec(st, resource, namespace, desired).0;
    var k := KeyOf(resource, namespace, desired);
    assert other in st1.objects - {k} <==> other in st.objects - {k};
    if other in st.objects {
      assert (st1.objects - {k})[other] == (st.objects - {k})[other];
    }
  }

  /** `ensureCert` / `ensureSecuredAccess`, for the given resource. */
  method Ensure(clients: Clients, resource: Resource, namespace: string, desired: Object) returns (err: Option<StoreError>)
    requires clients.Valid()
    modifies clients
    ensures clients.Valid()
    ensures (clients.State(), err) == EnsureSpec(old(clients.State()), resource, namespace, desired)
  {
    var got := clients.Get(Key(resource, namespace, desired.meta.name));
    if got.Err? && got.error.NotFound? {
      err := clients.Create(resource, namespace, desired);
      return;
    } else if got.Err? {
      return Some(got.error);
    }
    var existing := got.value;
    var changed := false;
    if existing.meta.ownerReferences != desired.meta.ownerReferences {
      changed := true;
      existing := existing.(meta := existing.meta.(ownerReferences := desired.meta.ownerReferences));
    }
    if existing.spec != desired.spec {
      changed := true;
      existing := existing.(spec := desired.spec);
    }
    MergeChangesIff(got.value, desired);
    if !changed {
      return None;
    }
    err := clients.Update(resource, namespace, existing);
  }
}
