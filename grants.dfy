/** Auto-configuration of the grant server: read the owning pod, then stand
    up a signing Certificate and a SecuredAccess for the grant server through
    the reconcile step, then register the SecuredAccess watch. */
module Grants {
  import opened Wrappers
  import opened Meta
  import opened Store
  import opened Reconcile

  const SkupperApiVersion := "skupper.io/v2alpha1"
  const GrantServerCaName := "skupper-grant-server-ca"
  const GrantServerName := "skupper-grant-server"
  const DefaultTlsCredentialsSecret := "skupper-grant-server"

  /** An owner reference re-derived from the pod's: Kind, APIVersion, Name
      and UID only, without the controller flags. */
  function Rederive(or: OwnerReference): (r: OwnerReference)
    ensures r.kind == or.kind && r.apiVersion == or.apiVersion && r.name == or.name && r.uid == or.uid
    ensures r.controller.None? && r.blockOwnerDeletion.None?
  {
    OwnerReference(or.apiVersion, or.kind, or.name, or.uid, None, None)
  }

  /** Each reference of `refs` re-derived, in order. */
  function RederiveAll(refs: seq<OwnerReference>): (r: seq<OwnerReference>)
    ensures |r| == |refs|
    ensures forall i :: 0 <= i < |refs| ==> r[i] == Rederive(refs[i])
  {
    if refs == [] then [] else RederiveAll(refs[..|refs| - 1]) + [Rederive(refs[|refs| - 1])]
  }

  /** The fields of an `AutoConfigure`, as a value. */
  datatype Settings = Settings(
    port: int,
    podname: string,
    tlsCredentialsSecret: string,
    ownerRefs: seq<OwnerReference>,
    selector: map<string, string>)

  function PodKey(namespace: string, s: Settings): Key
  {
    Key(Pods, namespace, s.podname)
  }

  /** `getConfigurationFromPod` on values: the pod fetch's error, or the settings
      with the pod's re-derived owner references appended and its labels as
      the selector. */
  function FromPod(st: StoreState, namespace: string, s: Settings): (r: (Settings, Option<StoreError>))
    ensures GetObject(st, PodKey(namespace, s)).Err? ==> r == (s, Some(GetObject(st, PodKey(namespace, s)).error))
    ensures GetObject(st, PodKey(namespace, s)).Ok? ==>
              var pod := GetObject(st, PodKey(namespace, s)).value;
              r.1.None? &&
              r.0 == s.(ownerRefs := s.ownerRefs + RederiveAll(pod.meta.ownerReferences), selector := pod.meta.labels)
  {
    match GetObject(st, PodKey(namespace, s))
    case Err(e) => (s, Some(e))
    case Ok(pod) => (s.(ownerRefs := s.ownerRefs + RederiveAll(pod.meta.ownerReferences), selector := pod.meta.labels), None)
  }

  /** The signing Certificate the grant server issues its credentials from. */
  function DesiredCertificate(s: Settings): (c: Object)
    ensures c.meta.name == GrantServerCaName && c.meta.ownerReferences == s.ownerRefs
    ensures c.typeMeta == TypeMeta(SkupperApiVersion, "Certificate")
    ensures c.spec.CertificateSpec? && c.spec.signing && !c.spec.client && !c.spec.server
    ensures c.spec.subject == "SkupperGrantServerCA" && c.spec.ca == "" && c.spec.hosts == []
  {
    Object(
      TypeMeta(SkupperApiVersion, "Certificate"),
      NamedMeta(GrantServerCaName, s.ownerRefs),
      CertificateSpec(ca := "", subject := "SkupperGrantServerCA", hosts := [], client := false, server := false, signing := true),
      EmptyStatus)
  }

  /** The SecuredAccess that exposes the grant server: one `https` port,
      issued by the signing Certificate, with the configured TLS secret, the
      pod's selector and the Certificate's owner references. */
  function DesiredSecuredAccess(s: Settings): (a: Object)
    ensures a.meta.name == GrantServerName && a.typeMeta == TypeMeta(SkupperApiVersion, "SecuredAccess")
    ensures a.meta.ownerReferences == DesiredCertificate(s).meta.ownerReferences
    ensures a.spec.SecuredAccessSpec?
    ensures a.spec.issuer == DesiredCertificate(s).meta.name
    ensures a.spec.certificate == s.tlsCredentialsSecret && a.spec.selector == s.selector
    ensures |a.spec.ports| == 1 && a.spec.ports[0].name == "https" && a.spec.ports[0].port == s.port
    // the fields the source leaves at their zero values
    ensures a.spec.ports[0].targetPort == 0 && a.spec.ports[0].protocol == ""
    ensures a.spec.accessType == "" && a.spec.settings == map[]
  {
    Object(
      TypeMeta(SkupperApiVersion, "SecuredAccess"),
      NamedMeta(GrantServerName, s.ownerRefs),
      SecuredAccessSpec(
        accessType := "",
        selector := s.selector,
        ports := [SecuredAccessPort("https", s.port, 0, "")],
        issuer := GrantServerCaName,
        certificate := s.tlsCredentialsSecret,
        settings := map[]),
      EmptyStatus)
  }

  function CertKey(namespace: string): Key { Key(Certificates, namespace, GrantServerCaName) }

  function AccessKey(namespace: string): Key { Key(SecuredAccesses, namespace, GrantServerName) }

  datatype ConfigureResult = ConfigureResult(store: StoreState, settings: Settings, err: Option<StoreError>)

  /** `configure` on values: pod, then Certificate, then SecuredAccess, each
      step aborting the rest on error. */
  function ConfigureSpec(st: StoreState, namespace: string, s: Settings): (r: ConfigureResult)
    requires WellFormed(st)
    ensures WellFormed(r.store) && r.store.faults == st.faults
    ensures r.settings == FromPod(st, namespace, s).0
  {
    var (s1, podErr) := FromPod(st, namespace, s);
    if podErr.Some? then ConfigureResult(st, s1, podErr)
    else
      var (st1, certErr) := EnsureSpec(st, Certificates, namespace, DesiredCertificate(s1));
      if certErr.Some? then ConfigureResult(st1, s1, certErr)
      else
        var (st2, accessErr) := EnsureSpec(st1, SecuredAccesses, namespace, DesiredSecuredAccess(s1));
        ConfigureResult(st2, s1, accessErr)
  }

  /** A pod error aborts before any store write and records nothing. */
  lemma ConfigurePodError(st: StoreState, namespace: string, s: Settings)
    requires WellFormed(st) && GetObject(st, PodKey(namespace, s)).Err?
    ensures ConfigureSpec(st, namespace, s) == ConfigureResult(st, s, Some(GetObject(st, PodKey(namespace, s)).error))
  {
  }

  /** A Certificate error aborts before the SecuredAccess is touched: the
      writes are those of the Certificate step alone. */
  lemma ConfigureCertError(st: StoreState, namespace: string, s: Settings)
    requires WellFormed(st) && GetObject(st, PodKey(namespace, s)).Ok?
    requires EnsureSpec(st, Certificates, namespace, DesiredCertificate(FromPod(st, namespace, s).0)).1.Some?
    ensures var s1 := FromPod(st, namespace, s).0;
            var cert := EnsureSpec(st, Certificates, namespace, DesiredCertificate(s1));
            ConfigureSpec(st, namespace, s) == ConfigureResult(cert.0, s1, cert.1)
    ensures var r := ConfigureSpec(st, namespace, s);
            forall i :: |st.writes| <= i < |r.store.writes| ==> r.store.writes[i].key == CertKey(namespace)
  {
    var s1 := FromPod(st, namespace, s).0;
    var cert := EnsureSpec(st, Certificates, namespace, DesiredCertificate(s1));
    assert ConfigureSpec(st, namespace, s).store == cert.0;
  }

  /** Past the pod and the Certificate, the outcome is the SecuredAccess
      step's: its store and its error, returned unchanged. */
  lemma ConfigureAccessStep(st: StoreState, namespace: string, s: Settings)
    requires WellFormed(st) && GetObject(st, PodKey(namespace, s)).Ok?
    requires EnsureSpec(st, Certificates, namespace, DesiredCertificate(FromPod(st, namespace, s).0)).1.None?
    ensures var s1 := FromPod(st, namespace, s).0;
            var cert := EnsureSpec(st, Certificates, namespace, DesiredCertificate(s1));
            var access := EnsureSpec(cert.0, SecuredAccesses, namespace, DesiredSecuredAccess(s1));
            ConfigureSpec(st, namespace, s) == ConfigureResult(access.0, s1, access.1)
  {
  }

  /** Two logged steps of at most one write each, the first to `k1` and the
      second to `k2`: at most two writes in all, and `k1`'s comes first. */
  lemma TwoStepLog(w0: seq<Write>, w1: seq<Write>, w2: seq<Write>, k1: Key, k2: Key)
    requires |w0| <= |w1| <= |w0| + 1 && w1[..|w0|] == w0
    requires forall i :: |w0| <= i < |w1| ==> w1[i].key == k1
    requires |w1| <= |w2| <= |w1| + 1 && w2[..|w1|] == w1
    requires forall i :: |w1| <= i < |w2| ==> w2[i].key == k2
    ensures |w0| <= |w2| <= |w0| + 2 && w2[..|w0|] == w0
    ensures forall i :: |w0| <= i < |w2| ==> w2[i].key == k1 || w2[i].key == k2
    ensures |w2| == |w0| + 2 ==> w2[|w0|].key == k1
  {
    assert w2[..|w0|] == w1[..|w0|];
    forall i | |w0| <= i < |w2| ensures w2[i].key == k1 || w2[i].key == k2 {
      if i < |w1| {
        assert w2[i] == w1[i];
      }
    }
    if |w2| == |w0| + 2 {
      assert w2[|w0|] == w1[|w0|];
    }
  }

  /** At most two writes, only of the two grant-server objects, and when
      there are two the Certificate's comes first. */
  lemma ConfigureWrites(st: StoreState, namespace: string, s: Settings)
    requires WellFormed(st)
    ensures var r := ConfigureSpec(st, namespace, s);
      && |st.writes| <= |r.store.writes| <= |st.writes| + 2
      && r.store.writes[..|st.writes|] == st.writes
      && (forall i :: |st.writes| <= i < |r.store.writes| ==>
            r.store.writes[i].key == CertKey(namespace) || r.store.writes[i].key == AccessKey(namespace))
      && (|r.store.writes| == |st.writes| + 2 ==> r.store.writes[|st.writes|].key == CertKey(namespace))
  {
    var (s1, podErr) := FromPod(st, namespace, s);
    if podErr.None? {
      var (st1, certErr) := EnsureSpec(st, Certificates, namespace, DesiredCertificate(s1));
      EnsureWritesKey(st, Certificates, namespace, DesiredCertificate(s1));
      if certErr.None? {
        var (st2, _) := EnsureSpec(st1, SecuredAccesses, namespace, DesiredSecuredAccess(s1));
        EnsureWritesKey(st1, SecuredAccesses, namespace, DesiredSecuredAccess(s1));
        TwoStepLog(st.writes, st1.writes, st2.writes, CertKey(namespace), AccessKey(namespace));
        assert ConfigureSpec(st, namespace, s).store == st2;
      } else {
        assert ConfigureSpec(st, namespace, s).store == st1;
      }
    }
  }

  /** After a successful run both objects are stored with the desired
      owner references and spec. */
  lemma ConfigureConverges(st: StoreState, namespace: string, s: Settings)
    requires WellFormed(st) && ConfigureSpec(st, namespace, s).err.None?
    ensures var r := ConfigureSpec(st, namespace, s);
      && CertKey(namespace) in r.store.objects && AccessKey(namespace) in r.store.objects
      && r.store.objects[CertKey(namespace)].spec == DesiredCertificate(r.settings).spec
      && r.store.objects[CertKey(namespace)].meta.ownerReferences == r.settings.ownerRefs
      && r.store.objects[AccessKey(namespace)].spec == DesiredSecuredAccess(r.settings).spec
      && r.store.objects[AccessKey(namespace)].meta.ownerReferences == r.settings.ownerRefs
  {
    var s1 := FromPod(st, namespace, s).0;
    var (st1, _) := EnsureSpec(st, Certificates, namespace, DesiredCertificate(s1));
    EnsureFrame(st1, SecuredAccesses, namespace, DesiredSecuredAccess(s1), CertKey(namespace));
    assert GetObject(st1, CertKey(namespace)).Ok?;
  }

  /** `GrantConfig`, the part auto-configuration reads. */
  datatype GrantConfig = GrantConfig(port: int, tlsCredentialsSecret: string, hostname: string)

  /** The settings `newAutoConfigure` starts from: an empty TLS secret name
      falls back to the default. */
  function InitialSettings(config: GrantConfig): (s: Settings)
    ensures s.tlsCredentialsSecret == (if config.tlsCredentialsSecret == "" then DefaultTlsCredentialsSecret
                                      else config.tlsCredentialsSecret)
    ensures s.port == config.port && s.podname == config.hostname && s.ownerRefs == [] && s.selector == map[]
  {
    Settings(
      config.port,
      config.hostname,
      if config.tlsCredentialsSecret == "" then DefaultTlsCredentialsSecret else config.tlsCredentialsSecret,
      [],
      map[])
  }

  /** A restart is safe: configuring a fresh `AutoConfigure` a second time,
      against the store the first run left behind, writes nothing. */
  lemma RestartWritesNothing(st: StoreState, namespace: string, config: GrantConfig)
    requires WellFormed(st)
    requires ConfigureSpec(st, namespace, InitialSettings(config)).err.None?
    ensures var first := ConfigureSpec(st, namespace, InitialSettings(config));
            ConfigureSpec(first.store, namespace, InitialSettings(config)) == first
  {
    var s := InitialSettings(config);
    var first := ConfigureSpec(st, namespace, s);
    var (s1, _) := FromPod(st, namespace, s);
    var (st1, _) := EnsureSpec(st, Certificates, namespace, DesiredCertificate(s1));
    var (st2, _) := EnsureSpec(st1, SecuredAccesses, namespace, DesiredSecuredAccess(s1));
    assert first.store == st2;
    // the pod is read the same way again: neither write touched it
    EnsureFrame(st, Certificates, namespace, DesiredCertificate(s1), PodKey(namespace, s));
    EnsureFrame(st1, SecuredAccesses, namespace, DesiredSecuredAccess(s1), PodKey(namespace, s));
    assert FromPod(st2, namespace, s) == (s1, None);
    // the Certificate is found as the first run left it
    EnsureIdempotent(st, Certificates, namespace, DesiredCertificate(s1));
    EnsureFrame(st1, SecuredAccesses, namespace, DesiredSecuredAccess(s1), CertKey(namespace));
    assert EnsureSpec(st2, Certificates, namespace, DesiredCertificate(s1)) == (st2, None);
    EnsureIdempotent(st1, SecuredAccesses, namespace, DesiredSecuredAccess(s1));
  }

  /** A watch the event processor runs: SecuredAccesses of one name, in one namespace. */
  datatype Watch = Watch(resource: Resource, name: string, namespace: string)

  /** The event processor, which is also the clients the configuration goes through. */
  class EventProcessor {
    const clients: Clients
    var watches: seq<Watch>

    constructor (clients: Clients)
      ensures this.clients == clients && watches == []
    {
      this.clients := clients;
      watches := [];
    }

    /** `WatchSecuredAccessesWithOptions(SkupperResourceByName(name), namespace, handler)`. */
    method WatchSecuredAccesses(name: string, namespace: string)
      modifies this
      ensures watches == old(watches) + [Watch(SecuredAccesses, name, namespace)]
    {
      watches := watches + [Watch(SecuredAccesses, name, namespace)];
    }
  }

  /** `AutoConfigure`: the grant server's auto-configuration state. */
  class AutoConfigure {
    var port: int
    var podname: string
    var tlsCredentialsSecret: string
    var ownerRefs: seq<OwnerReference>
    var selector: map<string, string>

    constructor (port: int, tlsCredentialsSecret: string, podname: string)
      ensures View() == Settings(port, podname, tlsCredentialsSecret, [], map[])
    {
      this.port := port;
      this.tlsCredentialsSecret := tlsCredentialsSecret;
      this.podname := podname;
      this.ownerRefs := [];
      this.selector := map[];
    }

    function View(): Settings
      reads this
    {
      Settings(port, podname, tlsCredentialsSecret, ownerRefs, selector)
    }

    /** `getConfigurationFromPod`. */
    method GetConfigurationFromPod(clients: Clients, namespace: string) returns (err: Option<StoreError>)
      modifies this
      ensures (View(), err) == FromPod(clients.State(), namespace, old(View()))
    {
      var got := clients.Get(Key(Pods, namespace, podname));
      if got.Err? {
        return Some(got.error);
      }
      var refs := got.value.meta.ownerReferences;
      var i := 0;
      while i < |refs|
        invariant 0 <= i <= |refs|
        invariant View() == old(View()).(ownerRefs := old(ownerRefs) + RederiveAll(refs[..i]))
      {
        assert refs[..i + 1][..i] == refs[..i];
        ownerRefs := ownerRefs + [OwnerReference(refs[i].apiVersion, refs[i].kind, refs[i].name, refs[i].uid, None, None)];
        i := i + 1;
      }
      assert refs[..|refs|] == refs;
      selector := got.value.meta.labels;
      err := None;
    }

    /** `ensureCert`. */
    method EnsureCert(clients: Clients, namespace: string, desired: Object) returns (err: Option<StoreError>)
      requires clients.Valid()
      modifies clients
      ensures clients.Valid()
      ensures (clients.State(), err) == EnsureSpec(old(clients.State()), Certificates, namespace, desired)
    {
      err := Ensure(clients, Certificates, namespace, desired);
    }

    /** `ensureSecuredAccess`. */
    method EnsureSecuredAccess(clients: Clients, namespace: string, desired: Object) returns (err: Option<StoreError>)
      requires clients.Valid()
      modifies clients
      ensures clients.Valid()
      ensures (clients.State(), err) == EnsureSpec(old(clients.State()), SecuredAccesses, namespace, desired)
    {
      err := Ensure(clients, SecuredAccesses, namespace, desired);
    }

    /** `configure`. */
    method Configure(clients: Clients, namespace: string) returns (err: Option<StoreError>)
      requires clients.Valid()
      modifies this, clients
      ensures clients.Valid()
      ensures var r := ConfigureSpec(old(clients.State()), namespace, old(View()));
              clients.State() == r.store && View() == r.settings && err == r.err
    {
      err := GetConfigurationFromPod(clients, namespace);
      if err.Some? {
        return;
      }
      var cert := DesiredCertificate(View());
      err := EnsureCert(clients, namespace, cert);
      if err.Some? {
        return;
      }
      var sa := DesiredSecuredAccess(View());
      err := EnsureSecuredAccess(clients, namespace, sa);
    }
  }

  /** `newAutoConfigure`: configure, wrapping any error, and register the
      SecuredAccess watch only once configuration succeeded. */
  method NewAutoConfigure(eventProcessor: EventProcessor, currentNamespace: string, config: GrantConfig)
    returns (ac: AutoConfigure?, err: Option<string>)
    requires eventProcessor.clients.Valid()
    modifies eventProcessor, eventProcessor.clients
    ensures eventProcessor.clients.Valid()
    ensures var r := ConfigureSpec(old(eventProcessor.clients.State()), currentNamespace, InitialSettings(config));
      && eventProcessor.clients.State() == r.store
      && (r.err.Some? ==>
            && ac == null
            && err == Some("Error creating resources for grant server: " + ErrorMessage(r.err.value))
            && eventProcessor.watches == old(eventProcessor.watches))
      && (r.err.None? ==>
            && ac != null && fresh(ac) && ac.View() == r.settings
            && err == None
            && eventProcessor.watches == old(eventProcessor.watches) + [Watch(SecuredAccesses, GrantServerName, currentNamespace)])
  {
    var a := new AutoConfigure(config.port, config.tlsCredentialsSecret, config.hostname);
    if a.tlsCredentialsSecret == "" {
      a.tlsCredentialsSecret := DefaultTlsCredentialsSecret;
    }
    var e := a.Configure(eventProcessor.clients, currentNamespace);
    if e.Some? {
      return null, Some("Error creating resources for grant server: " + ErrorMessage(e.value));
    }
    eventProcessor.WatchSecuredAccesses(GrantServerName, currentNamespace);
    return a, None;
  }
}
