/** Every step keeps the invariant and only grows the store and the log. */
module Preservation {
  import opened Names
  import opened Lifecycle
  import opened Cluster
  import opened Programs
  import opened Protocol
  import opened Invariant

  // ---- What each kind of write does to the store ----

  lemma PutConfigOk(p: Params, st: Store, data: ConfigData)
    requires StoreOk(p, st) && ConfigShape(ConfigMap(0, data))
    ensures StoreOk(p, PutConfig(st, data)) && StoreGrows(st, PutConfig(st, data))
    ensures PutConfig(st, data).cm.Some? && PutConfig(st, data).cm.value.data == data
  {
    PutConfigHeld(st, data);
    PutConfigGrows(st, data);
    NewConfigServices(st, PutConfig(st, data));
    hide ServicesOk, ConfigsOk, ConfigShape, RouteShape, StoreGrows;
  }

  lemma PutConfigHeld(st: Store, data: ConfigData)
    requires ConfigsOk(st) && ConfigShape(ConfigMap(0, data))
    ensures ConfigsOk(PutConfig(st, data))
  {
  }

  lemma PutConfigGrows(st: Store, data: ConfigData)
    requires ConfigsOk(st)
    ensures StoreGrows(st, PutConfig(st, data))
    ensures PutConfig(st, data).svc == st.svc && PutConfig(st, data).oldServices == st.oldServices
  {
    hide ConfigShape;
  }

  lemma NewConfigServices(st: Store, st': Store)
    requires ServicesOk(st) && StoreGrows(st, st') && st'.svc == st.svc && st'.oldServices == st.oldServices
    ensures ServicesOk(st')
  {
    forall v | v in st'.oldServices ensures ServiceShape(st', st'.oldServices[v].spec) {
      assert ServiceShape(st, st.oldServices[v].spec);
    }
  }

  lemma PutServiceHeld(st: Store, spec: ServiceSpec, readiness: Readiness)
    requires ServicesOk(st) && ServiceShape(st, spec)
    ensures ServicesOk(PutService(st, spec, readiness))
  {
    var st' := PutService(st, spec, readiness);
    forall v | v in st'.oldServices ensures ServiceShape(st', st'.oldServices[v].spec) {
      if v in st.oldServices { assert ServiceShape(st, st.oldServices[v].spec); }
    }
  }

  lemma PutServiceOk(p: Params, st: Store, spec: ServiceSpec, readiness: Readiness)
    requires StoreOk(p, st) && ServiceShape(st, spec)
    ensures StoreOk(p, PutService(st, spec, readiness)) && StoreGrows(st, PutService(st, spec, readiness))
    ensures PutService(st, spec, readiness).svc.Some? && PutService(st, spec, readiness).svc.value.spec == spec
  {
    PutServiceHeld(st, spec, readiness);
    PutServiceGrows(st, spec, readiness);
    hide ServiceShape, ServicesOk, StoreGrows, RouteShape, ConfigShape;
  }

  lemma PutServiceGrows(st: Store, spec: ServiceSpec, readiness: Readiness)
    requires ServicesOk(st)
    ensures StoreGrows(st, PutService(st, spec, readiness))
  {
    hide ServiceShape;
  }

  lemma PutRouteOk(p: Params, st: Store, r: Route)
    requires StoreOk(p, st) && RouteShape(p, r)
    requires r.name in st.routes ==> st.routes[r.name].owner == r.owner
    ensures StoreOk(p, PutRoute(st, r)) && StoreGrows(st, PutRoute(st, r))
  {
    hide ConfigShape, Annotation;
  }

  lemma PutFunctionOk(p: Params, st: Store, k: FnKey, f: Function)
    requires StoreOk(p, st)
    ensures StoreOk(p, PutFunction(st, k, f)) && StoreGrows(st, PutFunction(st, k, f))
  {
    hide ConfigShape, RouteShape, Annotation;
  }

  // ---- What a step does to the rest ----

  lemma Unfold(p: Params, s: State)
    requires Inv(p, s)
    ensures StoreOk(p, s.store) && LogOk(p, s) && RunsOk(p, s) && CrdsOk(s)
    ensures FunctionsOk(s) && OwnersOk(p, s) && ConfirmedOk(p, s) && CommitsOk(p, s) && ImageOk(s)
  {
  }

  lemma Parts(p: Params, s: State)
    requires LogOk(p, s)
    ensures FunctionsOk(s) && OwnersOk(p, s) && ConfirmedOk(p, s) && CommitsOk(p, s) && ImageOk(s)
  {
  }

  lemma FnsSameGrows(s: State, s': State)
    requires StoreGrows(s.store, s'.store) && LogGrows(s.log, s'.log) && s'.store.fns == s.store.fns
    ensures Grows(s, s')
  {
    hide StoreGrows, LogGrows;
  }

  lemma FnsSameKnown(s: State, s': State)
    requires FunctionsOk(s) && s'.store.fns == s.store.fns && s'.log.home == s.log.home
    requires s'.log.specs == s.log.specs && s'.log.confirmed == s.log.confirmed
    ensures FunctionsOk(s')
  {
    forall k | k in s'.store.fns ensures Known(s'.log, k, s'.store.fns[k]) {
      assert Known(s.log, k, s.store.fns[k]);
    }
  }

  lemma ConfirmedCarries(p: Params, s: State, s': State)
    requires ConfirmedOk(p, s) && StoreGrows(s.store, s'.store) && LogGrows(s.log, s'.log)
    requires s'.store.cm == s.store.cm && s'.log.confirmed == s.log.confirmed
    ensures ConfirmedOk(p, s')
  {
    forall u | u in s'.log.confirmed ensures Confirmed(p, s', u) { assert Confirmed(p, s, u); }
  }

  lemma CommitsCarry(p: Params, s: State, s': State)
    requires CommitsOk(p, s) && StoreGrows(s.store, s'.store) && LogGrows(s.log, s'.log)
    requires s'.store.cm == s.store.cm && s'.log.commits == s.log.commits
    ensures CommitsOk(p, s')
  {
    forall i | 0 <= i < |s'.log.commits|
      ensures Controls(p, s', s'.log.commits[i].writer) && s'.log.commits[i].key == KeyOf(p, s'.log, s'.log.commits[i].writer)
    {
      assert Controls(p, s, s.log.commits[i].writer);
    }
  }

  /** A step that leaves the configuration and the confirmations alone carries what was said about them. */
  lemma LogCarries(p: Params, s: State, s': State)
    requires LogOk(p, s) && StoreGrows(s.store, s'.store) && LogGrows(s.log, s'.log)
    requires s'.store.cm == s.store.cm && s'.log.commits == s.log.commits && s'.log.confirmed == s.log.confirmed
    requires FunctionsOk(s') && OwnersOk(p, s') && ImageOk(s')
    ensures LogOk(p, s')
  {
    hide StoreGrows, LogGrows, FunctionsOk, OwnersOk, ConfirmedOk, CommitsOk, ImageOk;
    ConfirmedCarries(p, s, s');
    CommitsCarry(p, s, s');
  }

  lemma SameLog(log: Log)
    ensures LogGrows(log, log)
  {
  }

  lemma SameOwners(p: Params, s: State, s': State)
    requires OwnersOk(p, s) && s'.store.routes == s.store.routes && s'.log == s.log
    ensures OwnersOk(p, s')
  {
  }

  /** Steps that write neither a Route, nor a Function, nor the configuration. */
  lemma QuietOk(p: Params, s: State, s': State)
    requires LogOk(p, s) && StoreGrows(s.store, s'.store)
    requires s'.store.cm == s.store.cm && s'.store.routes == s.store.routes && s'.store.fns == s.store.fns
    requires s'.log == s.log && ImageOk(s')
    ensures LogOk(p, s') && Grows(s, s')
  {
    hide StoreGrows, LogGrows, FnGrows, Known, ConfirmedOk, CommitsOk, ImageOk, OwnersOk;
    SameLog(s.log);
    FnsSameKnown(s, s');
    SameOwners(p, s, s');
    LogCarries(p, s, s');
    FnsSameGrows(s, s');
  }

  lemma SameOk(p: Params, s: State, s': State)
    requires StoreOk(p, s.store) && LogOk(p, s) && s'.store == s.store && s'.log == s.log
    ensures StoreOk(p, s'.store) && LogOk(p, s') && Grows(s, s')
  {
    assert StoreGrows(s.store, s'.store);
    assert ImageOk(s');
    hide *;
    QuietOk(p, s, s');
  }

  lemma NewRouteOk(p: Params, s: State, s': State, r: Route)
    requires LogOk(p, s) && StoreGrows(s.store, s'.store)
    requires s'.store == PutRoute(s.store, r)
    requires LogGrows(s.log, s'.log) && s'.log == s.log.(foreign := s'.log.foreign)
    requires OwnersOk(p, s')
    ensures LogOk(p, s') && Grows(s, s')
  {
    assert ImageOk(s');
    hide StoreGrows, LogGrows, FnGrows, Known, ConfirmedOk, CommitsOk, ImageOk, OwnersOk;
    FnsSameKnown(s, s');
    LogCarries(p, s, s');
    FnsSameGrows(s, s');
  }

  lemma NewFunctionOk(p: Params, s: State, s': State, k: FnKey, f: Function)
    requires LogOk(p, s) && StoreGrows(s.store, s'.store) && LogGrows(s.log, s'.log)
    requires s'.store == PutFunction(s.store, k, f)
    requires s'.log == s.log.(home := s'.log.home, specs := s'.log.specs)
    requires Known(s'.log, k, f) && OwnersOk(p, s') && SpecsOk(s'.store, s'.log)
    requires f.uid in s.log.home ==>
               && k in s.store.fns && s.store.fns[k].uid == f.uid
               && s.store.fns[k].generation <= f.generation && (s.store.fns[k].deleting ==> f.deleting)
    ensures LogOk(p, s') && Grows(s, s')
  {
    assert ImageOk(s');
    assert FunctionsOk(s') by {
      hide StoreGrows, OwnersOk, ConfirmedOk, CommitsOk, SpecsOk;
      forall j | j in s'.store.fns ensures Known(s'.log, j, s'.store.fns[j]) {
        if j != k { assert Known(s.log, j, s.store.fns[j]); }
      }
    }
    hide StoreGrows, LogGrows, Known, ConfirmedOk, CommitsOk, ImageOk, OwnersOk, SpecsOk;
    LogCarries(p, s, s');
  }

  // ---- Putting the parts together ----

  /** The acting reconcile is in order and nobody else's confirmation moved: so is everybody. */
  lemma RunsCarry(p: Params, s: State, s': State, k: FnKey)
    requires RunsOk(p, s) && CrdsOk(s) && StoreOk(p, s'.store) && LogOk(p, s') && Grows(s, s') && s'.crds == s.crds
    requires k in s'.runs ==> RunOk(p, s', k, s'.runs[k])
    requires forall j :: j in s'.runs && j != k ==> j in s.runs && s'.runs[j] == s.runs[j]
    requires OthersUnmoved(s, s', k)
    ensures Inv(p, s')
  {
    hide StoreOk, LogOk, Grows, RunOk, CrdOk;
    forall j | j in s'.runs ensures RunOk(p, s', j, s'.runs[j]) {
      if j != k { RunStable(p, s, s', j, s.runs[j]); }
    }
    forall c | c in s'.crds ensures CrdOk(s', s'.crds[c]) { CrdStable(s, s', s.crds[c]); }
  }

  ghost predicate OthersUnmoved(s: State, s': State, k: FnKey) {
    forall u :: u in s'.log.confirmed && u in s.log.home && s.log.home[u] != k ==>
      u in s.log.confirmed && s'.log.confirmed[u] == s.log.confirmed[u]
  }

  lemma CrdsCarry(p: Params, s: State, s': State, c: string)
    requires RunsOk(p, s) && CrdsOk(s) && StoreOk(p, s'.store) && LogOk(p, s') && Grows(s, s') && s'.runs == s.runs
    requires s'.log.confirmed == s.log.confirmed
    requires c in s'.crds ==> CrdOk(s', s'.crds[c])
    requires forall j :: j in s'.crds && j != c ==> j in s.crds && s'.crds[j] == s.crds[j]
    ensures Inv(p, s')
  {
    hide StoreOk, LogOk, Grows, RunOk, CrdOk;
    forall j | j in s'.runs ensures RunOk(p, s', j, s'.runs[j]) { RunStable(p, s, s', j, s.runs[j]); }
    forall j | j in s'.crds ensures CrdOk(s', s'.crds[j]) {
      if j != c { CrdStable(s, s', s.crds[j]); }
    }
  }

  // ---- The next phase, in a state that already contains the effect of the request ----

  lemma RouteKey(p: Params, r: Route)
    requires RouteShape(p, r) && r.readiness.IsReady?
    ensures AddressKey(r.address) == Some(HostKey(r.name))
  {
    KeyMatchesAddress(r.name, ROUTE_NAMESPACE, p.domain);
    assert '.' !in ROUTE_NAMESPACE;
  }

  lemma RouteFacts(p: Params, s: State, k: FnKey, f: Function, r: Route)
    requires RoutesOk(p, s.store) && f.uid in s.log.home && s.log.home[f.uid] == k
    requires r in s.store.oldRoutes && r.name == RouteName(p, k) && r.owner == f.uid && r.readiness.IsReady?
    ensures RouteOk(p, s, k, f, r)
  {
    RouteKey(p, r);
  }

  lemma AfterRouteOk(p: Params, s: State, k: FnKey, f: Function, st: Status, x: Service, r: Route)
    requires RoutesOk(p, s.store)
    requires FnOk(s, k, f) && Sound(s.log, f.uid, st) && SvcOk(s, x)
    requires r in s.store.oldRoutes && r.name == RouteName(p, k) && r.owner == f.uid
    ensures RunOk(p, s, k, AfterRoute(f, st, x, r))
  {
    if r.readiness.IsReady? { RouteFacts(p, s, k, f, r); }
    hide FnOk, SvcOk, RouteOk, RoutesOk;
  }

  lemma PublishedOk(p: Params, s: State, k: FnKey, f: Function, st: Status, r: Route)
    requires FnOk(s, k, f) && Sound(s.log, f.uid, st)
    requires f.uid in s.log.confirmed && s.log.confirmed[f.uid] == f.generation
    ensures RunOk(p, s, k, Published(p, f, st, r))
  {
    hide FnOk;
    var url := Url("http", RouteHost(r.name, ROUTE_NAMESPACE, p.domain));
    var marked := SetAddress(MarkTrue(st, ServiceReady), Some(url));
    var final := PublishedStatus(p, f, st, r);
    assert final == marked.(url := r.url, observedGeneration := f.generation);
    assert Coherent(marked);
    assert Coherent(final);
  }

  lemma AfterConfigOk(p: Params, s: State, k: FnKey, f: Function, st: Status, x: Service, r: Route, v: Version)
    requires FnOk(s, k, f) && Sound(s.log, f.uid, st) && SvcOk(s, x) && RouteOk(p, s, k, f, r)
    requires f.uid in s.log.confirmed && s.log.confirmed[f.uid] == f.generation
    requires v in s.store.oldConfigs && Annotation(x.spec).value <= v
    ensures RunOk(p, s, k, AfterConfig(p, f, st, x, r, v))
  {
    hide FnOk, RouteOk;
    PublishedOk(p, s, k, f, MarkTrue(st, ConfigMapSynced), r);
  }

  lemma ConcludeOk(p: Params, s: State, k: FnKey, f: Function, st: Status, err: Option<string>)
    requires FnOk(s, k, f) && Sound(s.log, f.uid, st)
    ensures RunOk(p, s, k, Conclude(f, st, err))
  {
    hide FnOk, Sound;
  }

  /** Remarks about the Route, the Service or the ConfigMap keep a status sound. */
  lemma MarkFalseSound(log: Log, uid: Uid, st: Status, t: ConditionType, reason: string, message: string)
    requires Sound(log, uid, st) && t != Ready
    ensures Sound(log, uid, MarkFalse(st, t, reason, message))
  {
    hide Coherent, MarkFalse;
  }

  lemma FetchedOk(p: Params, s: State, k: FnKey, reply: Reply)
    requires StoreOk(p, s.store) && FunctionsOk(s)
    requires reply.GotFunction? ==> k in s.store.fns && reply.function_ == s.store.fns[k]
    ensures RunOk(p, s, k, Advance(p, k, Fetching, reply))
  {
    if reply.GotFunction? {
      assert Known(s.log, k, s.store.fns[k]);
      hide Coherent, InitializeConditions;
      var st := InitializeConditions(reply.function_.status);
      assert Sound(s.log, reply.function_.uid, st);
    }
  }

  lemma CheckedOk(p: Params, s: State, k: FnKey, f: Function, st: Status, reply: Reply)
    requires StoreOk(p, s.store) && FnOk(s, k, f) && Sound(s.log, f.uid, st)
    requires reply.GotService? ==> HeldService(s.store, reply.service)
    ensures RunOk(p, s, k, Advance(p, k, CheckingService(f, st), reply))
  {
    hide FnOk, Sound, MarkFalse, Conclude;
    if reply.GotService? {
      match reply.service.readiness {
        case IsReady =>
        case NoCondition =>
          MarkFalseSound(s.log, f.uid, st, ServiceReady, "Unknown", "");
          ConcludeOk(p, s, k, f, MarkFalse(st, ServiceReady, "Unknown", ""), Some("service is not ready"));
        case NotReady(r, m) =>
          MarkFalseSound(s.log, f.uid, st, ServiceReady, r, m);
          ConcludeOk(p, s, k, f, MarkFalse(st, ServiceReady, r, m), Some("service is not ready"));
      }
    } else {
      MarkFalseSound(s.log, f.uid, st, ServiceReady, "CheckExistFailed", ErrorText(reply));
      ConcludeOk(p, s, k, f, MarkFalse(st, ServiceReady, "CheckExistFailed", ErrorText(reply)), Some(ErrorText(reply)));
    }
  }

  lemma RouteFailedOk(p: Params, s: State, k: FnKey, f: Function, st: Status, message: string)
    requires FnOk(s, k, f) && Sound(s.log, f.uid, st)
    ensures RunOk(p, s, k, RouteFailed(f, st, message))
  {
    hide FnOk, Sound, MarkFalse, Conclude;
    MarkFalseSound(s.log, f.uid, st, RouteReady, "ReconcileFailed", message);
    ConcludeOk(p, s, k, f, MarkFalse(st, RouteReady, "ReconcileFailed", message), Some(message));
  }

  lemma RoutedOk(p: Params, s: State, k: FnKey, ph: Phase, reply: Reply)
    requires StoreOk(p, s.store) && RunOk(p, s, k, ph)
    requires ph.FindingRoute? || ph.CreatingRoute?
    requires reply.GotRoute? ==> reply.route in s.store.oldRoutes && reply.route.name == RouteName(p, k)
    requires ph.CreatingRoute? && reply.GotRoute? ==> reply.route.owner == ph.fn.uid
    ensures RunOk(p, s, k, Advance(p, k, ph, reply))
  {
    hide FnOk, Sound, SvcOk, RouteFailed, AfterRoute, RoutesOk;
    RouteFailedOk(p, s, k, ph.fn, ph.st, ErrorText(reply));
    RouteFailedOk(p, s, k, ph.fn, ph.st, "Function does not own Route");
    if reply.GotRoute? && reply.route.owner == ph.fn.uid { AfterRouteOk(p, s, k, ph.fn, ph.st, ph.svc, reply.route); }
  }

  lemma ConfigFailedOk(p: Params, s: State, k: FnKey, f: Function, st: Status, message: string)
    requires FnOk(s, k, f) && Sound(s.log, f.uid, st)
    ensures RunOk(p, s, k, ConfigFailed(f, st, message))
  {
    hide FnOk, Sound, MarkFalse, Conclude;
    MarkFalseSound(s.log, f.uid, st, ConfigMapSynced, "UpdateFailed", message);
    ConcludeOk(p, s, k, f, MarkFalse(st, ConfigMapSynced, "UpdateFailed", message), Some(message));
  }

  lemma ServiceWrittenOk(p: Params, s: State, k: FnKey, ph: Phase, reply: Reply)
    requires RunOk(p, s, k, ph) && ph.WritingService?
    ensures RunOk(p, s, k, Advance(p, k, ph, reply))
  {
    hide FnOk, Sound, SvcOk, RouteOk, MarkFalse, Conclude, Published;
    MarkFalseSound(s.log, ph.fn.uid, ph.st, ServiceReady, "UpdateFailed", ErrorText(reply));
    ConcludeOk(p, s, k, ph.fn, MarkFalse(ph.st, ServiceReady, "UpdateFailed", ErrorText(reply)), Some(ErrorText(reply)));
    PublishedOk(p, s, k, ph.fn, ph.st, ph.route);
  }

  /** Every phase but the two around the configuration: the next one is in order too. */
  lemma NextPhaseOk(p: Params, s: State, k: FnKey, ph: Phase, applied: bool, reply: Reply)
    requires StoreOk(p, s.store) && FunctionsOk(s) && RunOk(p, s, k, ph) && Active(ph)
    requires ReplyAllowed(s.store, RequestOf(p, k, ph), applied, reply)
    requires ph.CreatingRoute? && applied ==> RequestOf(p, k, ph).route in s.store.oldRoutes
    requires !ph.WritingConfig? && (ph.GettingConfig? ==> !reply.GotConfig?)
    ensures RunOk(p, s, k, Advance(p, k, ph, reply))
  {
    hide StoreOk, FunctionsOk, FnOk, Sound, SvcOk, RouteOk, Conclude, AfterService, AfterRoute, RouteFailed, ConfigFailed, Published;
    match ph {
      case Fetching => FetchedOk(p, s, k, reply);
      case CheckingService(f, st) => CheckedOk(p, s, k, f, st, reply);
      case FindingRoute(f, st, x) => RoutedOk(p, s, k, ph, reply);
      case CreatingRoute(f, st, x) => RoutedOk(p, s, k, ph, reply);
      case GettingConfig(f, st, x, r) => ConfigFailedOk(p, s, k, f, st, ErrorText(reply));
      case WritingService(f, st, x, r, v) => ServiceWrittenOk(p, s, k, ph, reply);
      case WritingStatus(f, st, err) =>
    }
  }

  // ---- The reconcile of one Function: everything but the configuration ----

  /** A Route is created under the name of the Function's own key. */
  lemma CreateRouteOk(p: Params, s: State, s': State, k: FnKey, f: Function)
    requires StoreOk(p, s.store) && LogOk(p, s) && FnOk(s, k, f)
    requires s'.store == PutRoute(s.store, MakeRoute(p, k, f.uid)) && s'.log == s.log
    requires RouteName(p, k) !in s.store.routes
    ensures StoreOk(p, s'.store) && LogOk(p, s') && Grows(s, s')
  {
    PutRouteOk(p, s.store, MakeRoute(p, k, f.uid));
    assert OwnersOk(p, s');
    hide *;
    SameLog(s.log);
    NewRouteOk(p, s, s', MakeRoute(p, k, f.uid));
  }

  lemma AnnotateOk(p: Params, s: State, s': State, x: Service, v: Version)
    requires StoreOk(p, s.store) && LogOk(p, s) && s.store.svc == Some(x) && ServiceShape(s.store, x.spec)
    requires v in s.store.oldConfigs
    requires s'.store == PutService(s.store, Annotate(x, v).spec, x.readiness) && s'.log == s.log
    ensures StoreOk(p, s'.store) && LogOk(p, s') && Grows(s, s')
  {
    PutServiceOk(p, s.store, Annotate(x, v).spec, x.readiness);
    assert ImageOk(s');
    hide StoreOk, StoreGrows, LogOk, Grows, ImageOk;
    QuietOk(p, s, s');
  }

  lemma WriteStatusOk(p: Params, s: State, s': State, k: FnKey, f: Function, st: Status)
    requires StoreOk(p, s.store) && LogOk(p, s) && FnOk(s, k, f) && Sound(s.log, f.uid, st)
    requires k in s.store.fns && s.store.fns[k] == f
    requires s'.store == PutFunction(s.store, k, f.(status := st)) && s'.log == s.log
    ensures StoreOk(p, s'.store) && LogOk(p, s') && Grows(s, s')
  {
    Parts(p, s);
    hide StoreOk, LogOk, ConfirmedOk, CommitsOk, ImageOk, Sound;
    assert Known(s'.log, k, f.(status := st)) by { hide FunctionsOk, OwnersOk; }
    hide FnOk, Known;
    assert SpecsOk(s'.store, s'.log) by { hide OwnersOk; }
    hide FunctionsOk, SpecsOk;
    assert OwnersOk(p, s');
    hide OwnersOk;
    SameLog(s.log);
    NewFunctionStored(p, s, s', k, f.(status := st));
  }

  /** The store and the log after any request of a Function's reconcile but a configuration write. */
  lemma ServeEffect(p: Params, s: State, k: FnKey, applied: bool, reply: Reply)
    requires StoreOk(p, s.store) && LogOk(p, s) && Enabled(p, s, Serve(k, applied, reply)) && RunOk(p, s, k, s.runs[k])
    requires !s.runs[k].WritingConfig? && (s.runs[k].GettingConfig? ==> !reply.GotConfig?)
    ensures var s' := ServeStep(p, s, k, applied, reply);
            s'.log == s.log && StoreOk(p, s'.store) && LogOk(p, s') && Grows(s, s')
  {
    hide StoreOk, LogOk, Grows, FnOk, Sound, RouteOk, Advance, ReplyAllowed;
    var s' := ServeStep(p, s, k, applied, reply);
    var ph := s.runs[k];
    if applied && ph.CreatingRoute? {
      CreateRouteOk(p, s, s', k, ph.fn);
    } else if applied && ph.WritingService? {
      CurrentService(p, s.store, ph.svc);
      AnnotateOk(p, s, s', ph.svc, ph.cmVersion);
    } else if applied && ph.WritingStatus? {
      CurrentFunction(s, k, ph.fn);
      WriteStatusOk(p, s, s', k, ph.fn, ph.st);
    } else {
      SameOk(p, s, s');
    }
  }

  lemma CurrentFunction(s: State, k: FnKey, f: Function)
    requires FnOk(s, k, f) && k in s.store.fns && s.store.fns[k].version == f.version
    ensures s.store.fns[k] == f
  {
    hide Known;
  }

  lemma CurrentService(p: Params, st: Store, x: Service)
    requires StoreOk(p, st) && HeldService(st, x) && st.svc.Some? && st.svc.value.version == x.version
    ensures st.svc == Some(x)
  {
  }

  lemma PlainServeKeeps(p: Params, s: State, k: FnKey, applied: bool, reply: Reply)
    requires Inv(p, s) && Enabled(p, s, Serve(k, applied, reply))
    requires !s.runs[k].WritingConfig? && (s.runs[k].GettingConfig? ==> !reply.GotConfig?)
    ensures Inv(p, ServeStep(p, s, k, applied, reply)) && Grows(s, ServeStep(p, s, k, applied, reply))
  {
    hide Inv, StoreOk, LogOk, Grows, RunOk, Advance, Record, Apply, CanApply, CrdsOk;
    Unfold(p, s);
    var s' := ServeStep(p, s, k, applied, reply);
    ServeEffect(p, s, k, applied, reply);
    RunStable(p, s, s', k, s.runs[k]);
    Parts(p, s');
    CreatedRouteKept(p, s, k, applied, reply);
    NextPhaseOk(p, s', k, s.runs[k], applied, reply);
    RunsCarry(p, s, s', k);
  }

  lemma CreatedRouteKept(p: Params, s: State, k: FnKey, applied: bool, reply: Reply)
    requires Enabled(p, s, Serve(k, applied, reply))
    ensures s.runs[k].CreatingRoute? && applied ==>
              RequestOf(p, k, s.runs[k]).route in ServeStep(p, s, k, applied, reply).store.oldRoutes
  {
  }

  // ---- The reconcile of one Function: the configuration ----

  /** What a merge does to a well-formed ConfigMap for a ready Route of one Function. */
  lemma MergeFacts(skipEqual: bool, cm: ConfigMap, spec: Json, address: RouteAddress)
    requires ConfigShape(cm) && AddressKey(address).Some?
    ensures var key, m := AddressKey(address).value, Merge(skipEqual, cm, spec, address);
            if m.Keep? then skipEqual && key in Entries(cm) && Entries(cm)[key] == spec
            else m.Rewrite? && ConfigShape(m.cm) && m.cm.version == cm.version && Entries(m.cm) == Entries(cm)[key := spec]
  {
  }

  /** Confirming the generation that a reconcile read moves only its own Function's confirmation, upwards. */
  lemma ConfirmGrows(s: State, s': State, k: FnKey, f: Function)
    requires FunctionsOk(s) && FnOk(s, k, f) && StoreGrows(s.store, s'.store) && s'.store.fns == s.store.fns
    requires s.log.commits <= s'.log.commits
    requires s'.log == s.log.(commits := s'.log.commits, confirmed := s.log.confirmed[f.uid := f.generation])
    ensures Grows(s, s') && FunctionsOk(s') && FnOk(s', k, f) && OthersUnmoved(s, s', k)
  {
    FnsSameGrows(s, s') by {
      assert LogGrows(s.log, s'.log);
    }
    hide StoreGrows, Grows;
    forall j | j in s'.store.fns ensures Known(s'.log, j, s'.store.fns[j]) {
      assert Known(s.log, j, s.store.fns[j]);
    }
  }

  /** What holds of a reconcile of `k` while it deals with the configuration. */
  ghost predicate Configuring(p: Params, s: State, k: FnKey, f: Function, st: Status, x: Service, r: Route) {
    FnOk(s, k, f) && Sound(s.log, f.uid, st) && SvcOk(s, x) && RouteOk(p, s, k, f, r)
  }

  lemma ConfiguringStable(p: Params, s: State, s': State, k: FnKey, f: Function, st: Status, x: Service, r: Route)
    requires Configuring(p, s, k, f, st, x, r) && Grows(s, s') && FnOk(s', k, f)
    requires f.uid in s'.log.confirmed && s'.log.confirmed[f.uid] == f.generation
    requires f.uid in s.log.confirmed ==> s.log.confirmed[f.uid] <= f.generation
    ensures Configuring(p, s', k, f, st, x, r)
  {
    hide FnOk;
  }

  lemma AnnotationBehind(p: Params, s: State, x: Service)
    requires StoreOk(p, s.store) && SvcOk(s, x) && s.store.cm.Some?
    ensures Annotation(x.spec).value <= s.store.cm.value.version
    ensures Held(s.store, s.store.cm.value) && ConfigShape(s.store.cm.value)
  {
  }

  /** After a commit: every key still holds what its own Function confirmed last. */
  lemma CommitConfirms(p: Params, s: State, s': State, k: FnKey, f: Function)
    requires ConfirmedOk(p, s) && OwnersOk(p, s) && s.store.cm.Some? && ConfigShape(s.store.cm.value)
    requires s'.store.cm.Some? && ConfigShape(s'.store.cm.value)
    requires var key := HostKey(RouteName(p, k));
             && key in Entries(s'.store.cm.value) && Entries(s'.store.cm.value)[key] == f.spec
             && forall j :: j != key && j in Entries(s.store.cm.value) ==>
                  j in Entries(s'.store.cm.value) && Entries(s'.store.cm.value)[j] == Entries(s.store.cm.value)[j]
    requires FnOk(s, k, f) && Controls(p, s, f.uid) && s'.store.routes == s.store.routes
    requires s'.log.home == s.log.home && s'.log.specs == s.log.specs
    requires s'.log.confirmed == s.log.confirmed[f.uid := f.generation]
    ensures ConfirmedOk(p, s')
  {
    forall u | u in s'.log.confirmed ensures Confirmed(p, s', u) {
      if u != f.uid {
        assert Confirmed(p, s, u);
        HostKeysDistinct(RouteName(p, s.log.home[u]), RouteName(p, k));
      }
    }
  }

  lemma HostKeysDistinct(n: string, n': string)
    ensures HostKey(n) == HostKey(n') ==> n == n'
  {
    assert n == HostKey(n)[..|HostKey(n)| - |ROUTE_NAMESPACE| - 1];
    assert n' == HostKey(n')[..|HostKey(n')| - |ROUTE_NAMESPACE| - 1];
  }

  lemma CommitAppends(p: Params, s: State, s': State, k: FnKey, f: Function)
    requires CommitsOk(p, s) && s.store.cm.Some? && ConfigShape(s.store.cm.value)
    requires s'.store.cm.Some? && ConfigShape(s'.store.cm.value)
    requires Entries(s'.store.cm.value) == Entries(s.store.cm.value)[HostKey(RouteName(p, k)) := f.spec]
    requires f.uid in s.log.home && s.log.home[f.uid] == k && Controls(p, s, f.uid)
    requires s'.store.routes == s.store.routes && s'.log.home == s.log.home
    requires s'.log.commits == s.log.commits + [Commit(f.uid, HostKey(RouteName(p, k)), f.spec)]
    ensures CommitsOk(p, s')
  {
    var commits := s'.log.commits;
    assert commits[..|commits| - 1] == s.log.commits;
    forall i | 0 <= i < |commits|
      ensures Controls(p, s', commits[i].writer) && commits[i].key == KeyOf(p, s'.log, commits[i].writer)
    {
      if i < |s.log.commits| { assert Controls(p, s, s.log.commits[i].writer); }
    }
  }

  /** A value found in place confirms the generation that was read. */
  lemma FoundInPlaceOk(p: Params, s: State, s': State, k: FnKey, f: Function, st: Status, x: Service, r: Route)
    requires StoreOk(p, s.store) && LogOk(p, s) && Configuring(p, s, k, f, st, x, r) && s.store.cm.Some?
    requires s'.store == s.store && s'.log == s.log.(confirmed := s.log.confirmed[f.uid := f.generation])
    requires Merge(p.skipEqual, s.store.cm.value, f.spec, r.address) == Keep
    ensures LogOk(p, s') && Grows(s, s') && OthersUnmoved(s, s', k)
    ensures RunOk(p, s', k, AfterConfig(p, f, st, x, r, s.store.cm.value.version))
  {
    hide StoreOk, LogOk, FnOk, Sound, SvcOk, FunctionsOk, ConfirmedOk, Grows, OthersUnmoved, AfterConfig, RunOk;
    AnnotationBehind(p, s, x);
    Parts(p, s);
    MergeFacts(p.skipEqual, s.store.cm.value, f.spec, r.address);
    hide Merge;
    SameStore(s.store);
    hide StoreGrows;
    assert OwnersOk(p, s') && ImageOk(s') by { hide CommitsOk; }
    hide OwnersOk, CommitsOk, ImageOk;
    ConfirmGrows(s, s', k, f);
    assert LogGrows(s.log, s'.log) by { hide *; GrowsParts(s, s'); }
    CommitsCarry(p, s, s');
    CommitConfirms(p, s, s', k, f);
    ConfiguringStable(p, s, s', k, f, st, x, r) by { Bounded(s, k, f); }
    AfterConfigOk(p, s', k, f, st, x, r, s.store.cm.value.version);
    LogFromParts(p, s');
  }

  lemma LogFromParts(p: Params, s: State)
    requires FunctionsOk(s) && OwnersOk(p, s) && ConfirmedOk(p, s) && CommitsOk(p, s) && ImageOk(s)
    ensures LogOk(p, s)
  {
  }

  lemma GrowsParts(s: State, s': State)
    requires Grows(s, s')
    ensures StoreGrows(s.store, s'.store) && LogGrows(s.log, s'.log)
  {
  }

  lemma SameStore(st: Store)
    ensures StoreGrows(st, st)
  {
  }

  lemma RunPart(p: Params, s: State, k: FnKey)
    requires RunsOk(p, s) && k in s.runs
    ensures RunOk(p, s, k, s.runs[k])
  {
    hide RunOk;
  }

  lemma ConfigPhase(p: Params, s: State, k: FnKey, ph: Phase)
    requires RunOk(p, s, k, ph)
    ensures ph.GettingConfig? || ph.WritingConfig? ==> Configuring(p, s, k, ph.fn, ph.st, ph.svc, ph.route)
    ensures ph.WritingConfig? ==>
              && Held(s.store, ph.base) && ConfigShape(ph.base)
              && Merge(p.skipEqual, ph.base, ph.fn.spec, ph.route.address) == Rewrite(ph.merged)
  {
    hide FnOk, Sound, SvcOk, RouteOk, Merge;
  }

  /** A configuration read without a hit: the write is prepared on the object just read. */
  lemma PreparedOk(p: Params, s: State, k: FnKey, f: Function, st: Status, x: Service, r: Route, cm: ConfigMap, merged: ConfigMap)
    requires StoreOk(p, s.store) && Configuring(p, s, k, f, st, x, r) && s.store.cm == Some(cm)
    requires Merge(p.skipEqual, cm, f.spec, r.address) == Rewrite(merged)
    ensures RunOk(p, s, k, WritingConfig(f, st, x, r, cm, merged))
  {
    hide FnOk, Sound, RouteOk, Merge;
    AnnotationBehind(p, s, x);
  }

  lemma GetConfigShape(p: Params, s: State, k: FnKey, applied: bool, reply: Reply)
    requires Enabled(p, s, Serve(k, applied, reply)) && s.runs[k].GettingConfig? && reply.GotConfig?
    requires AddressKey(s.runs[k].route.address).Some?
    ensures var s' := ServeStep(p, s, k, applied, reply);
            var ph, f := s.runs[k], s.runs[k].fn;
            var m := Merge(p.skipEqual, reply.cm, f.spec, ph.route.address);
            && s'.store == s.store && s.store.cm == Some(reply.cm) && k in s'.runs
            && (m.Rewrite? ==> s'.log == s.log && s'.runs[k] == WritingConfig(f, ph.st, ph.svc, ph.route, reply.cm, m.cm))
            && (m.Keep? ==>
                  && s'.log == s.log.(confirmed := s.log.confirmed[f.uid := f.generation])
                  && s'.runs[k] == AfterConfig(p, f, ph.st, ph.svc, ph.route, reply.cm.version))
  {
    hide Merge, AfterConfig, AddressKey;
  }

  lemma GetConfigKeeps(p: Params, s: State, k: FnKey, applied: bool, reply: Reply)
    requires Inv(p, s) && Enabled(p, s, Serve(k, applied, reply)) && s.runs[k].GettingConfig? && reply.GotConfig?
    ensures Inv(p, ServeStep(p, s, k, applied, reply)) && Grows(s, ServeStep(p, s, k, applied, reply))
  {
    Unfold(p, s);
    ServeRuns(p, s, k, applied, reply);
    hide Inv, StoreOk, LogOk, RunsOk, CrdsOk, Grows, FnOk, Sound, SvcOk, Merge, AfterConfig, OthersUnmoved, RunOk, ServeStep, Enabled;
    RunPart(p, s, k);
    ConfigPhase(p, s, k, s.runs[k]);
    var s' := ServeStep(p, s, k, applied, reply);
    var GettingConfig(f, st, x, r) := s.runs[k];
    GetConfigShape(p, s, k, applied, reply);
    AnnotationBehind(p, s, x);
    MergeFacts(p.skipEqual, reply.cm, f.spec, r.address);
    if Merge(p.skipEqual, reply.cm, f.spec, r.address).Rewrite? {
      SameOk(p, s, s');
      SameUnmoved(s, s', k);
      PreparedOk(p, s, k, f, st, x, r, reply.cm, Merge(p.skipEqual, reply.cm, f.spec, r.address).cm);
      SameRunOk(p, s, s', k, s'.runs[k]);
    } else {
      FoundInPlaceOk(p, s, s', k, f, st, x, r);
    }
    RunsCarry(p, s, s', k);
  }

  lemma SameUnmoved(s: State, s': State, k: FnKey)
    requires s'.log.confirmed == s.log.confirmed
    ensures OthersUnmoved(s, s', k)
  {
  }

  lemma SameRunOk(p: Params, s: State, s': State, k: FnKey, ph: Phase)
    requires RunOk(p, s, k, ph) && Grows(s, s') && s'.log == s.log
    ensures RunOk(p, s', k, ph)
  {
    hide RunOk, Grows;
    RunStable(p, s, s', k, ph);
  }

  lemma ServeRuns(p: Params, s: State, k: FnKey, applied: bool, reply: Reply)
    requires Enabled(p, s, Serve(k, applied, reply))
    ensures var s' := ServeStep(p, s, k, applied, reply);
            && s'.crds == s.crds && k in s.runs && k in s'.runs
            && forall j :: j in s'.runs && j != k ==> j in s.runs && s'.runs[j] == s.runs[j]
  {
    hide Apply, Advance, Record, ReplyAllowed, CanApply, RequestOf;
  }

  /** A configuration write that took effect: the read object was still the stored one, so the new content
      is the current content with the Function's own key changed. */
  lemma CommitOk(p: Params, s: State, s': State, k: FnKey, f: Function, st: Status, x: Service, r: Route, base: ConfigMap, merged: ConfigMap)
    requires StoreOk(p, s.store) && LogOk(p, s) && Configuring(p, s, k, f, st, x, r)
    requires s.store.cm == Some(base) && ConfigShape(base) && ConfigShape(merged)
    requires Merge(p.skipEqual, base, f.spec, r.address) == Rewrite(merged)
    requires s'.store == PutConfig(s.store, merged.data)
    requires s'.log == s.log.(commits := s.log.commits + [Commit(f.uid, HostKey(RouteName(p, k)), f.spec)],
                              confirmed := s.log.confirmed[f.uid := f.generation])
    ensures StoreOk(p, s'.store) && LogOk(p, s') && Grows(s, s') && OthersUnmoved(s, s', k)
    ensures Configuring(p, s', k, f, st, x, r)
    ensures s'.store.cm.Some? && Held(s'.store, s'.store.cm.value) && Annotation(x.spec).value <= s'.store.cm.value.version
  {
    hide FnOk, Sound, SvcOk, StoreOk, StoreGrows, LogOk, Grows, OthersUnmoved;
    MergeFacts(p.skipEqual, base, f.spec, r.address);
    hide Merge;
    PutConfigOk(p, s.store, merged.data);
    ConfirmGrows(s, s', k, f) by { Parts(p, s); }
    CommitLogOk(p, s, s', k, f);
    ConfiguringStable(p, s, s', k, f, st, x, r) by { Bounded(s, k, f); }
    AnnotationBehind(p, s', x);
  }

  lemma Bounded(s: State, k: FnKey, f: Function)
    requires FnOk(s, k, f)
    ensures f.uid in s.log.home && s.log.home[f.uid] == k
    ensures f.uid in s.log.confirmed ==> s.log.confirmed[f.uid] <= f.generation
  {
  }

  lemma CommitLogOk(p: Params, s: State, s': State, k: FnKey, f: Function)
    requires LogOk(p, s) && FunctionsOk(s') && FnOk(s, k, f) && Controls(p, s, f.uid)
    requires s.store.cm.Some? && ConfigShape(s.store.cm.value)
    requires s'.store.cm.Some? && ConfigShape(s'.store.cm.value)
    requires Entries(s'.store.cm.value) == Entries(s.store.cm.value)[HostKey(RouteName(p, k)) := f.spec]
    requires s'.store == s.store.(rev := s'.store.rev, cm := s'.store.cm, oldConfigs := s'.store.oldConfigs)
    requires s'.log == s.log.(commits := s.log.commits + [Commit(f.uid, HostKey(RouteName(p, k)), f.spec)],
                              confirmed := s.log.confirmed[f.uid := f.generation])
    ensures LogOk(p, s')
  {
    assert OwnersOk(p, s') && ImageOk(s') by {
      hide FunctionsOk, FnOk, ConfirmedOk, CommitsOk;
    }
    hide FnOk, OwnersOk, ImageOk, FunctionsOk, ConfirmedOk, CommitsOk;
    Bounded(s, k, f);
    CommitConfirms(p, s, s', k, f);
    CommitAppends(p, s, s', k, f);
  }

  lemma UpdateConfigShape(p: Params, s: State, k: FnKey, applied: bool, reply: Reply)
    requires Enabled(p, s, Serve(k, applied, reply)) && s.runs[k].WritingConfig?
    requires AddressKey(s.runs[k].route.address).Some?
    ensures var s' := ServeStep(p, s, k, applied, reply);
            var ph, f := s.runs[k], s.runs[k].fn;
            && k in s'.runs
            && (if applied then
                  && s.store.cm.Some? && s.store.cm.value.version == ph.merged.version
                  && s'.store == PutConfig(s.store, ph.merged.data)
                  && s'.log == s.log.(commits := s.log.commits + [Commit(f.uid, AddressKey(ph.route.address).value, f.spec)],
                                      confirmed := s.log.confirmed[f.uid := f.generation])
                else s'.store == s.store && s'.log == s.log)
            && (reply.GotConfig? ==> applied && s'.store.cm == Some(reply.cm))
            && s'.runs[k] == if reply.GotConfig? then AfterConfig(p, f, ph.st, ph.svc, ph.route, reply.cm.version)
                             else ConfigFailed(f, ph.st, ErrorText(reply))
  {
    hide PutConfig, AfterConfig, ConfigFailed, AddressKey;
  }

  lemma UpdateConfigKeeps(p: Params, s: State, k: FnKey, applied: bool, reply: Reply)
    requires Inv(p, s) && Enabled(p, s, Serve(k, applied, reply)) && s.runs[k].WritingConfig?
    ensures Inv(p, ServeStep(p, s, k, applied, reply)) && Grows(s, ServeStep(p, s, k, applied, reply))
  {
    Unfold(p, s);
    ServeRuns(p, s, k, applied, reply);
    hide Inv, StoreOk, LogOk, RunsOk, CrdsOk, Grows, FnOk, Sound, SvcOk, Merge, AfterConfig, OthersUnmoved, ConfigFailed,
         RunOk, ServeStep, Enabled, PutConfig;
    RunPart(p, s, k);
    ConfigPhase(p, s, k, s.runs[k]);
    var s' := ServeStep(p, s, k, applied, reply);
    var WritingConfig(f, st, x, r, base, merged) := s.runs[k];
    UpdateConfigShape(p, s, k, applied, reply);
    if !applied {
      SameOk(p, s, s');
      SameUnmoved(s, s', k);
      SameRunOk(p, s, s', k, s.runs[k]);
      ConfigPhase(p, s', k, s.runs[k]);
    } else {
      MergeFacts(p.skipEqual, base, f.spec, r.address);
      CurrentConfig(p, s.store, base);
      CommitOk(p, s, s', k, f, st, x, r, base, merged);
      if reply.GotConfig? { AfterConfigOk(p, s', k, f, st, x, r, reply.cm.version); }
    }
    ConfigFailedOk(p, s', k, f, st, ErrorText(reply));
    RunsCarry(p, s, s', k);
  }

  lemma CurrentConfig(p: Params, st: Store, cm: ConfigMap)
    requires StoreOk(p, st) && Held(st, cm) && st.cm.Some? && st.cm.value.version == cm.version
    ensures st.cm == Some(cm)
  {
  }

  lemma ServeKeeps(p: Params, s: State, k: FnKey, applied: bool, reply: Reply)
    requires Inv(p, s) && Enabled(p, s, Serve(k, applied, reply))
    ensures Inv(p, ServeStep(p, s, k, applied, reply)) && Grows(s, ServeStep(p, s, k, applied, reply))
  {
    hide Inv, Grows, Enabled, ServeStep;
    assert k in s.runs by { ServeRuns(p, s, k, applied, reply); }
    if s.runs[k].WritingConfig? {
      UpdateConfigKeeps(p, s, k, applied, reply);
    } else if s.runs[k].GettingConfig? && reply.GotConfig? {
      GetConfigKeeps(p, s, k, applied, reply);
    } else {
      PlainServeKeeps(p, s, k, applied, reply);
    }
  }

  // ---- The reconcile of one CRD ----

  lemma ConfirmedNeedsConfig(p: Params, s: State)
    requires ConfirmedOk(p, s)
    ensures s.log.confirmed != map[] ==> s.store.cm.Some?
  {
    if s.log.confirmed != map[] {
      var u :| u in s.log.confirmed;
      assert Confirmed(p, s, u);
    }
  }

  lemma FirstConfigOk(p: Params, s: State, s': State)
    requires StoreOk(p, s.store) && LogOk(p, s) && s.store.cm.None?
    requires s'.store == PutConfig(s.store, MakeConfigMap().data) && s'.log == s.log
    ensures StoreOk(p, s'.store) && LogOk(p, s') && Grows(s, s')
  {
    PutConfigOk(p, s.store, MakeConfigMap().data);
    Parts(p, s);
    assert OwnersOk(p, s') && ImageOk(s') by { hide FunctionsOk, ConfirmedOk, CommitsOk; }
    assert CommitsOk(p, s') by { hide FunctionsOk, ConfirmedOk, OwnersOk, ImageOk; }
    ConfirmedNeedsConfig(p, s);
    assert ConfirmedOk(p, s') by { hide FunctionsOk, CommitsOk, OwnersOk, ImageOk; }
    hide StoreOk, StoreGrows, OwnersOk, ImageOk, CommitsOk, ConfirmedOk, Known, FnGrows;
    SameLog(s.log);
    FnsSameKnown(s, s');
    FnsSameGrows(s, s');
  }

  lemma CrdServiceOk(p: Params, s: State, s': State, v: Version, image: string, readiness: Readiness)
    requires StoreOk(p, s.store) && LogOk(p, s) && v in s.store.oldConfigs
    requires s'.store == PutService(s.store, MakeServiceSpec(p.functionName, v, image), readiness)
    requires s'.log == s.log.(image := Some(image), crdWrites := s.log.crdWrites + 1)
    ensures StoreOk(p, s'.store) && LogOk(p, s') && Grows(s, s')
  {
    PutServiceOk(p, s.store, MakeServiceSpec(p.functionName, v, image), readiness);
    hide StoreOk, StoreGrows, LogOk;
    CrdLogOk(p, s, s');
  }

  lemma CrdLogOk(p: Params, s: State, s': State)
    requires LogOk(p, s) && StoreGrows(s.store, s'.store)
    requires s'.store.cm == s.store.cm && s'.store.routes == s.store.routes && s'.store.fns == s.store.fns
    requires s'.log == s.log.(image := s'.log.image, crdWrites := s'.log.crdWrites) && s.log.crdWrites <= s'.log.crdWrites
    requires ImageOk(s')
    ensures LogOk(p, s') && Grows(s, s')
  {
    Parts(p, s);
    hide LogOk, FunctionsOk, ConfirmedOk, CommitsOk, ImageOk, Grows, StoreGrows;
    assert OwnersOk(p, s');
    hide OwnersOk;
    assert LogGrows(s.log, s'.log);
    hide LogGrows;
    FnsSameKnown(s, s');
    FnsSameGrows(s, s');
    LogCarries(p, s, s');
  }

  lemma CrdServeShape(p: Params, s: State, c: string, applied: bool, reply: Reply)
    requires Enabled(p, s, CrdServe(c, applied, reply))
    ensures var s' := CrdServeStep(p, s, c, applied, reply);
            var ph := s.crds[c];
            && s'.runs == s.runs
            && (if applied && ph.CrdCreatingConfig? then
                  s.store.cm.None? && s'.store == PutConfig(s.store, MakeConfigMap().data) && s'.log == s.log
                else if applied && (ph.CrdCreatingService? || ph.CrdUpdatingService?) then
                  && s'.store == PutService(s.store, MakeServiceSpec(p.functionName, ph.cmVersion, ph.image),
                                            if ph.CrdUpdatingService? then s.store.svc.value.readiness else NoCondition)
                  && s'.log == s.log.(image := Some(ph.image), crdWrites := s.log.crdWrites + 1)
                else s'.store == s.store && s'.log == s.log)
  {
    hide PutConfig, PutService, ReplyAllowed, CrdAdvance;
  }

  lemma CrdServeEffect(p: Params, s: State, c: string, applied: bool, reply: Reply)
    requires Inv(p, s) && Enabled(p, s, CrdServe(c, applied, reply))
    ensures var s' := CrdServeStep(p, s, c, applied, reply);
            && StoreOk(p, s'.store) && LogOk(p, s') && Grows(s, s')
            && s'.log.confirmed == s.log.confirmed && s'.runs == s.runs
  {
    Unfold(p, s);
    CrdServeShape(p, s, c, applied, reply);
    hide Inv, StoreOk, LogOk, RunsOk, Grows, CrdServeStep, PutService, PutConfig, ImageOk, CommitsOk, ConfirmedOk, OwnersOk, FunctionsOk;
    assert c in s.crds;
    hide Enabled;
    var s' := CrdServeStep(p, s, c, applied, reply);
    var ph := s.crds[c];
    assert CrdOk(s, ph);
    if applied && ph.CrdCreatingConfig? {
      FirstConfigOk(p, s, s');
    } else if applied && (ph.CrdCreatingService? || ph.CrdUpdatingService?) {
      var readiness := if ph.CrdUpdatingService? then s.store.svc.value.readiness else NoCondition;
      CrdServiceOk(p, s, s', ph.cmVersion, ph.image, readiness);
    } else {
      SameOk(p, s, s');
    }
  }

  lemma CrdPhaseOk(p: Params, s: State, ph: CrdPhase, applied: bool, reply: Reply)
    requires StoreOk(p, s.store) && CrdOk(s, ph) && !ph.CrdDone?
    requires ReplyAllowed(s.store, CrdRequestOf(p, ph), applied, reply)
    ensures CrdOk(s, CrdAdvance(p, ph, reply))
  {
    hide ServicesOk, RoutesOk;
  }

  lemma CrdServeKeeps(p: Params, s: State, c: string, applied: bool, reply: Reply)
    requires Inv(p, s) && Enabled(p, s, CrdServe(c, applied, reply))
    ensures Inv(p, CrdServeStep(p, s, c, applied, reply)) && Grows(s, CrdServeStep(p, s, c, applied, reply))
  {
    hide Inv, StoreOk, LogOk, RunsOk, Grows, Apply, CanApply, CrdOk, CrdAdvance, CrdRecord, ReplyAllowed, CrdRequestOf;
    Unfold(p, s);
    var s' := CrdServeStep(p, s, c, applied, reply);
    CrdServeEffect(p, s, c, applied, reply);
    assert CrdOk(s, s.crds[c]);
    hide CrdsOk;
    CrdStable(s, s', s.crds[c]);
    CrdPhaseOk(p, s', s.crds[c], applied, reply);
    CrdsCarry(p, s, s', c);
  }

  // ---- Everything else ----

  lemma ConfirmedKnown(p: Params, s: State, u: Uid)
    requires ConfirmedOk(p, s)
    ensures u in s.log.confirmed ==> u in s.log.home
  {
    if u in s.log.confirmed { assert Confirmed(p, s, u); }
  }

  lemma CreateFunctionOk(p: Params, s: State, k: FnKey, uid: Uid, spec: Json)
    requires StoreOk(p, s.store) && LogOk(p, s) && EventEnabled(p, s, CreateFunction(k, uid, spec))
    ensures var s' := EventStep(p, s, CreateFunction(k, uid, spec));
            StoreOk(p, s'.store) && LogOk(p, s') && Grows(s, s')
  {
    var s' := EventStep(p, s, CreateFunction(k, uid, spec));
    Parts(p, s);
    hide StoreOk, LogOk;
    var f := Function(uid, 0, 1, false, spec, EMPTY_STATUS);
    CreatedSpecs(p, s, k, uid, spec);
    CreatedKnown(p, s, k, uid, spec);
    hide ConfirmedOk, CommitsOk, ImageOk, OwnersOk, FunctionsOk, SpecsOk, Known;
    NewSpecGrows(p, s, s', uid, 1, spec);
    NewFunctionStored(p, s, s', k, f);
  }

  lemma CreatedKnown(p: Params, s: State, k: FnKey, uid: Uid, spec: Json)
    requires EventEnabled(p, s, CreateFunction(k, uid, spec)) && ConfirmedOk(p, s)
    ensures Known(EventStep(p, s, CreateFunction(k, uid, spec)).log, k, Function(uid, 0, 1, false, spec, EMPTY_STATUS))
  {
    ConfirmedKnown(p, s, uid);
    hide Confirmed;
  }

  lemma CreatedSpecs(p: Params, s: State, k: FnKey, uid: Uid, spec: Json)
    requires EventEnabled(p, s, CreateFunction(k, uid, spec)) && FunctionsOk(s) && OwnersOk(p, s)
    ensures var s' := EventStep(p, s, CreateFunction(k, uid, spec));
            OwnersOk(p, s') && SpecsOk(s'.store, s'.log) && (uid, 1) !in s.log.specs
  {
    hide Known;
  }

  lemma NewSpecGrows(p: Params, s: State, s': State, uid: Uid, generation: nat, spec: Json)
    requires s'.log == s.log.(home := s'.log.home, specs := s.log.specs[(uid, generation) := spec])
    requires forall u :: u in s.log.home ==> u in s'.log.home && s'.log.home[u] == s.log.home[u]
    requires (uid, generation) !in s.log.specs || s.log.specs[(uid, generation)] == spec
    ensures LogGrows(s.log, s'.log)
  {
  }

  lemma NewFunctionStored(p: Params, s: State, s': State, k: FnKey, f: Function)
    requires StoreOk(p, s.store) && LogOk(p, s) && LogGrows(s.log, s'.log)
    requires s'.store == PutFunction(s.store, k, f)
    requires s'.log == s.log.(home := s'.log.home, specs := s'.log.specs)
    requires Known(s'.log, k, f) && OwnersOk(p, s') && SpecsOk(s'.store, s'.log)
    requires f.uid in s.log.home ==>
               && k in s.store.fns && s.store.fns[k].uid == f.uid
               && s.store.fns[k].generation <= f.generation && (s.store.fns[k].deleting ==> f.deleting)
    ensures StoreOk(p, s'.store) && LogOk(p, s') && Grows(s, s')
  {
    hide StoreOk, LogOk, LogGrows, StoreGrows, Known, OwnersOk, SpecsOk, Grows;
    PutFunctionOk(p, s.store, k, f);
    NewFunctionOk(p, s, s', k, f);
  }

  lemma EditSpecOk(p: Params, s: State, k: FnKey, spec: Json)
    requires StoreOk(p, s.store) && LogOk(p, s) && k in s.store.fns
    ensures var s' := EventStep(p, s, EditSpec(k, spec));
            StoreOk(p, s'.store) && LogOk(p, s') && Grows(s, s')
  {
    var s' := EventStep(p, s, EditSpec(k, spec));
    Parts(p, s);
    hide StoreOk, LogOk, FunctionsOk, OwnersOk, ConfirmedOk, CommitsOk, ImageOk;
    var f := s.store.fns[k];
    if f.spec == spec {
      SameOk(p, s, s');
    } else {
      var f' := f.(spec := spec, generation := f.generation + 1);
      EditedSpecs(p, s, k, spec);
      EditedKnown(p, s, k, spec);
      hide OwnersOk, FunctionsOk, SpecsOk, Known, Sound, EventStep;
      EditedShape(p, s, k, spec);
      NewSpecGrows(p, s, s', f.uid, f.generation + 1, spec);
      NewFunctionStored(p, s, s', k, f');
    }
  }

  lemma EditedShape(p: Params, s: State, k: FnKey, spec: Json)
    requires k in s.store.fns && s.store.fns[k].spec != spec
    ensures var s', f := EventStep(p, s, EditSpec(k, spec)), s.store.fns[k];
            && s'.store == PutFunction(s.store, k, f.(spec := spec, generation := f.generation + 1))
            && s'.log == s.log.(specs := s.log.specs[(f.uid, f.generation + 1) := spec])
  {
    hide PutFunction;
  }

  lemma EditedKnown(p: Params, s: State, k: FnKey, spec: Json)
    requires k in s.store.fns && s.store.fns[k].spec != spec && FunctionsOk(s)
    ensures var f := s.store.fns[k];
            Known(EventStep(p, s, EditSpec(k, spec)).log, k, f.(spec := spec, generation := f.generation + 1))
  {
    assert Known(s.log, k, s.store.fns[k]);
    hide Coherent, IsTrue, SpecsOk;
  }

  lemma EditedSpecs(p: Params, s: State, k: FnKey, spec: Json)
    requires k in s.store.fns && s.store.fns[k].spec != spec && FunctionsOk(s) && OwnersOk(p, s)
    ensures var s', f := EventStep(p, s, EditSpec(k, spec)), s.store.fns[k];
            OwnersOk(p, s') && SpecsOk(s'.store, s'.log) && (f.uid, f.generation + 1) !in s.log.specs
  {
    hide Sound;
    assert Known(s.log, k, s.store.fns[k]);
  }

  /** A change of a Function's metadata, which may mark it as being deleted. */
  lemma MetadataOk(p: Params, s: State, s': State, k: FnKey, f: Function)
    requires StoreOk(p, s.store) && LogOk(p, s) && k in s.store.fns
    requires f == s.store.fns[k].(version := f.version, deleting := f.deleting) && (s.store.fns[k].deleting ==> f.deleting)
    requires s'.store == PutFunction(s.store, k, f) && s'.log == s.log
    ensures StoreOk(p, s'.store) && LogOk(p, s') && Grows(s, s')
  {
    Parts(p, s);
    hide StoreOk, LogOk, ConfirmedOk, CommitsOk, ImageOk, Coherent;
    assert Known(s.log, k, s.store.fns[k]);
    assert Known(s'.log, k, f);
    assert SpecsOk(s'.store, s'.log);
    hide FunctionsOk, SpecsOk, Known;
    assert OwnersOk(p, s');
    hide OwnersOk;
    SameLog(s.log);
    NewFunctionStored(p, s, s', k, f);
  }

  lemma RemoveFunctionOk(p: Params, s: State, s': State, k: FnKey)
    requires StoreOk(p, s.store) && LogOk(p, s) && k in s.store.fns
    requires s'.store == s.store.(fns := s.store.fns - {k}) && s'.log == s.log
    ensures StoreOk(p, s'.store) && LogOk(p, s') && Grows(s, s')
  {
    Parts(p, s);
    RemovedStoreOk(p, s.store, k);
    SameLog(s.log);
    hide StoreOk, StoreGrows, LogGrows, LogOk, ConfirmedOk, CommitsOk, Known;
    assert OwnersOk(p, s') && ImageOk(s') by { hide FunctionsOk, Grows; }
    hide OwnersOk, ImageOk;
    LogCarries(p, s, s');
  }

  lemma RemovedStoreOk(p: Params, st: Store, k: FnKey)
    requires StoreOk(p, st)
    ensures StoreOk(p, st.(fns := st.fns - {k})) && StoreGrows(st, st.(fns := st.fns - {k}))
  {
  }

  lemma RouteEventOk(p: Params, s: State, s': State, r: Route)
    requires StoreOk(p, s.store) && LogOk(p, s) && RouteShape(p, r)
    requires if r.name in s.store.routes then r.owner == s.store.routes[r.name].owner && s'.log == s.log
             else r.owner !in s.log.home && s'.log == s.log.(foreign := s.log.foreign + {r.owner})
    requires s'.store == PutRoute(s.store, r)
    ensures StoreOk(p, s'.store) && LogOk(p, s') && Grows(s, s')
  {
    PutRouteOk(p, s.store, r);
    assert OwnersOk(p, s');
    assert LogGrows(s.log, s'.log);
    hide *;
    NewRouteOk(p, s, s', r);
  }

  lemma EventEffect(p: Params, s: State, e: Event)
    requires StoreOk(p, s.store) && LogOk(p, s) && EventEnabled(p, s, e)
    ensures var s' := EventStep(p, s, e); StoreOk(p, s'.store) && LogOk(p, s') && Grows(s, s')
  {
    hide StoreOk, LogOk, Grows, RouteShape, PutConfig, PutService, PutRoute, PutFunction;
    var s' := EventStep(p, s, e);
    match e {
      case CreateFunction(k, uid, spec) => CreateFunctionOk(p, s, k, uid, spec);
      case EditSpec(k, spec) => EditSpecOk(p, s, k, spec);
      case EditMetadata(k) => MetadataOk(p, s, s', k, s.store.fns[k].(version := s.store.rev + 1));
      case MarkDeleting(k) => MetadataOk(p, s, s', k, s.store.fns[k].(deleting := true));
      case RemoveFunction(k) => RemoveFunctionOk(p, s, s', k);
      case ServiceProgress(ready) => ServiceProgressOk(p, s, s', ready);
      case RouteProgress(n, ready, address, url) =>
        RouteEventOk(p, s, s', Route(n, s.store.routes[n].owner, ready, address, url));
      case ForeignRoute(r) => RouteEventOk(p, s, s', r);
    }
  }

  lemma ServiceProgressOk(p: Params, s: State, s': State, readiness: Readiness)
    requires StoreOk(p, s.store) && LogOk(p, s) && s.store.svc.Some?
    requires s'.store == PutService(s.store, s.store.svc.value.spec, readiness) && s'.log == s.log
    ensures StoreOk(p, s'.store) && LogOk(p, s') && Grows(s, s')
  {
    PutServiceOk(p, s.store, s.store.svc.value.spec, readiness);
    assert ImageOk(s');
    hide StoreOk, StoreGrows, LogOk, Grows, ImageOk;
    QuietOk(p, s, s');
  }

  lemma EventRuns(p: Params, s: State, e: Event)
    requires EventEnabled(p, s, e)
    ensures var s' := EventStep(p, s, e);
            s'.runs == s.runs && s'.crds == s.crds && s'.log.confirmed == s.log.confirmed
  {
    hide PutConfig, PutService, PutRoute, PutFunction;
  }

  lemma EventKeeps(p: Params, s: State, e: Event)
    requires Inv(p, s) && EventEnabled(p, s, e)
    ensures Inv(p, EventStep(p, s, e)) && Grows(s, EventStep(p, s, e))
  {
    Unfold(p, s);
    EventRuns(p, s, e);
    hide Inv, StoreOk, LogOk, Grows, RunOk, CrdOk, EventStep, EventEnabled;
    var s' := EventStep(p, s, e);
    EventEffect(p, s, e);
    forall j | j in s'.runs ensures RunOk(p, s', j, s'.runs[j]) { RunStable(p, s, s', j, s.runs[j]); }
    forall c | c in s'.crds ensures CrdOk(s', s'.crds[c]) { CrdStable(s, s', s.crds[c]); }
    Fold(p, s');
  }

  lemma Fold(p: Params, s: State)
    requires StoreOk(p, s.store) && LogOk(p, s) && RunsOk(p, s) && CrdsOk(s)
    ensures Inv(p, s)
  {
  }

  lemma FetchingOk(p: Params, s: State, k: FnKey)
    ensures RunOk(p, s, k, Fetching)
  {
  }

  lemma CrdStartOk(s: State)
    ensures CrdOk(s, CrdGettingConfig)
  {
  }

  /** Beginning or losing a reconcile touches nothing else. */
  lemma RunBookkeeping(p: Params, s: State, s': State, k: FnKey)
    requires Inv(p, s) && s' == s.(runs := s'.runs) && (k in s'.runs ==> s'.runs[k] == Fetching)
    requires forall j :: j in s'.runs && j != k ==> j in s.runs && s'.runs[j] == s.runs[j]
    ensures Inv(p, s') && Grows(s, s')
  {
    Unfold(p, s);
    hide Inv, StoreOk, LogOk, RunsOk, CrdsOk, Grows, RunOk, OthersUnmoved;
    FetchingOk(p, s', k);
    SameOk(p, s, s');
    SameUnmoved(s, s', k);
    RunsCarry(p, s, s', k);
  }

  lemma CrdBookkeeping(p: Params, s: State, s': State, c: string)
    requires Inv(p, s) && s' == s.(crds := s'.crds) && (c in s'.crds ==> s'.crds[c] == CrdGettingConfig)
    requires forall j :: j in s'.crds && j != c ==> j in s.crds && s'.crds[j] == s.crds[j]
    ensures Inv(p, s') && Grows(s, s')
  {
    Unfold(p, s);
    hide Inv, StoreOk, LogOk, RunsOk, CrdsOk, Grows, CrdOk;
    CrdStartOk(s');
    SameOk(p, s, s');
    CrdsCarry(p, s, s', c);
  }

  lemma BookkeepingKeeps(p: Params, s: State, step: Step)
    requires Inv(p, s) && Enabled(p, s, step) && (step.Begin? || step.Crash? || step.CrdBegin? || step.CrdCrash?)
    ensures Inv(p, Do(p, s, step)) && Grows(s, Do(p, s, step))
  {
    hide Inv, Grows, ServeStep, CrdServeStep, EventStep, Enabled;
    if step.Begin? || step.Crash? {
      RunBookkeeping(p, s, Do(p, s, step), step.k);
    } else {
      CrdBookkeeping(p, s, Do(p, s, step), step.c);
    }
  }

  lemma StepKeeps(p: Params, s: State, step: Step)
    requires Inv(p, s) && Enabled(p, s, step)
    ensures Inv(p, Do(p, s, step)) && Grows(s, Do(p, s, step))
  {
    hide Inv, Grows, ServeStep, CrdServeStep, EventStep, EventEnabled, ReplyAllowed, CanApply, Apply;
    match step {
      case Serve(k, applied, reply) => ServeKeeps(p, s, k, applied, reply);
      case CrdServe(c, applied, reply) => CrdServeKeeps(p, s, c, applied, reply);
      case Other(e) => EventKeeps(p, s, e);
      case _ => BookkeepingKeeps(p, s, step);
    }
  }

  lemma InitialOk(p: Params)
    ensures Inv(p, INITIAL)
  {
  }

  lemma GrowsTransitive(a: State, b: State, c: State)
    requires Grows(a, b) && Grows(b, c)
    ensures Grows(a, c)
  {
    forall k | k in c.store.fns ensures FnGrows(a, c, k) {
      assert FnGrows(b, c, k);
      if k in b.store.fns { assert FnGrows(a, b, k); }
    }
  }

  /** Every run from a state in order ends in one, and nothing recorded on the way is ever taken back. */
  lemma {:induction false} RunKeeps(p: Params, s: State, steps: seq<Step>)
    requires Inv(p, s) && Valid(p, s, steps)
    ensures Inv(p, After(p, s, steps)) && Grows(s, After(p, s, steps))
    decreases |steps|
  {
    hide Inv, Grows, Do, Enabled;
    if steps == [] {
      Unfold(p, s);
      SameOk(p, s, s);
    } else {
      var s' := Do(p, s, steps[0]);
      StepKeeps(p, s, steps[0]);
      RunKeeps(p, s', steps[1..]);
      GrowsTransitive(s, s', After(p, s', steps[1..]));
    }
  }
}
