/** One concrete run: it shows that the situations which the theorems speak about do occur. */
module Witness {
  import opened Names
  import opened Lifecycle
  import opened Cluster
  import opened Programs
  import opened Protocol
  import opened Invariant
  import opened Preservation
  import opened Theorems
  import opened Convergence

  const KEY := FnKey("ns", "f")
  const CRD := "uppers.functions.knative.dev"
  const IMAGE := "upper"
  const SPEC := "{}"

  // ---- The stores along the run ----

  const CREATED := ConfigMap(1, MakeConfigMap().data)

  function WithConfig(): Store {
    EMPTY_STORE.(rev := 1, cm := Some(CREATED), oldConfigs := map[1 := CREATED])
  }

  function ServiceAt(p: Params, version: Version, readiness: Readiness): Service {
    Service(version, MakeServiceSpec(p.functionName, 1, IMAGE), readiness)
  }

  function WithService(p: Params): Store {
    var x := ServiceAt(p, 2, NoCondition);
    WithConfig().(rev := 2, svc := Some(x), oldServices := map[2 := x])
  }

  function WithReadyService(p: Params): Store {
    var x, y := ServiceAt(p, 2, NoCondition), ServiceAt(p, 3, IsReady);
    WithService(p).(rev := 3, svc := Some(y), oldServices := map[2 := x, 3 := y])
  }

  const STORED := Function(1, 4, 1, false, SPEC, EMPTY_STATUS)

  function WithFunction(p: Params): Store { WithReadyService(p).(rev := 4, fns := map[KEY := STORED]) }

  function WithRoute(p: Params): Store {
    var r := MakeRoute(p, KEY, STORED.uid);
    WithFunction(p).(routes := map[r.name := r], oldRoutes := {r})
  }

  function ReadyRoute(p: Params): Route {
    var n := RouteName(p, KEY);
    Route(n, STORED.uid, IsReady, Host(RouteHost(n, ROUTE_NAMESPACE, p.domain)), None)
  }

  function WithReadyRoute(p: Params): Store {
    var n, r := RouteName(p, KEY), ReadyRoute(p);
    WithRoute(p).(routes := map[n := r], oldRoutes := {MakeRoute(p, KEY, STORED.uid), r})
  }

  const DEPLOYED := INITIAL.log.(image := Some(IMAGE), crdWrites := 1)

  const KNOWN := DEPLOYED.(home := map[STORED.uid := KEY], specs := map[(STORED.uid, 1) := SPEC])

  // ---- The run ----

  lemma Next(p: Params, s: State, step: Step, s': State)
    requires Reachable(p, s) && Enabled(p, s, step) && Do(p, s, step) == s'
    ensures Reachable(p, s')
  {
    hide Reaches, Enabled, Do;
    ReachesStep(p, INITIAL, s, step);
  }

  lemma CrdNext(p: Params, store: Store, log: Log, ph: CrdPhase, applied: bool, reply: Reply, store': Store, log': Log)
    requires Reachable(p, State(store, log, map[], map[CRD := ph])) && !ph.CrdDone?
    requires var req := CrdRequestOf(p, ph);
             && (applied ==> CanApply(store, req)) && store' == (if applied then Apply(store, req) else store)
             && ReplyAllowed(store', req, applied, reply)
    requires log' == CrdRecord(log, ph, applied)
    ensures Reachable(p, State(store', log', map[], map[CRD := CrdAdvance(p, ph, reply)]))
  {
    hide Reachable, CrdRequestOf, CrdAdvance, CanApply, Apply, ReplyAllowed, CrdRecord;
    var s, step := State(store, log, map[], map[CRD := ph]), CrdServe(CRD, applied, reply);
    assert s.crds[CRD := CrdAdvance(p, ph, reply)] == map[CRD := CrdAdvance(p, ph, reply)];
    Next(p, s, step, State(store', log', map[], map[CRD := CrdAdvance(p, ph, reply)]));
  }

  lemma FnNext(p: Params, store: Store, ph: Phase, applied: bool, reply: Reply, store': Store)
    requires Reachable(p, State(store, KNOWN, map[KEY := ph], map[])) && Active(ph) && !ph.WritingConfig? && !ph.GettingConfig?
    requires var req := RequestOf(p, KEY, ph);
             && (applied ==> CanApply(store, req)) && store' == (if applied then Apply(store, req) else store)
             && ReplyAllowed(store', req, applied, reply)
    ensures Reachable(p, State(store', KNOWN, map[KEY := Advance(p, KEY, ph, reply)], map[]))
  {
    hide Reachable, RequestOf, Advance, CanApply, Apply, ReplyAllowed;
    var s, step := State(store, KNOWN, map[KEY := ph], map[]), Serve(KEY, applied, reply);
    assert s.runs[KEY := Advance(p, KEY, ph, reply)] == map[KEY := Advance(p, KEY, ph, reply)];
    Next(p, s, step, State(store', KNOWN, map[KEY := Advance(p, KEY, ph, reply)], map[]));
  }

  /** The CRD reconcile creates the ConfigMap and the Service. */
  lemma Deploys(p: Params)
    ensures Reachable(p, State(WithService(p), DEPLOYED, map[], map[CRD := CrdDone(None)]))
  {
    hide Reachable, Do, Enabled;
    Starts(p);
    CrdStarts(p, EMPTY_STORE, INITIAL.log);
    CrdNext(p, EMPTY_STORE, INITIAL.log, CrdGettingConfig, false, NotFound, EMPTY_STORE, INITIAL.log);
    CrdNext(p, EMPTY_STORE, INITIAL.log, CrdCreatingConfig, true, GotConfig(CREATED), WithConfig(), INITIAL.log);
    CrdNext(p, WithConfig(), INITIAL.log, CrdReadingImage(1), false, GotCrd(Some(IMAGE)), WithConfig(), INITIAL.log);
    CrdNext(p, WithConfig(), INITIAL.log, CrdListingService(1, IMAGE), false, NotFound, WithConfig(), INITIAL.log);
    CrdNext(p, WithConfig(), INITIAL.log, CrdCreatingService(1, IMAGE), true, GotService(ServiceAt(p, 2, NoCondition)),
            WithService(p), DEPLOYED);
  }

  lemma CrdStarts(p: Params, store: Store, log: Log)
    requires Reachable(p, State(store, log, map[], map[]))
    ensures Reachable(p, State(store, log, map[], map[CRD := CrdGettingConfig]))
  {
    hide Reachable;
    Next(p, State(store, log, map[], map[]), CrdBegin(CRD), State(store, log, map[], map[CRD := CrdGettingConfig]));
  }

  lemma Starts(p: Params)
    ensures Reachable(p, INITIAL)
  {
    ReachesSelf(p, INITIAL);
  }

  /** The Service gets ready and a Function is created. */
  lemma Prepares(p: Params)
    ensures Reachable(p, State(WithFunction(p), KNOWN, map[], map[]))
  {
    Deploys(p);
    hide Reachable, MakeServiceSpec;
    var s1 := State(WithService(p), DEPLOYED, map[], map[]);
    Next(p, State(WithService(p), DEPLOYED, map[], map[CRD := CrdDone(None)]), CrdCrash(CRD), s1) by {
      assert map[CRD := CrdDone(None)] - {CRD} == map[];
    }
    var s2 := State(WithReadyService(p), DEPLOYED, map[], map[]);
    Next(p, s1, Other(ServiceProgress(IsReady)), s2);
    Next(p, s2, Other(CreateFunction(KEY, STORED.uid, SPEC)), State(WithFunction(p), KNOWN, map[], map[]));
  }

  /** Its first reconcile creates the Route and then dies. */
  lemma CreatesRoute(p: Params)
    ensures Reachable(p, State(WithRoute(p), KNOWN, map[], map[]))
  {
    Prepares(p);
    hide Reachable, MakeServiceSpec, InitializeConditions, AfterRoute, RouteName;
    var st, x := InitializeConditions(EMPTY_STATUS), ServiceAt(p, 3, IsReady);
    var r := MakeRoute(p, KEY, STORED.uid);
    Next(p, State(WithFunction(p), KNOWN, map[], map[]), Begin(KEY), State(WithFunction(p), KNOWN, map[KEY := Fetching], map[]));
    FnNext(p, WithFunction(p), Fetching, false, GotFunction(STORED), WithFunction(p));
    FnNext(p, WithFunction(p), CheckingService(STORED, st), false, GotService(x), WithFunction(p));
    FnNext(p, WithFunction(p), FindingRoute(STORED, st, x), false, NotFound, WithFunction(p));
    FnNext(p, WithFunction(p), CreatingRoute(STORED, st, x), true, GotRoute(r), WithRoute(p));
    var ph := AfterRoute(STORED, st, x, r);
    Next(p, State(WithRoute(p), KNOWN, map[KEY := ph], map[]), Crash(KEY), State(WithRoute(p), KNOWN, map[], map[])) by {
      assert map[KEY := ph] - {KEY} == map[];
    }
  }

  function Overtaking(p: Params): State {
    State(WithReadyRoute(p), KNOWN, map[], map[CRD := CrdReadingImage(1)])
  }

  /** The Route gets ready and a CRD reconcile reads the ConfigMap. */
  lemma OvertakingIsReachable(p: Params)
    requires '.' !in p.functionName
    ensures Reachable(p, Overtaking(p))
  {
    CreatesRoute(p);
    NoDot(p);
    hide Reachable, MakeServiceSpec, RouteName;
    var r := ReadyRoute(p);
    Next(p, State(WithRoute(p), KNOWN, map[], map[]), Other(RouteProgress(r.name, IsReady, r.address, None)),
         State(WithReadyRoute(p), KNOWN, map[], map[]));
    CrdStarts(p, WithReadyRoute(p), KNOWN);
    CrdNext(p, WithReadyRoute(p), KNOWN, CrdGettingConfig, false, GotConfig(CREATED), WithReadyRoute(p), KNOWN);
  }

  lemma NoDot(p: Params)
    requires '.' !in p.functionName
    ensures '.' !in RouteName(p, KEY)
  {
    assert '.' !in KEY.namespace && '.' !in KEY.name;
  }

  lemma OvertakingIsSettled(p: Params)
    requires '.' !in p.functionName
    ensures Settled(p, Overtaking(p), KEY) && ConfigShape(CREATED) && Entries(CREATED) == map[]
  {
    OvertakingIsReachable(p);
    ReachableOk(p, Overtaking(p));
    hide Inv, Reachable, MakeServiceSpec, RouteName;
  }

  /** Settled states do occur: in some run a Function that a pass makes Ready is there. */
  lemma SomeFunctionGetsReady(p: Params)
    requires '.' !in p.functionName
    ensures exists s :: Reachable(p, s) && KEY in s.store.fns && IsTrue(s.store.fns[KEY].status, Ready)
  {
    var s := Overtaking(p);
    OvertakingIsSettled(p);
    OvertakingIsReachable(p);
    var order := [KEY];
    hide Overtaking, Inv, Settled, Reaches;
    ReachableOk(p, s);
    assert Free(s, KEY) by { SettledIsFree(p, s); }
    PassIsARun(p, s, order);
    PassMakesReady(p, s, order, KEY);
    ReachesTransitive(p, INITIAL, s, Pass(p, s, order));
  }

  lemma SettledIsFree(p: Params, s: State)
    requires Settled(p, s, KEY)
    ensures Free(s, KEY)
  {
    hide Inv;
  }

  /** The annotation does go back in some run from the empty cluster. */
  lemma AnnotationGoesBackInSomeRun(p: Params)
    requires '.' !in p.functionName
    ensures exists s, step ::
              && Reachable(p, s) && Enabled(p, s, step)
              && HasAnnotation(s) && HasAnnotation(Do(p, s, step)) && AnnotationOf(Do(p, s, step)) < AnnotationOf(s)
  {
    var w := Overtaking(p);
    OvertakingIsReachable(p);
    OvertakingIsSettled(p);
    AnnotationCanGoBack(p, w, KEY, CRD, IMAGE);
    hide Inv, Settled, Reaches, Enabled, Do, Overtaking;
    var s, step :| Reaches(p, w, s) && Enabled(p, s, step) && Reaches(p, w, Do(p, s, step))
                   && HasAnnotation(s) && HasAnnotation(Do(p, s, step)) && AnnotationOf(Do(p, s, step)) < AnnotationOf(s);
    ReachesTransitive(p, INITIAL, w, s);
    assert Reachable(p, s);
  }
}
