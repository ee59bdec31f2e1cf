/** Reconciles that run alone with fresh listers and no failures: one pass over the Functions brings the
    cluster to one state, whatever the order, and a second pass leaves it there. */
module Convergence {
  import opened Names
  import opened Lifecycle
  import opened Cluster
  import opened Programs
  import opened Protocol
  import opened Invariant
  import opened Preservation
  import opened Theorems

  /** The reply of an API server and of lister caches that are up to date and never fail. */
  function FreshReply(after: Store, r: Request, applied: bool): Reply {
    match r
    case GetFunction(k) => if k in after.fns then GotFunction(after.fns[k]) else NotFound
    case ListService => if after.svc.Some? then GotService(after.svc.value) else NotFound
    case ListRoute(n) => if n in after.routes then GotRoute(after.routes[n]) else NotFound
    case GetConfig => if after.cm.Some? then GotConfig(after.cm.value) else NotFound
    case ListCrd => NotFound
    case CreateRoute(x) => if applied then GotRoute(x) else Failed("already exists")
    case CreateConfig(_) => if applied && after.cm.Some? then GotConfig(after.cm.value) else Failed("already exists")
    case UpdateConfig(_) => if applied && after.cm.Some? then GotConfig(after.cm.value) else Failed("conflict")
    case CreateService(_) => if applied && after.svc.Some? then GotService(after.svc.value) else Failed("already exists")
    case UpdateService(_) => if applied && after.svc.Some? then GotService(after.svc.value) else Failed("conflict")
    case UpdateStatus(k, _) => if applied && k in after.fns then GotFunction(after.fns[k]) else Failed("conflict")
  }

  function FreshChoice(p: Params, s: State, k: FnKey): Step
    requires k in s.runs && Active(s.runs[k])
  {
    var req := RequestOf(p, k, s.runs[k]);
    var applied := CanApply(s.store, req);
    Serve(k, applied, FreshReply(if applied then Apply(s.store, req) else s.store, req, applied))
  }

  /** What listers return is what they may return. */
  lemma FreshIsEnabled(p: Params, s: State, k: FnKey)
    requires StoreOk(p, s.store) && k in s.runs && Active(s.runs[k])
    ensures Enabled(p, s, FreshChoice(p, s, k))
  {
    hide Apply, RouteShape, ServiceShape, ConfigShape;
    var req := RequestOf(p, k, s.runs[k]);
    if req.ListService? || req.ListRoute? { assert Apply(s.store, req) == s.store by { ReadsApply(s.store, req); } }
  }

  lemma ReadsApply(st: Store, r: Request)
    requires CanApply(st, r) && (r.GetFunction? || r.ListService? || r.ListRoute? || r.GetConfig? || r.ListCrd?)
    ensures Apply(st, r) == st
  {
  }

  function Rank(ph: Phase): nat {
    match ph
    case Fetching => 8
    case CheckingService(_, _) => 7
    case FindingRoute(_, _, _) => 6
    case CreatingRoute(_, _, _) => 5
    case GettingConfig(_, _, _, _) => 4
    case WritingConfig(_, _, _, _, _, _) => 3
    case WritingService(_, _, _, _, _) => 2
    case WritingStatus(_, _, _) => 1
    case Done(_) => 0
    case Panicked => 0
  }

  /** Every reply moves a reconcile strictly forward: it makes at most eight requests. */
  lemma RankFalls(p: Params, k: FnKey, ph: Phase, reply: Reply)
    requires Active(ph)
    ensures Rank(Advance(p, k, ph, reply)) < Rank(ph)
  {
    hide MarkFalse, MarkTrue, InitializeConditions, PublishedStatus, Merge;
  }

  /** Runs the reconcile of `k` to its end without anybody interfering. */
  ghost function Drive(p: Params, s: State, k: FnKey): State
    requires StoreOk(p, s.store) && Inv(p, s) && k in s.runs
    decreases Rank(s.runs[k])
  {
    if !Active(s.runs[k]) then s
    else
      FreshIsEnabled(p, s, k);
      DriveOk(p, s, k);
      Drive(p, Do(p, s, FreshChoice(p, s, k)), k)
  }

  lemma DriveOk(p: Params, s: State, k: FnKey)
    requires Inv(p, s) && k in s.runs && Active(s.runs[k]) && Enabled(p, s, FreshChoice(p, s, k))
    ensures var s' := Do(p, s, FreshChoice(p, s, k));
            Inv(p, s') && StoreOk(p, s'.store) && k in s'.runs && Rank(s'.runs[k]) < Rank(s.runs[k])
  {
    var step := FreshChoice(p, s, k);
    var s' := Do(p, s, step);
    assert s'.runs[k] == Advance(p, k, s.runs[k], step.reply);
    RankFalls(p, k, s.runs[k], step.reply);
    StepKeeps(p, s, step);
    hide *;
    Unfold(p, s');
  }

  /** The requests that the reconcile of `k` makes on the way. */
  ghost function Asked(p: Params, s: State, k: FnKey): (r: seq<Request>)
    requires StoreOk(p, s.store) && Inv(p, s) && k in s.runs
    ensures |r| <= Rank(s.runs[k])
    decreases Rank(s.runs[k])
  {
    if !Active(s.runs[k]) then []
    else
      FreshIsEnabled(p, s, k);
      DriveOk(p, s, k);
      [RequestOf(p, k, s.runs[k])] + Asked(p, Do(p, s, FreshChoice(p, s, k)), k)
  }

  ghost function ReconcileNow(p: Params, s: State, k: FnKey): State
    requires Inv(p, s) && Free(s, k)
  {
    StepKeeps(p, s, Begin(k));
    Unfold(p, Do(p, s, Begin(k)));
    Drive(p, Do(p, s, Begin(k)), k)
  }

  ghost function RequestsNow(p: Params, s: State, k: FnKey): seq<Request>
    requires Inv(p, s) && Free(s, k)
  {
    StepKeeps(p, s, Begin(k));
    Unfold(p, Do(p, s, Begin(k)));
    Asked(p, Do(p, s, Begin(k)), k)
  }

  lemma {:induction false} DriveReaches(p: Params, s: State, k: FnKey)
    requires StoreOk(p, s.store) && Inv(p, s) && k in s.runs
    ensures var s' := Drive(p, s, k);
            && Inv(p, s') && Reaches(p, s, s') && k in s'.runs && s'.runs[k].Done?
            && forall j :: j in s'.runs && j != k ==> j in s.runs && s'.runs[j] == s.runs[j]
    decreases Rank(s.runs[k])
  {
    if !Active(s.runs[k]) {
      ReachesSelf(p, s);
      Unfold(p, s);
      hide Inv, StoreOk, LogOk, CrdsOk;
      NotPanicked(p, s, k, s.runs[k]);
    } else {
      FreshIsEnabled(p, s, k);
      DriveOk(p, s, k);
      var step := FreshChoice(p, s, k);
      var next := Do(p, s, step);
      hide Inv, StoreOk, FreshChoice, Enabled, Valid, After, Apply, Advance, Record, Rank;
      assert step.Serve? && step.k == k by { ChoiceIsServe(p, s, k); }
      assert forall j :: j in next.runs && j != k ==> j in s.runs && next.runs[j] == s.runs[j];
      DriveReaches(p, next, k);
      ReachesSelf(p, s);
      ReachesStep(p, s, s, step);
      ReachesTransitive(p, s, next, Drive(p, s, k));
    }
  }

  lemma ChoiceIsServe(p: Params, s: State, k: FnKey)
    requires k in s.runs && Active(s.runs[k])
    ensures FreshChoice(p, s, k).Serve? && FreshChoice(p, s, k).k == k
  {
  }

  // ---- One reconcile in a settled cluster ----

  /** The Service and the Function's own Route are ready, and no reconcile of it is under way. */
  ghost predicate Settled(p: Params, s: State, k: FnKey) {
    && Inv(p, s) && Free(s, k)
    && s.store.cm.Some? && s.store.svc.Some? && s.store.svc.value.readiness.IsReady?
    && OwnsReadyRoute(p, s.store, k)
  }

  predicate OwnsReadyRoute(p: Params, st: Store, k: FnKey) {
    && k in st.fns && !st.fns[k].deleting
    && RouteName(p, k) in st.routes
    && st.routes[RouteName(p, k)].owner == st.fns[k].uid && st.routes[RouteName(p, k)].readiness.IsReady?
  }

  function MergedData(cm: ConfigMap, key: string, spec: Json): ConfigData
    requires ConfigShape(cm)
  {
    Files(cm.data.files[CONFIG_FILE := Object(Entries(cm)[key := spec])])
  }

  function FinalStatus(p: Params, f: Function, r: Route): Status {
    PublishedStatus(p, f, MarkTrue(MarkTrue(InitializeConditions(f.status), RouteReady), ConfigMapSynced), r)
  }

  /** The store after one reconcile of `k`: its entry, the annotation and its status are brought up to date. */
  ghost function SettledStore(p: Params, st: Store, k: FnKey): Store
    requires OwnsReadyRoute(p, st, k) && st.cm.Some? && ConfigShape(st.cm.value)
    requires st.svc.Some? && st.svc.value.spec.annotations.Annotations?
  {
    var f, x := st.fns[k], st.svc.value;
    var st1 := PutConfig(st, MergedData(st.cm.value, HostKey(RouteName(p, k)), f.spec));
    var st2 := PutService(st1, Annotate(x, st1.cm.value.version).spec, x.readiness);
    PutFunction(st2, k, f.(status := FinalStatus(p, f, st.routes[RouteName(p, k)])))
  }

  /** `s` with another store and log, and with the reconcile of `k` at a phase. */
  function AtPhase(s: State, k: FnKey, store: Store, log: Log, ph: Phase): State {
    State(store, log, s.runs[k := ph], s.crds)
  }

  ghost predicate Driving(p: Params, s: State, k: FnKey, store: Store, log: Log, ph: Phase) {
    StoreOk(p, store) && Inv(p, AtPhase(s, k, store, log, ph))
  }

  /** Where the reconcile of `k` ends up from there when it runs alone. */
  ghost function Outcome(p: Params, s: State, k: FnKey, store: Store, log: Log, ph: Phase): State
    requires Driving(p, s, k, store, log, ph)
  {
    Drive(p, AtPhase(s, k, store, log, ph), k)
  }

  ghost function AskedFrom(p: Params, s: State, k: FnKey, store: Store, log: Log, ph: Phase): seq<Request>
    requires Driving(p, s, k, store, log, ph)
  {
    Asked(p, AtPhase(s, k, store, log, ph), k)
  }

  lemma FreshShape(p: Params, s: State, k: FnKey)
    requires k in s.runs && Active(s.runs[k]) && Enabled(p, s, FreshChoice(p, s, k))
    ensures var ph, s' := s.runs[k], Do(p, s, FreshChoice(p, s, k));
            var req := RequestOf(p, k, ph);
            var applied := CanApply(s.store, req);
            var after := if applied then Apply(s.store, req) else s.store;
            s' == AtPhase(s, k, after, s'.log, Advance(p, k, ph, FreshReply(after, req, applied)))
  {
    hide RequestOf, Advance, FreshReply, Apply, CanApply, ReplyAllowed, Merge, AddressKey;
  }

  lemma AtTwice(s: State, k: FnKey, store: Store, log: Log, ph: Phase, store': Store, log': Log, ph': Phase)
    ensures AtPhase(AtPhase(s, k, store, log, ph), k, store', log', ph') == AtPhase(s, k, store', log', ph')
  {
    assert s.runs[k := ph][k := ph'] == s.runs[k := ph'];
  }

  lemma FreshStepOk(p: Params, s: State, k: FnKey)
    requires StoreOk(p, s.store) && Inv(p, s) && k in s.runs && Active(s.runs[k])
    ensures Enabled(p, s, FreshChoice(p, s, k))
    ensures var s' := Do(p, s, FreshChoice(p, s, k));
            && StoreOk(p, s'.store) && Inv(p, s') && k in s'.runs && Drive(p, s, k) == Drive(p, s', k)
            && Asked(p, s, k) == [RequestOf(p, k, s.runs[k])] + Asked(p, s', k)
  {
    FreshIsEnabled(p, s, k);
    DriveOk(p, s, k);
    hide Inv, StoreOk, Do, Enabled, FreshChoice, Rank;
  }

  /** One request of a reconcile that runs alone. */
  lemma DriveStep(p: Params, s: State, k: FnKey, store: Store, log: Log, ph: Phase) returns (log': Log)
    requires Driving(p, s, k, store, log, ph) && Active(ph)
    ensures var req := RequestOf(p, k, ph);
            var applied := CanApply(store, req);
            var after := if applied then Apply(store, req) else store;
            var ph' := Advance(p, k, ph, FreshReply(after, req, applied));
            && Driving(p, s, k, after, log', ph') && Outcome(p, s, k, store, log, ph) == Outcome(p, s, k, after, log', ph')
            && AskedFrom(p, s, k, store, log, ph) == [req] + AskedFrom(p, s, k, after, log', ph')
  {
    hide Inv, StoreOk, Do, Enabled, FreshChoice, Rank, RequestOf, Advance, FreshReply, Apply, CanApply, Drive, Asked;
    var a := AtPhase(s, k, store, log, ph);
    FreshStepOk(p, a, k);
    FreshShape(p, a, k);
    log' := Do(p, a, FreshChoice(p, a, k)).log;
    var req := RequestOf(p, k, ph);
    var applied := CanApply(store, req);
    var after := if applied then Apply(store, req) else store;
    AtTwice(s, k, store, log, ph, after, log', Advance(p, k, ph, FreshReply(after, req, applied)));
  }

  lemma DriveFetch(p: Params, s: State, k: FnKey, store: Store, log: Log) returns (log': Log)
    requires Driving(p, s, k, store, log, Fetching) && k in store.fns && !store.fns[k].deleting
    ensures var ph' := CheckingService(store.fns[k], InitializeConditions(store.fns[k].status));
            && Driving(p, s, k, store, log', ph') && Outcome(p, s, k, store, log, Fetching) == Outcome(p, s, k, store, log', ph')
            && AskedFrom(p, s, k, store, log, Fetching) == [GetFunction(k)] + AskedFrom(p, s, k, store, log', ph')
  {
    hide Driving, Outcome, AskedFrom, InitializeConditions;
    log' := DriveStep(p, s, k, store, log, Fetching);
  }

  lemma DriveCheck(p: Params, s: State, k: FnKey, store: Store, log: Log, f: Function, st: Status) returns (log': Log)
    requires Driving(p, s, k, store, log, CheckingService(f, st)) && store.svc.Some? && store.svc.value.readiness.IsReady?
    ensures var ph' := FindingRoute(f, st, store.svc.value);
            && Driving(p, s, k, store, log', ph')
            && Outcome(p, s, k, store, log, CheckingService(f, st)) == Outcome(p, s, k, store, log', ph')
            && AskedFrom(p, s, k, store, log, CheckingService(f, st)) == [ListService] + AskedFrom(p, s, k, store, log', ph')
  {
    hide Driving, Outcome, AskedFrom;
    log' := DriveStep(p, s, k, store, log, CheckingService(f, st));
  }

  lemma DriveRoute(p: Params, s: State, k: FnKey, store: Store, log: Log, f: Function, st: Status, x: Service) returns (log': Log)
    requires Driving(p, s, k, store, log, FindingRoute(f, st, x)) && RouteName(p, k) in store.routes
    requires store.routes[RouteName(p, k)].owner == f.uid && store.routes[RouteName(p, k)].readiness.IsReady?
    ensures var ph' := GettingConfig(f, MarkTrue(st, RouteReady), x, store.routes[RouteName(p, k)]);
            && Driving(p, s, k, store, log', ph')
            && Outcome(p, s, k, store, log, FindingRoute(f, st, x)) == Outcome(p, s, k, store, log', ph')
            && AskedFrom(p, s, k, store, log, FindingRoute(f, st, x)) == [ListRoute(RouteName(p, k))] + AskedFrom(p, s, k, store, log', ph')
  {
    hide Driving, Outcome, AskedFrom, MarkTrue;
    log' := DriveStep(p, s, k, store, log, FindingRoute(f, st, x));
  }

  lemma DriveRead(p: Params, s: State, k: FnKey, store: Store, log: Log, f: Function, st: Status, x: Service, r: Route, cm: ConfigMap)
    returns (log': Log)
    requires Driving(p, s, k, store, log, GettingConfig(f, st, x, r)) && store.cm == Some(cm)
    requires Merge(p.skipEqual, cm, f.spec, r.address).Keep? || Merge(p.skipEqual, cm, f.spec, r.address).Rewrite?
    ensures var m := Merge(p.skipEqual, cm, f.spec, r.address);
            var ph' := if m.Keep? then AfterConfig(p, f, st, x, r, cm.version) else WritingConfig(f, st, x, r, cm, m.cm);
            && Driving(p, s, k, store, log', ph')
            && Outcome(p, s, k, store, log, GettingConfig(f, st, x, r)) == Outcome(p, s, k, store, log', ph')
            && AskedFrom(p, s, k, store, log, GettingConfig(f, st, x, r)) == [GetConfig] + AskedFrom(p, s, k, store, log', ph')
  {
    hide Driving, Outcome, AskedFrom, AfterConfig, Merge;
    log' := DriveStep(p, s, k, store, log, GettingConfig(f, st, x, r));
  }

  lemma DriveWrite(p: Params, s: State, k: FnKey, store: Store, log: Log,
                   f: Function, st: Status, x: Service, r: Route, base: ConfigMap, merged: ConfigMap)
    returns (log': Log)
    requires Driving(p, s, k, store, log, WritingConfig(f, st, x, r, base, merged))
    requires store.cm.Some? && store.cm.value.version == merged.version
    ensures var store' := PutConfig(store, merged.data);
            && store'.cm.Some?
            && var ph' := AfterConfig(p, f, st, x, r, store'.cm.value.version);
            && Driving(p, s, k, store', log', ph')
            && Outcome(p, s, k, store, log, WritingConfig(f, st, x, r, base, merged)) == Outcome(p, s, k, store', log', ph')
            && AskedFrom(p, s, k, store, log, WritingConfig(f, st, x, r, base, merged)) ==
                 [UpdateConfig(merged)] + AskedFrom(p, s, k, store', log', ph')
  {
    hide Driving, Outcome, AskedFrom, AfterConfig;
    log' := DriveStep(p, s, k, store, log, WritingConfig(f, st, x, r, base, merged));
  }

  /** Reading the configuration and, unless the entry was found in place, writing it. */
  lemma DriveConfig(p: Params, s: State, k: FnKey, store: Store, log: Log, f: Function, st: Status, x: Service, r: Route)
    returns (log': Log)
    requires Driving(p, s, k, store, log, GettingConfig(f, st, x, r)) && store.cm.Some? && ConfigShape(store.cm.value)
    requires AddressKey(r.address) == Some(HostKey(RouteName(p, k)))
    ensures var store' := PutConfig(store, MergedData(store.cm.value, HostKey(RouteName(p, k)), f.spec));
            && store'.cm.Some?
            && var ph' := AfterConfig(p, f, st, x, r, store'.cm.value.version);
            && Driving(p, s, k, store', log', ph')
            && Outcome(p, s, k, store, log, GettingConfig(f, st, x, r)) == Outcome(p, s, k, store', log', ph')
  {
    var cm := store.cm.value;
    MergeData(p, cm, f.spec, r.address);
    hide Driving, Outcome, AfterConfig, Merge, MergedData, AddressKey, Entries, ConfigShape, HostKey, RouteName;
    var m := Merge(p.skipEqual, cm, f.spec, r.address);
    log' := DriveRead(p, s, k, store, log, f, st, x, r, cm);
    if m.Rewrite? { log' := DriveWrite(p, s, k, store, log', f, st, x, r, cm, m.cm); }
  }

  /** Keeping the object and writing the merged content come to the same. */
  lemma MergeData(p: Params, cm: ConfigMap, spec: Json, address: RouteAddress)
    requires ConfigShape(cm) && AddressKey(address).Some?
    ensures var data := MergedData(cm, AddressKey(address).value, spec);
            var m := Merge(p.skipEqual, cm, spec, address);
            if m.Keep? then data == cm.data else m == Rewrite(cm.(data := data))
  {
    var key := AddressKey(address).value;
    if key in Entries(cm) && Entries(cm)[key] == spec {
      assert Entries(cm)[key := spec] == Entries(cm);
      assert cm.data.files[CONFIG_FILE := Object(Entries(cm))] == cm.data.files;
    }
  }

  lemma DriveService(p: Params, s: State, k: FnKey, store: Store, log: Log, f: Function, st: Status, x: Service, r: Route, v: Version)
    returns (log': Log)
    requires Driving(p, s, k, store, log, WritingService(f, st, x, r, v)) && store.svc == Some(x) && x.spec.annotations.Annotations?
    ensures var store' := PutService(store, Annotate(x, v).spec, x.readiness);
            && Driving(p, s, k, store', log', Published(p, f, st, r))
            && Outcome(p, s, k, store, log, WritingService(f, st, x, r, v)) == Outcome(p, s, k, store', log', Published(p, f, st, r))
  {
    hide Driving, Outcome, Published;
    log' := DriveStep(p, s, k, store, log, WritingService(f, st, x, r, v));
  }

  lemma DriveStatus(p: Params, s: State, k: FnKey, store: Store, log: Log, f: Function, st: Status, err: Option<string>)
    returns (log': Log)
    requires Driving(p, s, k, store, log, WritingStatus(f, st, err)) && k in store.fns && store.fns[k] == f
    ensures var store' := PutFunction(store, k, f.(status := st));
            && Driving(p, s, k, store', log', Done(err))
            && Outcome(p, s, k, store, log, WritingStatus(f, st, err)) == Outcome(p, s, k, store', log', Done(err))
            && AskedFrom(p, s, k, store, log, WritingStatus(f, st, err)) ==
                 [UpdateStatus(k, f.(status := st))] + AskedFrom(p, s, k, store', log', Done(err))
  {
    hide Driving, Outcome, AskedFrom;
    log' := DriveStep(p, s, k, store, log, WritingStatus(f, st, err));
  }

  // ---- The whole reconcile ----

  lemma SettledFacts(p: Params, s: State, k: FnKey)
    requires Settled(p, s, k)
    ensures StoreOk(p, s.store) && ConfigShape(s.store.cm.value)
    ensures s.store.svc.value.spec.annotations.Annotations?
    ensures AddressKey(s.store.routes[RouteName(p, k)].address) == Some(HostKey(RouteName(p, k)))
  {
    Unfold(p, s);
    AnnotationFacts(p, s);
    ConfigIsReplay(p, s);
    hide Inv, LogOk, RunsOk, CrdsOk, ConfigsOk, ServicesOk, ConfigShape, AddressKey;
    var r := s.store.routes[RouteName(p, k)];
    assert RouteShape(p, r) && r.name == RouteName(p, k);
    RouteKey(p, r);
  }

  lemma AnnotateIdle(store: Store, x: Service, v: Version)
    requires store.svc == Some(x) && Annotation(x.spec) == Some(v)
    ensures PutService(store, Annotate(x, v).spec, x.readiness) == store
  {
    assert x.spec.annotations.values[CONFIG_MAP_ANNOTATION := v] == x.spec.annotations.values;
  }

  /** From the state after the configuration to the end: the Service if its annotation is behind, then the
      status if it differs. */
  lemma DriveEnd(p: Params, s: State, k: FnKey, store: Store, log: Log, f: Function, st: Status, x: Service, r: Route, v: Version)
    returns (log': Log)
    requires Driving(p, s, k, store, log, AfterConfig(p, f, st, x, r, v)) && store.svc == Some(x) && x.spec.annotations.Annotations?
    requires k in store.fns && store.fns[k] == f
    ensures var final := PublishedStatus(p, f, MarkTrue(st, ConfigMapSynced), r);
            var store' := PutFunction(PutService(store, Annotate(x, v).spec, x.readiness), k, f.(status := final));
            && Driving(p, s, k, store', log', Done(None))
            && Outcome(p, s, k, store, log, AfterConfig(p, f, st, x, r, v)) == Outcome(p, s, k, store', log', Done(None))
  {
    hide Driving, Outcome, PublishedStatus, MarkTrue, PutFunction, Conclude;
    log' := log;
    if Annotation(x.spec) == Some(v) {
      AnnotateIdle(store, x, v);
    } else {
      log' := DriveService(p, s, k, store, log, f, MarkTrue(st, ConfigMapSynced), x, r, v);
    }
    log' := DriveFinish(p, s, k, PutService(store, Annotate(x, v).spec, x.readiness), log', f,
                        PublishedStatus(p, f, MarkTrue(st, ConfigMapSynced), r), None);
  }

  lemma DriveFinish(p: Params, s: State, k: FnKey, store: Store, log: Log, f: Function, final: Status, err: Option<string>)
    returns (log': Log)
    requires Driving(p, s, k, store, log, Conclude(f, final, err)) && k in store.fns && store.fns[k] == f
    ensures var store' := PutFunction(store, k, f.(status := final));
            && Driving(p, s, k, store', log', Done(err))
            && Outcome(p, s, k, store, log, Conclude(f, final, err)) == Outcome(p, s, k, store', log', Done(err))
            && AskedFrom(p, s, k, store, log, Conclude(f, final, err)) ==
                 (if final == f.status then [] else [UpdateStatus(k, f.(status := final))]) + AskedFrom(p, s, k, store', log', Done(err))
  {
    hide Driving, Outcome, AskedFrom;
    log' := log;
    if final != f.status { log' := DriveStatus(p, s, k, store, log, f, final, err); }
  }

  lemma Begun(p: Params, s: State, k: FnKey)
    requires Inv(p, s) && Free(s, k)
    ensures Driving(p, s, k, s.store, s.log, Fetching)
    ensures ReconcileNow(p, s, k) == Outcome(p, s, k, s.store, s.log, Fetching)
    ensures RequestsNow(p, s, k) == AskedFrom(p, s, k, s.store, s.log, Fetching)
  {
    StepKeeps(p, s, Begin(k));
    Unfold(p, Do(p, s, Begin(k)));
    hide Inv, StoreOk, LogOk, RunsOk, CrdsOk, Drive, Asked, Grows;
    assert Do(p, s, Begin(k)) == AtPhase(s, k, s.store, s.log, Fetching);
  }

  lemma Ended(p: Params, s: State, k: FnKey, store: Store, log: Log, err: Option<string>)
    requires Driving(p, s, k, store, log, Done(err))
    ensures Outcome(p, s, k, store, log, Done(err)) == AtPhase(s, k, store, log, Done(err))
    ensures AskedFrom(p, s, k, store, log, Done(err)) == []
  {
    hide Inv, StoreOk;
  }

  /** A reconcile that runs alone in a settled cluster ends without error and leaves the settled store. */
  lemma ReconcileSettles(p: Params, s: State, k: FnKey)
    requires Settled(p, s, k)
    ensures StoreOk(p, s.store) && ConfigShape(s.store.cm.value) && s.store.svc.value.spec.annotations.Annotations?
    ensures var s' := ReconcileNow(p, s, k);
            && s'.store == SettledStore(p, s.store, k)
            && s'.runs == s.runs[k := Done(None)] && s'.crds == s.crds
            && Inv(p, s') && Reaches(p, s, s')
  {
    SettledFacts(p, s, k);
    ReconcileIsARun(p, s, k);
    Begun(p, s, k);
    hide StoreOk, Inv, Driving, Outcome, AfterConfig, InitializeConditions, MarkTrue, PublishedStatus, PutConfig, PutService,
         PutFunction, MergedData, Annotate, ConfigShape, Entries, AddressKey, HostKey, RouteName, Reaches, ReconcileNow;
    var store, f, x, r := s.store, s.store.fns[k], s.store.svc.value, s.store.routes[RouteName(p, k)];
    var st := InitializeConditions(f.status);
    var log := DriveFetch(p, s, k, store, s.log);
    log := DriveCheck(p, s, k, store, log, f, st);
    log := DriveRoute(p, s, k, store, log, f, st, x);
    log := DriveConfig(p, s, k, store, log, f, MarkTrue(st, RouteReady), x, r);
    var st1 := PutConfig(store, MergedData(store.cm.value, HostKey(RouteName(p, k)), f.spec));
    ConfigWriteKeeps(store, MergedData(store.cm.value, HostKey(RouteName(p, k)), f.spec));
    log := DriveEnd(p, s, k, st1, log, f, MarkTrue(st, RouteReady), x, r, st1.cm.value.version);
    Ended(p, s, k, SettledStore(p, store, k), log, None);
  }

  lemma ConfigWriteKeeps(st: Store, data: ConfigData)
    ensures var st' := PutConfig(st, data);
            st' == st.(rev := st'.rev, cm := st'.cm, oldConfigs := st'.oldConfigs) && st'.cm.Some?
  {
  }

  lemma ReconcileIsARun(p: Params, s: State, k: FnKey)
    requires Inv(p, s) && Free(s, k)
    ensures var s' := ReconcileNow(p, s, k);
            && Inv(p, s') && Reaches(p, s, s') && k in s'.runs && s'.runs[k].Done?
            && forall j :: j in s'.runs && j != k ==> j in s.runs && s'.runs[j] == s.runs[j]
  {
    hide Inv, StoreOk, LogOk, RunsOk, CrdsOk, Drive, Reaches, Grows;
    var s0 := Do(p, s, Begin(k));
    StepKeeps(p, s, Begin(k));
    Unfold(p, s0);
    DriveReaches(p, s0, k);
    ReachesSelf(p, s);
    ReachesStep(p, s, s, Begin(k));
    ReachesTransitive(p, s, s0, ReconcileNow(p, s, k));
  }

  // ---- What the settled store says ----

  /** The entry of `k` is its spec and its status is what a successful reconcile makes of it. */
  ghost predicate UpToDate(p: Params, st: Store, k: FnKey) {
    && OwnsReadyRoute(p, st, k) && st.cm.Some? && ConfigShape(st.cm.value)
    && var f, key := st.fns[k], HostKey(RouteName(p, k));
       && key in Entries(st.cm.value) && Entries(st.cm.value)[key] == f.spec
       && f.status == FinalStatus(p, f, st.routes[RouteName(p, k)])
  }

  predicate AnnotationCurrent(st: Store) {
    st.cm.Some? && st.svc.Some? && Annotation(st.svc.value.spec) == Some(st.cm.value.version)
  }

  lemma StatusAfterMarks(p: Params, f: Function, r: Route)
    ensures var st := FinalStatus(p, f, r);
            && Plain(st, Ready) && Plain(st, ConfigMapSynced) && Plain(st, Addressable) && Plain(st, RouteReady) && Plain(st, ServiceReady)
            && st.address == At(Url("http", RouteHost(r.name, ROUTE_NAMESPACE, p.domain)))
            && st.url == r.url && st.observedGeneration == f.generation
  {
    hide InitializeConditions, SetCondition;
  }

  /** A successful reconcile of a Function that was reconciled successfully finds its status unchanged. */
  lemma FinalStatusIsFinal(p: Params, f: Function, r: Route, version: Version)
    ensures var final := FinalStatus(p, f, r);
            FinalStatus(p, f.(status := final, version := version), r) == final
  {
    var final := FinalStatus(p, f, r);
    StatusAfterMarks(p, f, r);
    hide FinalStatus;
    InitializeIdle(final);
    RemarkingIsIdle(final, RouteReady);
    RemarkingIsIdle(final, ConfigMapSynced);
    RemarkingIsIdle(final, ServiceReady);
    RemarkingIsIdle(final, Addressable);
    FinalStatusDef(p, f.(status := final, version := version), r);
  }

  lemma FinalStatusDef(p: Params, f: Function, r: Route)
    ensures FinalStatus(p, f, r) == PublishedStatus(p, f, MarkTrue(MarkTrue(InitializeConditions(f.status), RouteReady), ConfigMapSynced), r)
  {
  }

  lemma InitializeIdle(st: Status)
    requires Plain(st, Ready) && Plain(st, ConfigMapSynced) && Plain(st, Addressable)
    ensures InitializeConditions(st) == st
  {
  }

  lemma ConfigEffect(st: Store, key: string, spec: Json)
    requires st.cm.Some? && ConfigShape(st.cm.value)
    ensures var st' := PutConfig(st, MergedData(st.cm.value, key, spec));
            && st'.cm.Some? && ConfigShape(st'.cm.value) && Entries(st'.cm.value) == Entries(st.cm.value)[key := spec]
            && st'.svc == st.svc && st'.routes == st.routes && st'.fns == st.fns
  {
  }

  lemma ServiceEffect(st: Store, x: Service, v: Version)
    requires x.spec.annotations.Annotations?
    ensures var st' := PutService(st, Annotate(x, v).spec, x.readiness);
            && st'.svc.Some? && Annotation(st'.svc.value.spec) == Some(v) && SameService(x, st'.svc.value)
            && st'.cm == st.cm && st'.routes == st.routes && st'.fns == st.fns
  {
  }

  lemma FunctionEffect(st: Store, k: FnKey, f: Function)
    requires k in st.fns
    ensures var st' := PutFunction(st, k, f);
            && st'.fns.Keys == st.fns.Keys && (forall j :: j in st.fns && j != k ==> st'.fns[j] == st.fns[j])
            && st'.fns[k] == f.(version := st'.fns[k].version)
            && st'.cm == st.cm && st'.routes == st.routes && st'.svc == st.svc
  {
  }

  /** Of two Services only the version and the annotation that names a ConfigMap version may differ. */
  predicate SameService(x: Service, y: Service) {
    && y.readiness == x.readiness && x.spec.annotations.Annotations? && y.spec.annotations.Annotations?
    && y.spec == x.spec.(annotations := y.spec.annotations)
    && y.spec.annotations.values - {CONFIG_MAP_ANNOTATION} == x.spec.annotations.values - {CONFIG_MAP_ANNOTATION}
  }

  /** How one settled store follows from another. */
  ghost predicate SettledFrom(p: Params, st: Store, st': Store, k: FnKey)
    requires OwnsReadyRoute(p, st, k) && st.cm.Some? && ConfigShape(st.cm.value) && st.svc.Some?
  {
    && st'.cm.Some? && ConfigShape(st'.cm.value)
    && Entries(st'.cm.value) == Entries(st.cm.value)[HostKey(RouteName(p, k)) := st.fns[k].spec]
    && st'.routes == st.routes && st'.fns.Keys == st.fns.Keys
    && (forall j :: j in st.fns && j != k ==> st'.fns[j] == st.fns[j])
    && st'.fns[k] == st.fns[k].(status := FinalStatus(p, st.fns[k], st.routes[RouteName(p, k)]), version := st'.fns[k].version)
    && st'.svc.Some? && SameService(st.svc.value, st'.svc.value)
  }

  lemma SettledStoreFacts(p: Params, st: Store, k: FnKey)
    requires OwnsReadyRoute(p, st, k) && st.cm.Some? && ConfigShape(st.cm.value)
    requires st.svc.Some? && st.svc.value.spec.annotations.Annotations?
    ensures var st' := SettledStore(p, st, k);
            SettledFrom(p, st, st', k) && UpToDate(p, st', k) && AnnotationCurrent(st')
  {
    hide FinalStatus, PutConfig, PutService, PutFunction, MergedData, Annotate, Annotation, HostKey, RouteName, ConfigShape, Entries;
    var f, r, x, key := st.fns[k], st.routes[RouteName(p, k)], st.svc.value, HostKey(RouteName(p, k));
    var st1 := PutConfig(st, MergedData(st.cm.value, key, f.spec));
    ConfigEffect(st, key, f.spec);
    var st2 := PutService(st1, Annotate(x, st1.cm.value.version).spec, x.readiness);
    ServiceEffect(st1, x, st1.cm.value.version);
    FunctionEffect(st2, k, f.(status := FinalStatus(p, f, r)));
    var f' := SettledStore(p, st, k).fns[k];
    FinalStatusIsFinal(p, f, r, f'.version);
    assert f' == f.(status := FinalStatus(p, f, r), version := f'.version);
  }

  /** Nothing is left to do: the store stays as it is. */
  lemma SettledStoreIdle(p: Params, st: Store, k: FnKey)
    requires UpToDate(p, st, k) && AnnotationCurrent(st)
    ensures SettledStore(p, st, k) == st
  {
    hide FinalStatus;
    var cm, key := st.cm.value, HostKey(RouteName(p, k));
    assert Entries(cm)[key := st.fns[k].spec] == Entries(cm);
    assert cm.data.files[CONFIG_FILE := Object(Entries(cm))] == cm.data.files;
    AnnotateIdle(st, st.svc.value, cm.version);
  }

  // ---- A pass over several Functions ----

  ghost predicate AllFree(s: State, order: seq<FnKey>) { forall i :: 0 <= i < |order| ==> Free(s, order[i]) }

  ghost predicate AllSettled(p: Params, s: State, order: seq<FnKey>) { forall i :: 0 <= i < |order| ==> Settled(p, s, order[i]) }

  /** Reconciles the Functions one after the other. */
  ghost function Pass(p: Params, s: State, order: seq<FnKey>): State
    requires Inv(p, s) && AllFree(s, order)
    decreases |order|
  {
    if order == [] then s
    else
      ReconcileIsARun(p, s, order[0]);
      Pass(p, ReconcileNow(p, s, order[0]), order[1..])
  }

  /** A pass is a run of the protocol like any other. */
  lemma {:induction false} PassIsARun(p: Params, s: State, order: seq<FnKey>)
    requires Inv(p, s) && AllFree(s, order)
    ensures Inv(p, Pass(p, s, order)) && Reaches(p, s, Pass(p, s, order))
    decreases |order|
  {
    hide Inv, ReconcileNow, Reaches;
    if order == [] {
      ReachesSelf(p, s);
    } else {
      ReconcileIsARun(p, s, order[0]);
      PassIsARun(p, ReconcileNow(p, s, order[0]), order[1..]);
      ReachesTransitive(p, s, ReconcileNow(p, s, order[0]), Pass(p, s, order));
    }
  }

  /** All that may differ after a pass: the statuses of its Functions, which are final now, their versions,
      the entries at their keys, and the annotation. */
  ghost predicate SameButFor(p: Params, st: Store, st': Store, order: seq<FnKey>)
    requires st.cm.Some? && ConfigShape(st.cm.value) && st'.cm.Some? && ConfigShape(st'.cm.value)
  {
    && st'.routes == st.routes && FunctionsFinal(p, st, st', order)
    && (st'.svc == st.svc || (st.svc.Some? && st'.svc.Some? && SameService(st.svc.value, st'.svc.value)))
    && (forall key :: KeyAmong(p, order, key) || (key in Entries(st'.cm.value) <==> key in Entries(st.cm.value)))
    && (forall key :: key in Entries(st.cm.value) && !KeyAmong(p, order, key) ==>
          key in Entries(st'.cm.value) && Entries(st'.cm.value)[key] == Entries(st.cm.value)[key])
  }

  ghost predicate FunctionsFinal(p: Params, st: Store, st': Store, order: seq<FnKey>) {
    && st'.fns.Keys == st.fns.Keys
    && (forall j :: j in st.fns && j !in order ==> st'.fns[j] == st.fns[j])
    && (forall j :: j in st.fns && j in order ==>
          && RouteName(p, j) in st.routes
          && st'.fns[j] == st.fns[j].(status := FinalStatus(p, st.fns[j], st.routes[RouteName(p, j)]), version := st'.fns[j].version))
  }

  ghost predicate KeyAmong(p: Params, order: seq<FnKey>, key: string) {
    exists i :: 0 <= i < |order| && key == HostKey(RouteName(p, order[i]))
  }

  /** Two Functions that own Routes have different keys. */
  lemma OwnersHaveDistinctKeys(p: Params, s: State, j: FnKey, k: FnKey)
    requires Inv(p, s) && OwnsReadyRoute(p, s.store, j) && OwnsReadyRoute(p, s.store, k)
    ensures HostKey(RouteName(p, j)) == HostKey(RouteName(p, k)) ==> j == k
  {
    hide Inv, StoreOk, LogOk, RunsOk, CrdsOk, OwnersOk, ConfirmedOk, CommitsOk, ImageOk, SpecsOk, Sound, HostKey, RouteName;
    Unfold(p, s);
    HostKeysDistinct(RouteName(p, j), RouteName(p, k));
    assert Known(s.log, j, s.store.fns[j]) && Known(s.log, k, s.store.fns[k]);
  }

  lemma StillUpToDate(p: Params, s: State, st': Store, k: FnKey, j: FnKey)
    requires Inv(p, s) && s.store.cm.Some? && ConfigShape(s.store.cm.value) && s.store.svc.Some?
    requires OwnsReadyRoute(p, s.store, k) && SettledFrom(p, s.store, st', k) && j != k
    ensures OwnsReadyRoute(p, s.store, j) ==> OwnsReadyRoute(p, st', j)
    ensures UpToDate(p, s.store, j) ==> UpToDate(p, st', j)
  {
    hide Inv, FinalStatus, HostKey, RouteName, ConfigShape, SameService;
    if OwnsReadyRoute(p, s.store, j) { OwnersHaveDistinctKeys(p, s, j, k); }
  }

  lemma OneDiffers(p: Params, st: Store, st': Store, k: FnKey)
    requires st.cm.Some? && ConfigShape(st.cm.value) && st.svc.Some?
    requires OwnsReadyRoute(p, st, k) && SettledFrom(p, st, st', k)
    ensures SameButFor(p, st, st', [k])
  {
    hide HostKey, RouteName, ConfigShape, FinalStatus, SameService;
    assert KeyAmong(p, [k], HostKey(RouteName(p, k))) by { assert HostKey(RouteName(p, k)) == HostKey(RouteName(p, [k][0])); }
  }

  lemma StillSettled(p: Params, s: State, s': State, k: FnKey, j: FnKey)
    requires Settled(p, s, k) && Settled(p, s, j) && Inv(p, s') && s'.runs == s.runs[k := Done(None)]
    requires ConfigShape(s.store.cm.value) && SettledFrom(p, s.store, s'.store, k)
    ensures Settled(p, s', j)
  {
    hide Inv, HostKey, RouteName, ConfigShape;
    if j != k { StillUpToDate(p, s, s'.store, k, j); }
  }

  lemma OneSettles(p: Params, s: State, k: FnKey, others: seq<FnKey>)
    requires Settled(p, s, k) && AllSettled(p, s, others)
    ensures var s' := ReconcileNow(p, s, k);
            && AllSettled(p, s', others) && Settled(p, s', k)
            && UpToDate(p, s'.store, k) && AnnotationCurrent(s'.store)
            && ConfigShape(s.store.cm.value) && s'.store.cm.Some? && ConfigShape(s'.store.cm.value)
            && SameButFor(p, s.store, s'.store, [k])
            && (forall j :: UpToDate(p, s.store, j) ==> UpToDate(p, s'.store, j))
  {
    ReconcileSettles(p, s, k);
    SettledStoreFacts(p, s.store, k);
    var s' := ReconcileNow(p, s, k);
    OneDiffers(p, s.store, s'.store, k);
    assert s.store.svc.Some? && OwnsReadyRoute(p, s.store, k);
    hide Inv, ReconcileNow, SettledStore, HostKey, RouteName, Reaches, StoreOk, UpToDate, ConfigShape, AnnotationCurrent, SameButFor,
         OwnsReadyRoute, Settled;
    forall j | UpToDate(p, s.store, j) ensures UpToDate(p, s'.store, j) {
      if j != k { StillUpToDate(p, s, s'.store, k, j); }
    }
    forall i | 0 <= i < |others| ensures Settled(p, s', others[i]) {
      StillSettled(p, s, s', k, others[i]);
    }
    StillSettled(p, s, s', k, k);
  }

  lemma SameButForChains(p: Params, a: Store, b: Store, c: Store, k: FnKey, rest: seq<FnKey>)
    requires a.cm.Some? && ConfigShape(a.cm.value) && b.cm.Some? && ConfigShape(b.cm.value) && c.cm.Some? && ConfigShape(c.cm.value)
    requires SameButFor(p, a, b, [k]) && SameButFor(p, b, c, rest)
    ensures SameButFor(p, a, c, [k] + rest)
  {
    hide KeyAmong, ConfigShape, FunctionsFinal;
    forall key ensures KeyAmong(p, [k] + rest, key) <==> KeyAmong(p, [k], key) || KeyAmong(p, rest, key) {
      AmongParts(p, k, rest, key);
    }
    FinalChains(p, a, b, c, k, rest);
  }

  /** A final status is not changed by a further reconcile, so a Function may occur twice. */
  lemma FinalChains(p: Params, a: Store, b: Store, c: Store, k: FnKey, rest: seq<FnKey>)
    requires b.routes == a.routes && FunctionsFinal(p, a, b, [k]) && FunctionsFinal(p, b, c, rest)
    ensures FunctionsFinal(p, a, c, [k] + rest)
  {
    hide FinalStatus, RouteName;
    forall j | j in a.fns && j in [k] + rest
      ensures RouteName(p, j) in a.routes
      ensures c.fns[j] == a.fns[j].(status := FinalStatus(p, a.fns[j], a.routes[RouteName(p, j)]), version := c.fns[j].version)
    {
      if j == k && j in rest {
        FinalStatusIsFinal(p, a.fns[j], a.routes[RouteName(p, j)], b.fns[j].version);
      }
    }
  }

  lemma AmongParts(p: Params, k: FnKey, rest: seq<FnKey>, key: string)
    ensures KeyAmong(p, [k] + rest, key) <==> KeyAmong(p, [k], key) || KeyAmong(p, rest, key)
  {
    hide HostKey, RouteName;
    var all := [k] + rest;
    if KeyAmong(p, [k], key) { assert key == HostKey(RouteName(p, all[0])); }
    if KeyAmong(p, rest, key) {
      var i :| 0 <= i < |rest| && key == HostKey(RouteName(p, rest[i]));
      assert key == HostKey(RouteName(p, all[i + 1]));
    }
    if KeyAmong(p, all, key) {
      var i :| 0 <= i < |all| && key == HostKey(RouteName(p, all[i]));
      if i > 0 { assert key == HostKey(RouteName(p, rest[i - 1])); } else { assert key == HostKey(RouteName(p, [k][0])); }
    }
  }

  lemma OneKeeps(p: Params, s: State, k: FnKey, j: FnKey)
    requires Settled(p, s, k) && Settled(p, s, j)
    ensures var s' := ReconcileNow(p, s, k);
            && Inv(p, s') && Settled(p, s', j) && (UpToDate(p, s.store, j) ==> UpToDate(p, s'.store, j))
  {
    assert AllSettled(p, s, [j]);
    hide Inv, UpToDate, AnnotationCurrent, SameButFor, ConfigShape, ReconcileNow, Settled;
    OneSettles(p, s, k, [j]);
    ReconcileIsARun(p, s, k);
    assert Settled(p, ReconcileNow(p, s, k), [j][0]);
  }

  lemma TailSettled(p: Params, s: State, order: seq<FnKey>)
    requires AllSettled(p, s, order) && order != []
    ensures AllSettled(p, s, order[1..]) && Settled(p, s, order[0]) && Inv(p, s) && Free(s, order[0])
  {
    hide Inv;
  }

  /** What holds of one Function is kept by a pass over others, or over itself. */
  lemma {:induction false} PassKeeps(p: Params, s: State, order: seq<FnKey>, j: FnKey)
    requires Inv(p, s) && AllFree(s, order) && AllSettled(p, s, order) && Settled(p, s, j)
    ensures var s' := Pass(p, s, order);
            Settled(p, s', j) && (UpToDate(p, s.store, j) ==> UpToDate(p, s'.store, j))
    decreases |order|
  {
    hide Inv, UpToDate, ReconcileNow, Settled, AllSettled, Free;
    if order != [] {
      TailSettled(p, s, order);
      OneKeeps(p, s, order[0], j);
      AfterFirst(p, s, order);
      PassKeeps(p, ReconcileNow(p, s, order[0]), order[1..], j);
    }
  }

  lemma AfterFirst(p: Params, s: State, order: seq<FnKey>)
    requires Inv(p, s) && AllFree(s, order) && AllSettled(p, s, order) && order != []
    ensures Free(s, order[0])
    ensures var s1 := ReconcileNow(p, s, order[0]);
            && Inv(p, s1) && AllFree(s1, order[1..]) && AllSettled(p, s1, order[1..])
            && Settled(p, s1, order[0]) && UpToDate(p, s1.store, order[0]) && AnnotationCurrent(s1.store)
            && s.store.cm.Some? && ConfigShape(s.store.cm.value) && s1.store.cm.Some? && ConfigShape(s1.store.cm.value)
            && SameButFor(p, s.store, s1.store, [order[0]])
            && Pass(p, s, order) == Pass(p, s1, order[1..])
  {
    TailSettled(p, s, order);
    OneSettles(p, s, order[0], order[1..]);
    ReconcileIsARun(p, s, order[0]);
    assert s.store.cm.Some?;
    hide Inv, UpToDate, AnnotationCurrent, SameButFor, ConfigShape, ReconcileNow, Settled;
  }

  lemma PassEnds(p: Params, s: State, order: seq<FnKey>)
    requires Inv(p, s) && AllFree(s, order) && order == []
    ensures Pass(p, s, order) == s
  {
  }

  lemma SameButForSelf(p: Params, st: Store)
    requires st.cm.Some? && ConfigShape(st.cm.value)
    ensures SameButFor(p, st, st, [])
  {
  }

  /** After one pass, in any order, over Functions that own ready Routes: every one of them has its spec in
      the configuration and a final status, the Service names the current ConfigMap version, and nothing
      else has changed. */
  lemma {:induction false} PassSettles(p: Params, s: State, order: seq<FnKey>)
    requires Inv(p, s) && AllFree(s, order) && AllSettled(p, s, order) && s.store.cm.Some? && ConfigShape(s.store.cm.value)
    ensures var s' := Pass(p, s, order);
            && s'.store.cm.Some? && ConfigShape(s'.store.cm.value)
            && (forall i :: 0 <= i < |order| ==> Settled(p, s', order[i]) && UpToDate(p, s'.store, order[i]))
            && (order != [] ==> AnnotationCurrent(s'.store))
            && SameButFor(p, s.store, s'.store, order)
    decreases |order|
  {
    hide Inv, UpToDate, AnnotationCurrent, SameButFor, ConfigShape, ReconcileNow, Settled, AllSettled, Free, AllFree, Pass;
    if order == [] {
      PassEnds(p, s, order);
      SameButForSelf(p, s.store);
    } else {
      var k, rest := order[0], order[1..];
      assert order == [k] + rest;
      AfterFirst(p, s, order);
      var s1 := ReconcileNow(p, s, k);
      PassSettles(p, s1, rest);
      PassKeeps(p, s1, rest, k);
      SameButForChains(p, s.store, s1.store, Pass(p, s, order).store, k, rest);
      if rest == [] { PassEnds(p, s1, rest); }
    }
  }

  ghost predicate SameMembers(a: seq<FnKey>, b: seq<FnKey>) { forall k :: k in a <==> k in b }

  /** The order of a pass does not matter: the configuration is the same, and so is every Function but for
      the version its status was stored under. */
  lemma OrderDoesNotMatter(p: Params, s: State, a: seq<FnKey>, b: seq<FnKey>)
    requires Inv(p, s) && s.store.cm.Some? && ConfigShape(s.store.cm.value) && SameMembers(a, b)
    requires AllFree(s, a) && AllSettled(p, s, a) && AllFree(s, b) && AllSettled(p, s, b)
    ensures var x, y := Pass(p, s, a).store, Pass(p, s, b).store;
            && x.cm.Some? && ConfigShape(x.cm.value) && y.cm.Some? && ConfigShape(y.cm.value)
            && Entries(x.cm.value) == Entries(y.cm.value)
            && x.routes == y.routes && x.fns.Keys == y.fns.Keys
            && forall j :: j in x.fns ==> x.fns[j] == y.fns[j].(version := x.fns[j].version)
  {
    hide Inv, Pass, Settled, AllSettled, AllFree, Free, SameButFor, UpToDate, AnnotationCurrent, ConfigShape, SameMembers;
    PassSettles(p, s, a);
    PassSettles(p, s, b);
    var x, y := Pass(p, s, a).store, Pass(p, s, b).store;
    hide *;
    SameFunctions(p, s.store, x, y, a, b);
    forall key ensures key in Entries(x.cm.value) <==> key in Entries(y.cm.value)
               ensures key in Entries(x.cm.value) ==> Entries(x.cm.value)[key] == Entries(y.cm.value)[key]
    {
      SameKey(p, s.store, x, y, a, b, key);
    }
  }

  lemma SameFunctions(p: Params, st: Store, x: Store, y: Store, a: seq<FnKey>, b: seq<FnKey>)
    requires st.cm.Some? && ConfigShape(st.cm.value) && x.cm.Some? && ConfigShape(x.cm.value) && y.cm.Some? && ConfigShape(y.cm.value)
    requires SameButFor(p, st, x, a) && SameButFor(p, st, y, b) && SameMembers(a, b)
    ensures x.routes == y.routes && x.fns.Keys == y.fns.Keys
    ensures forall j :: j in x.fns ==> x.fns[j] == y.fns[j].(version := x.fns[j].version)
  {
    hide KeyAmong, ConfigShape, FinalStatus, RouteName, SameService;
    forall j | j in x.fns ensures x.fns[j] == y.fns[j].(version := x.fns[j].version) {
      assert j in a <==> j in b;
    }
  }

  lemma SameKey(p: Params, st: Store, x: Store, y: Store, a: seq<FnKey>, b: seq<FnKey>, key: string)
    requires st.cm.Some? && ConfigShape(st.cm.value) && x.cm.Some? && ConfigShape(x.cm.value) && y.cm.Some? && ConfigShape(y.cm.value)
    requires SameButFor(p, st, x, a) && SameButFor(p, st, y, b) && SameMembers(a, b)
    requires forall i :: 0 <= i < |a| ==> UpToDate(p, x, a[i])
    requires forall i :: 0 <= i < |b| ==> UpToDate(p, y, b[i])
    ensures key in Entries(x.cm.value) <==> key in Entries(y.cm.value)
    ensures key in Entries(x.cm.value) ==> Entries(x.cm.value)[key] == Entries(y.cm.value)[key]
  {
    hide HostKey, RouteName, FinalStatus, ConfigShape;
    AmongSame(p, a, b, key);
    AmongSame(p, b, a, key);
    if KeyAmong(p, a, key) {
      var i :| 0 <= i < |a| && key == HostKey(RouteName(p, a[i]));
      assert a[i] in b;
      var j :| 0 <= j < |b| && b[j] == a[i];
      assert UpToDate(p, x, a[i]) && UpToDate(p, y, b[j]);
    }
  }

  lemma AmongSame(p: Params, a: seq<FnKey>, b: seq<FnKey>, key: string)
    requires SameMembers(a, b)
    ensures KeyAmong(p, a, key) ==> KeyAmong(p, b, key)
  {
    hide HostKey, RouteName;
    if KeyAmong(p, a, key) {
      var i :| 0 <= i < |a| && key == HostKey(RouteName(p, a[i]));
      assert a[i] in b;
      var j :| 0 <= j < |b| && b[j] == a[i];
      assert key == HostKey(RouteName(p, b[j]));
    }
  }

  lemma IdleReconcile(p: Params, s: State, k: FnKey)
    requires Settled(p, s, k) && UpToDate(p, s.store, k) && AnnotationCurrent(s.store)
    ensures ReconcileNow(p, s, k).store == s.store
  {
    ReconcileSettles(p, s, k);
    SettledStoreIdle(p, s.store, k);
  }

  /** When nothing is left to do, a pass leaves the whole store alone: content, versions and statuses. */
  lemma {:induction false} IdlePass(p: Params, s: State, order: seq<FnKey>)
    requires Inv(p, s) && AllFree(s, order) && AllSettled(p, s, order) && AnnotationCurrent(s.store)
    requires forall i :: 0 <= i < |order| ==> UpToDate(p, s.store, order[i])
    ensures Pass(p, s, order).store == s.store
    decreases |order|
  {
    hide Inv, UpToDate, AnnotationCurrent, SameButFor, ConfigShape, ReconcileNow, Settled, AllSettled, Free, AllFree, Pass;
    if order == [] {
      PassEnds(p, s, order);
    } else {
      TailSettled(p, s, order);
      AfterFirst(p, s, order);
      IdleReconcile(p, s, order[0]);
      IdlePass(p, ReconcileNow(p, s, order[0]), order[1..]);
    }
  }

  /** A second pass, in whatever order, changes no content, no version and no status. */
  lemma SecondPassIsIdle(p: Params, s: State, order: seq<FnKey>, again: seq<FnKey>)
    requires Inv(p, s) && AllFree(s, order) && AllSettled(p, s, order) && order != []
    requires forall k :: k in again ==> k in order
    ensures var s' := Pass(p, s, order);
            Inv(p, s') && AllFree(s', again) && Pass(p, s', again).store == s'.store
  {
    assert Settled(p, s, order[0]);
    SettledFacts(p, s, order[0]);
    PassSettles(p, s, order);
    PassIsARun(p, s, order);
    var s' := Pass(p, s, order);
    hide Inv, Pass, UpToDate, AnnotationCurrent, ConfigShape, SameButFor, OwnsReadyRoute;
    forall i | 0 <= i < |again| ensures Settled(p, s', again[i]) && UpToDate(p, s'.store, again[i]) {
      assert again[i] in order;
      var j :| 0 <= j < |order| && order[j] == again[i];
      assert Settled(p, s', order[j]) && UpToDate(p, s'.store, order[j]);
    }
    IdlePass(p, s', again);
  }

  // ---- What the statuses say afterwards ----

  /** After a pass every Function of it is Ready with every condition True, and publishes its current
      generation, the address of its Route and the URL of its Route. */
  lemma PassMakesReady(p: Params, s: State, order: seq<FnKey>, k: FnKey)
    requires Inv(p, s) && AllFree(s, order) && AllSettled(p, s, order) && k in order
    ensures var st, n := Pass(p, s, order).store, RouteName(p, k);
            && k in st.fns && n in st.routes && IsTrue(st.fns[k].status, Ready)
            && (forall t :: Plain(st.fns[k].status, t))
            && st.fns[k].status.observedGeneration == st.fns[k].generation
            && st.fns[k].status.address == At(Url("http", n + ".knative-functions.svc." + p.domain))
            && st.fns[k].status.url == st.routes[n].url
  {
    hide Inv, Pass, AllFree, Settled, SameButFor, FinalStatus, Plain, ConfigShape, RouteName, HostKey, Entries;
    var i :| 0 <= i < |order| && order[i] == k;
    assert Settled(p, s, order[i]);
    SettledHasConfig(p, s, k);
    PassSettles(p, s, order);
    PassIsARun(p, s, order);
    var s' := Pass(p, s, order);
    assert UpToDate(p, s'.store, order[i]);
    RouteIsNamed(p, s', k);
    FinalStatusSays(p, s'.store.fns[k], s'.store.routes[RouteName(p, k)]);
  }

  lemma SettledHasConfig(p: Params, s: State, k: FnKey)
    requires Settled(p, s, k)
    ensures s.store.cm.Some? && ConfigShape(s.store.cm.value)
  {
    SettledFacts(p, s, k);
    hide Inv, OwnsReadyRoute;
  }

  lemma RouteIsNamed(p: Params, s: State, k: FnKey)
    requires Inv(p, s) && RouteName(p, k) in s.store.routes
    ensures s.store.routes[RouteName(p, k)].name == RouteName(p, k)
  {
    Unfold(p, s);
    hide Inv, LogOk, RunsOk, CrdsOk, ConfigsOk, ServicesOk, RouteName;
  }

  lemma FinalStatusSays(p: Params, f: Function, r: Route)
    ensures var st := FinalStatus(p, f, r);
            && (forall t :: Plain(st, t)) && IsTrue(st, Ready) && st.observedGeneration == f.generation && st.url == r.url
            && st.address == At(Url("http", r.name + ".knative-functions.svc." + p.domain))
  {
    StatusAfterMarks(p, f, r);
    HostParts(r.name, ROUTE_NAMESPACE, p.domain);
    hide FinalStatus, RouteHost, Split;
    var st := FinalStatus(p, f, r);
    forall t ensures Plain(st, t) {
      match t
      case Ready => case ConfigMapSynced => case Addressable => case RouteReady => case ServiceReady =>
    }
  }

  // ---- The annotation can go back ----

  /** With a CRD reconcile under way the annotation can go back, whenever that reconcile read the ConfigMap
      before a Function's reconcile changed it: the CRD reconcile then writes the older version. */
  lemma AnnotationCanGoBack(p: Params, s: State, k: FnKey, c: string, image: string)
    requires Settled(p, s, k) && !UpToDate(p, s.store, k)
    requires ConfigShape(s.store.cm.value)
    requires HostKey(RouteName(p, k)) in Entries(s.store.cm.value) ==>
               Entries(s.store.cm.value)[HostKey(RouteName(p, k))] != s.store.fns[k].spec
    requires c in s.crds && s.crds[c] == CrdReadingImage(s.store.cm.value.version)
    ensures exists s', step ::
              && Reaches(p, s, s') && Enabled(p, s', step) && Reaches(p, s, Do(p, s', step))
              && HasAnnotation(s') && HasAnnotation(Do(p, s', step))
              && AnnotationOf(Do(p, s', step)) < AnnotationOf(s')
  {
    var v := s.store.cm.value.version;
    ReconcileSettles(p, s, k);
    SettledStoreFacts(p, s.store, k);
    SettledIsNewer(p, s.store, k);
    Unfold(p, s);
    var s1 := ReconcileNow(p, s, k);
    assert ServicesOk(s1.store) by { Unfold(p, s1); }
    hide Inv, ReconcileNow, SettledStore, StoreOk, ServicesOk, LogOk, RunsOk, CrdsOk, Reaches, UpToDate, Settled;
    var s3 := CrdOvertaken(p, s, s1, c, v, image);
  }

  lemma SettledIsNewer(p: Params, st: Store, k: FnKey)
    requires StoreOk(p, st) && OwnsReadyRoute(p, st, k) && st.cm.Some? && ConfigShape(st.cm.value)
    requires st.svc.Some? && st.svc.value.spec.annotations.Annotations?
    requires HostKey(RouteName(p, k)) in Entries(st.cm.value) ==> Entries(st.cm.value)[HostKey(RouteName(p, k))] != st.fns[k].spec
    ensures SettledStore(p, st, k).cm.Some? && st.cm.value.version < SettledStore(p, st, k).cm.value.version
  {
    hide FinalStatus, HostKey, RouteName;
    var key, spec := HostKey(RouteName(p, k)), st.fns[k].spec;
    assert Entries(st.cm.value)[key := spec] != Entries(st.cm.value) by {
      assert Entries(st.cm.value)[key := spec][key] == spec;
    }
    assert MergedData(st.cm.value, key, spec) != st.cm.value.data;
  }

  function OvertakingReply(p: Params, st: Store, v: Version, image: string): Reply
    requires st.svc.Some?
  {
    GotService(PutService(st, MakeServiceSpec(p.functionName, v, image), st.svc.value.readiness).svc.value)
  }

  /** The last request of an overtaken CRD reconcile: it writes the version that it read. */
  lemma CrdOvertakes(p: Params, s: State, c: string, v: Version, image: string)
    requires c in s.crds && s.store.svc.Some? && s.crds[c] == CrdUpdatingService(v, image, s.store.svc.value)
    requires AnnotationCurrent(s.store) && v < s.store.cm.value.version
    ensures var step := CrdServe(c, true, OvertakingReply(p, s.store, v, image));
            && Enabled(p, s, step) && HasAnnotation(s) && HasAnnotation(Do(p, s, step))
            && AnnotationOf(Do(p, s, step)) < AnnotationOf(s)
  {
    var step := CrdServe(c, true, OvertakingReply(p, s.store, v, image));
    CrdWrites(p, s, c, step.reply);
  }

  lemma CrdOvertaken(p: Params, s: State, s1: State, c: string, v: Version, image: string) returns (s3: State)
    requires Reaches(p, s, s1) && ServicesOk(s1.store) && c in s1.crds && s1.crds[c] == CrdReadingImage(v)
    requires AnnotationCurrent(s1.store) && v < s1.store.cm.value.version
    ensures s3.store.svc.Some?
    ensures var step := CrdServe(c, true, OvertakingReply(p, s3.store, v, image));
            && Reaches(p, s, s3) && Enabled(p, s3, step) && Reaches(p, s, Do(p, s3, step))
            && HasAnnotation(s3) && HasAnnotation(Do(p, s3, step))
            && AnnotationOf(Do(p, s3, step)) < AnnotationOf(s3)
  {
    var x := s1.store.svc.value;
    assert HeldService(s1.store, x);
    hide ServicesOk, Reaches, ServeStep, EventStep, EventEnabled, CanApply, Apply;
    var a := CrdServe(c, true, GotCrd(Some(image)));
    assert Enabled(p, s1, a) && Do(p, s1, a) == s1.(crds := s1.crds[c := CrdListingService(v, image)]) by { CrdReads(p, s1, c, a.reply); }
    ReachesStep(p, s, s1, a);
    var s2 := Do(p, s1, a);
    var b := CrdServe(c, true, GotService(x));
    assert MakeServiceSpec(p.functionName, v, image) != x.spec by {
      assert Annotation(MakeServiceSpec(p.functionName, v, image)) == Some(v);
    }
    assert Enabled(p, s2, b) && Do(p, s2, b) == s2.(crds := s2.crds[c := CrdUpdatingService(v, image, x)]) by {
      CrdReads(p, s2, c, b.reply);
    }
    ReachesStep(p, s, s2, b);
    s3 := Do(p, s2, b);
    hide Do, Enabled;
    CrdOvertakes(p, s3, c, v, image);
    ReachesStep(p, s, s3, CrdServe(c, true, OvertakingReply(p, s3.store, v, image)));
  }

  lemma CrdReads(p: Params, s: State, c: string, reply: Reply)
    requires c in s.crds && (s.crds[c].CrdReadingImage? || s.crds[c].CrdListingService?)
    requires ReplyAllowed(s.store, CrdRequestOf(p, s.crds[c]), true, reply)
    ensures Enabled(p, s, CrdServe(c, true, reply))
    ensures Do(p, s, CrdServe(c, true, reply)) == s.(crds := s.crds[c := CrdAdvance(p, s.crds[c], reply)])
  {
    hide CrdAdvance, ReplyAllowed;
  }
}
