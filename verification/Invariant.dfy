/** The inductive invariant of the protocol, and what no step ever takes back. */
module Invariant {
  import opened Names
  import opened Lifecycle
  import opened Cluster
  import opened Programs
  import opened Protocol

  // ---- The store ----

  /** The configuration file is there and decodes to an object. */
  predicate ConfigShape(cm: ConfigMap) {
    cm.data.Files? && CONFIG_FILE in cm.data.files && cm.data.files[CONFIG_FILE].Object?
  }

  function Entries(cm: ConfigMap): map<string, Json>
    requires ConfigShape(cm)
  {
    cm.data.files[CONFIG_FILE].entries
  }

  predicate Held(st: Store, cm: ConfigMap) { cm.version in st.oldConfigs && st.oldConfigs[cm.version] == cm }

  predicate HeldService(st: Store, x: Service) { x.version in st.oldServices && st.oldServices[x.version] == x }

  /** The Service names, in its annotation, a version under which the ConfigMap was once stored. */
  predicate ServiceShape(st: Store, spec: ServiceSpec) {
    spec.annotations.Annotations? && Annotation(spec).Some? && Annotation(spec).value in st.oldConfigs
  }

  ghost predicate ConfigsOk(st: Store) {
    && (st.cm.Some? ==> st.cm.value.version <= st.rev && Held(st, st.cm.value))
    && (st.cm.None? ==> st.oldConfigs == map[])
    && forall v :: v in st.oldConfigs ==>
         st.cm.Some? && v <= st.cm.value.version && st.oldConfigs[v].version == v && ConfigShape(st.oldConfigs[v])
  }

  ghost predicate ServicesOk(st: Store) {
    && (st.svc.Some? ==> st.svc.value.version <= st.rev && HeldService(st, st.svc.value))
    && (st.svc.None? ==> st.oldServices == map[])
    && forall v :: v in st.oldServices ==>
         && st.svc.Some? && v <= st.svc.value.version && st.oldServices[v].version == v
         && ServiceShape(st, st.oldServices[v].spec)
  }

  ghost predicate RoutesOk(p: Params, st: Store) {
    && (forall n :: n in st.routes ==> st.routes[n].name == n && st.routes[n] in st.oldRoutes)
    && forall r :: r in st.oldRoutes ==> r.name in st.routes && st.routes[r.name].owner == r.owner && RouteShape(p, r)
  }

  ghost predicate StoreOk(p: Params, st: Store) {
    && ConfigsOk(st) && ServicesOk(st) && RoutesOk(p, st)
    && forall k :: k in st.fns ==> st.fns[k].version <= st.rev
  }

  // ---- The log ----

  ghost predicate Known(log: Log, k: FnKey, f: Function) {
    && f.uid in log.home && log.home[f.uid] == k
    && (f.uid, f.generation) in log.specs && log.specs[(f.uid, f.generation)] == f.spec
    && (f.uid in log.confirmed ==> log.confirmed[f.uid] <= f.generation)
    && Sound(log, f.uid, f.status)
  }

  /** A published address means that some generation, at least the observed one, reached the configuration. */
  predicate AddressBacked(log: Log, uid: Uid, st: Status) {
    IsTrue(st, Addressable) ==> uid in log.confirmed && st.observedGeneration <= log.confirmed[uid]
  }

  ghost predicate Sound(log: Log, uid: Uid, st: Status) { Coherent(st) && AddressBacked(log, uid, st) }

  /** Commits applied in order. */
  function Replay(base: map<string, Json>, commits: seq<Commit>): map<string, Json> {
    if commits == [] then base
    else
      var last := commits[|commits| - 1];
      Replay(base, commits[..|commits| - 1])[last.key := last.spec]
  }

  /** The Function object `uid` controls the Route of its key. */
  predicate Controls(p: Params, s: State, uid: Uid) {
    && uid in s.log.home
    && var n := RouteName(p, s.log.home[uid]);
       n in s.store.routes && s.store.routes[n].owner == uid
  }

  function KeyOf(p: Params, log: Log, uid: Uid): string
    requires uid in log.home
  {
    HostKey(RouteName(p, log.home[uid]))
  }

  /** The configuration holds, at the key of `uid`, the spec of the generation that was confirmed last. */
  ghost predicate Confirmed(p: Params, s: State, uid: Uid)
    requires uid in s.log.confirmed
  {
    && Controls(p, s, uid)
    && s.store.cm.Some? && ConfigShape(s.store.cm.value)
    && (uid, s.log.confirmed[uid]) in s.log.specs
    && KeyOf(p, s.log, uid) in Entries(s.store.cm.value)
    && Entries(s.store.cm.value)[KeyOf(p, s.log, uid)] == s.log.specs[(uid, s.log.confirmed[uid])]
  }

  /** Only generations that a Function has had are recorded, so no recorded spec is ever overwritten. */
  ghost predicate SpecsOk(st: Store, log: Log) {
    forall u, g :: (u, g) in log.specs ==>
      && u in log.home
      && var k := log.home[u];
         k in st.fns && st.fns[k].uid == u ==> g <= st.fns[k].generation
  }

  ghost predicate FunctionsOk(s: State) {
    && SpecsOk(s.store, s.log)
    && forall k :: k in s.store.fns ==> Known(s.log, k, s.store.fns[k])
  }

  ghost predicate OwnersOk(p: Params, s: State) {
    && (forall u :: u in s.log.home ==> u !in s.log.foreign)
    && forall n :: n in s.store.routes ==>
         var u := s.store.routes[n].owner;
         if u in s.log.home then n == RouteName(p, s.log.home[u]) else u in s.log.foreign
  }

  ghost predicate ConfirmedOk(p: Params, s: State) {
    forall u :: u in s.log.confirmed ==> Confirmed(p, s, u)
  }

  ghost predicate CommitsOk(p: Params, s: State) {
    && (s.store.cm.Some? && ConfigShape(s.store.cm.value) ==> Entries(s.store.cm.value) == Replay(map[], s.log.commits))
    && (s.store.cm.None? ==> s.log.commits == [])
    && forall i :: 0 <= i < |s.log.commits| ==>
         Controls(p, s, s.log.commits[i].writer) && s.log.commits[i].key == KeyOf(p, s.log, s.log.commits[i].writer)
  }

  ghost predicate ImageOk(s: State) {
    s.store.svc.Some? ==> s.log.image == Some(s.store.svc.value.spec.image)
  }

  ghost predicate LogOk(p: Params, s: State) {
    FunctionsOk(s) && OwnersOk(p, s) && ConfirmedOk(p, s) && CommitsOk(p, s) && ImageOk(s)
  }

  // ---- The reconciles in flight ----

  /** The Function object that a reconcile of `k` read. */
  ghost predicate FnOk(s: State, k: FnKey, f: Function) {
    && Known(s.log, k, f)
    && f.version <= s.store.rev
    && (k in s.store.fns && s.store.fns[k].version == f.version ==> s.store.fns[k] == f)
    && (k in s.store.fns && s.store.fns[k].uid == f.uid ==> f.generation <= s.store.fns[k].generation)
  }

  ghost predicate SvcOk(s: State, x: Service) { HeldService(s.store, x) && ServiceShape(s.store, x.spec) && x.readiness.IsReady? }

  ghost predicate RouteOk(p: Params, s: State, k: FnKey, f: Function, r: Route) {
    && r in s.store.oldRoutes && r.name == RouteName(p, k) && r.owner == f.uid && r.readiness.IsReady?
    && Controls(p, s, f.uid)
    && AddressKey(r.address) == Some(HostKey(r.name))
  }

  ghost predicate RunOk(p: Params, s: State, k: FnKey, ph: Phase) {
    match ph
    case Fetching => true
    case CheckingService(f, st) => FnOk(s, k, f) && Sound(s.log, f.uid, st)
    case FindingRoute(f, st, x) => FnOk(s, k, f) && Sound(s.log, f.uid, st) && SvcOk(s, x)
    case CreatingRoute(f, st, x) => FnOk(s, k, f) && Sound(s.log, f.uid, st) && SvcOk(s, x)
    case GettingConfig(f, st, x, r) => FnOk(s, k, f) && Sound(s.log, f.uid, st) && SvcOk(s, x) && RouteOk(p, s, k, f, r)
    case WritingConfig(f, st, x, r, base, merged) =>
      && FnOk(s, k, f) && Sound(s.log, f.uid, st) && SvcOk(s, x) && RouteOk(p, s, k, f, r)
      && Held(s.store, base) && ConfigShape(base)
      && Merge(p.skipEqual, base, f.spec, r.address) == Rewrite(merged)
      && Annotation(x.spec).value <= base.version
    case WritingService(f, st, x, r, v) =>
      && FnOk(s, k, f) && Sound(s.log, f.uid, st) && SvcOk(s, x) && RouteOk(p, s, k, f, r)
      && f.uid in s.log.confirmed && s.log.confirmed[f.uid] == f.generation
      && v in s.store.oldConfigs && Annotation(x.spec).value <= v
    case WritingStatus(f, st, _) => FnOk(s, k, f) && Sound(s.log, f.uid, st)
    case Done(_) => true
    case Panicked => false
  }

  ghost predicate CrdOk(s: State, ph: CrdPhase) {
    match ph
    case CrdReadingImage(v) => v in s.store.oldConfigs
    case CrdListingService(v, _) => v in s.store.oldConfigs
    case CrdCreatingService(v, _) => v in s.store.oldConfigs
    case CrdUpdatingService(v, _, x) => v in s.store.oldConfigs && HeldService(s.store, x)
    case _ => true
  }

  ghost predicate RunsOk(p: Params, s: State) { forall k :: k in s.runs ==> RunOk(p, s, k, s.runs[k]) }

  ghost predicate CrdsOk(s: State) { forall c :: c in s.crds ==> CrdOk(s, s.crds[c]) }

  ghost predicate Inv(p: Params, s: State) {
    StoreOk(p, s.store) && LogOk(p, s) && RunsOk(p, s) && CrdsOk(s)
  }

  // ---- What no step ever takes back ----

  ghost predicate FnGrows(s: State, s': State, k: FnKey)
    requires k in s'.store.fns
  {
    var f' := s'.store.fns[k];
    && (f'.version > s.store.rev || (k in s.store.fns && f' == s.store.fns[k]))
    && (f'.uid in s.log.home ==>
          && k in s.store.fns && s.store.fns[k].uid == f'.uid
          && s.store.fns[k].generation <= f'.generation
          && (s.store.fns[k].deleting ==> f'.deleting))
  }

  ghost predicate StoreGrows(st: Store, st': Store) {
    && st.rev <= st'.rev
    && (forall v :: v in st.oldConfigs ==> v in st'.oldConfigs && st'.oldConfigs[v] == st.oldConfigs[v])
    && (forall v :: v in st.oldServices ==> v in st'.oldServices && st'.oldServices[v] == st.oldServices[v])
    && st.oldRoutes <= st'.oldRoutes
    && (forall n :: n in st.routes ==> n in st'.routes && st'.routes[n].owner == st.routes[n].owner)
  }

  ghost predicate LogGrows(log: Log, log': Log) {
    && (forall u :: u in log.home ==> u in log'.home && log'.home[u] == log.home[u])
    && (forall g :: g in log.specs ==> g in log'.specs && log'.specs[g] == log.specs[g])
    && (forall u :: u in log.confirmed ==> u in log'.confirmed && log.confirmed[u] <= log'.confirmed[u])
    && log.commits <= log'.commits
    && log.crdWrites <= log'.crdWrites
  }

  /** The store and the log only grow; a Function object keeps its identity and its generation never
      decreases. */
  ghost predicate Grows(s: State, s': State) {
    StoreGrows(s.store, s'.store) && LogGrows(s.log, s'.log) && forall k :: k in s'.store.fns ==> FnGrows(s, s', k)
  }

  /** A reconcile in flight stays in order when others act, as long as nobody else confirms for its Function. */
  lemma RunStable(p: Params, s: State, s': State, k: FnKey, ph: Phase)
    requires RunOk(p, s, k, ph) && Grows(s, s')
    requires forall u :: u in s'.log.confirmed && u in s.log.home && s.log.home[u] == k ==>
               u in s.log.confirmed && s'.log.confirmed[u] == s.log.confirmed[u]
    ensures RunOk(p, s', k, ph)
  {
  }

  lemma CrdStable(s: State, s': State, ph: CrdPhase)
    requires CrdOk(s, ph) && Grows(s, s')
    ensures CrdOk(s', ph)
  {
  }
}
