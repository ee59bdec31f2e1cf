/** Any number of reconciles of both kinds, interleaved request by request with each other, with crashes
    of the controller and with everything else that users and Knative Serving do to the cluster. */
module Protocol {
  import opened Names
  import opened Lifecycle
  import opened Cluster
  import opened Programs

  /** One configuration write that took effect. */
  datatype Commit = Commit(writer: Uid, key: string, spec: Json)

  /** What happened so far. None of it influences a step.
      home: which Function object has which key; foreign: Route owners of other kinds;
      specs: the spec of each generation; confirmed: the last generation that a reconcile of the Function
      wrote into the configuration or found there; image: the one in the last committed CRD reconcile;
      crdWrites: how many CRD reconciles committed. */
  datatype Log = Log(
    home: map<Uid, FnKey>,
    foreign: set<Uid>,
    specs: map<(Uid, nat), Json>,
    commits: seq<Commit>,
    confirmed: map<Uid, nat>,
    image: Option<string>,
    crdWrites: nat)

  datatype State = State(store: Store, log: Log, runs: map<FnKey, Phase>, crds: map<string, CrdPhase>)

  const INITIAL := State(EMPTY_STORE, Log(map[], {}, map[], [], map[], None, 0), map[], map[])

  datatype Event =
    | CreateFunction(k: FnKey, uid: Uid, spec: Json)
    | EditSpec(k: FnKey, spec: Json)
    | EditMetadata(k: FnKey)
    | MarkDeleting(k: FnKey)
    | RemoveFunction(k: FnKey)
    | ServiceProgress(readiness: Readiness)
    | RouteProgress(name: string, readiness: Readiness, address: RouteAddress, url: Option<Url>)
    | ForeignRoute(route: Route)

  /** Begin, Serve and Crash are about the reconcile of one Function; the Crd steps about that of one CRD;
      Other is anything that is not done by this controller. */
  datatype Step =
    | Begin(k: FnKey)
    | Serve(k: FnKey, applied: bool, reply: Reply)
    | Crash(k: FnKey)
    | CrdBegin(c: string)
    | CrdServe(c: string, applied: bool, reply: Reply)
    | CrdCrash(c: string)
    | Other(event: Event)

  /** A ready Route has a host made of its own dot-free name. */
  predicate RouteShape(p: Params, r: Route) {
    r.readiness.IsReady? ==> r.address == Host(RouteHost(r.name, ROUTE_NAMESPACE, p.domain)) && '.' !in r.name
  }

  predicate EventEnabled(p: Params, s: State, e: Event) {
    match e
    case CreateFunction(k, uid, _) => k !in s.store.fns && uid !in s.log.home && uid !in s.log.foreign
    case EditSpec(k, _) => k in s.store.fns
    case EditMetadata(k) => k in s.store.fns
    case MarkDeleting(k) => k in s.store.fns
    case RemoveFunction(k) => k in s.store.fns
    case ServiceProgress(_) => s.store.svc.Some?
    case RouteProgress(n, ready, address, url) =>
      n in s.store.routes && RouteShape(p, Route(n, s.store.routes[n].owner, ready, address, url))
    case ForeignRoute(r) => r.name !in s.store.routes && r.owner !in s.log.home && RouteShape(p, r)
  }

  /** No reconcile of the Function, or of the CRD, is under way. */
  predicate Free(s: State, k: FnKey) { k !in s.runs || s.runs[k].Done? }

  predicate CrdFree(s: State, c: string) { c !in s.crds || s.crds[c].CrdDone? }

  predicate Enabled(p: Params, s: State, step: Step) {
    match step
    case Begin(k) => Free(s, k)
    case Serve(k, applied, reply) =>
      && k in s.runs && Active(s.runs[k])
      && var req := RequestOf(p, k, s.runs[k]);
         && (applied ==> CanApply(s.store, req))
         && ReplyAllowed(if applied then Apply(s.store, req) else s.store, req, applied, reply)
    case Crash(k) => k in s.runs
    case CrdBegin(c) => CrdFree(s, c)
    case CrdServe(c, applied, reply) =>
      && c in s.crds && !s.crds[c].CrdDone?
      && var req := CrdRequestOf(p, s.crds[c]);
         && (applied ==> CanApply(s.store, req))
         && ReplyAllowed(if applied then Apply(s.store, req) else s.store, req, applied, reply)
    case CrdCrash(c) => c in s.crds
    case Other(e) => EventEnabled(p, s, e)
  }

  function AddressKey(address: RouteAddress): Option<string> {
    if address.Host? then ConfigKey(address.host) else None
  }

  /** Records a configuration write that took effect, or a value that was found in place. */
  function Record(p: Params, log: Log, ph: Phase, applied: bool, reply: Reply): Log {
    if ph.WritingConfig? && applied && AddressKey(ph.route.address).Some? then
      log.(commits := log.commits + [Commit(ph.fn.uid, AddressKey(ph.route.address).value, ph.fn.spec)],
           confirmed := log.confirmed[ph.fn.uid := ph.fn.generation])
    else if ph.GettingConfig? && reply.GotConfig? && AddressKey(ph.route.address).Some?
         && Merge(p.skipEqual, reply.cm, ph.fn.spec, ph.route.address) == Keep then
      log.(confirmed := log.confirmed[ph.fn.uid := ph.fn.generation])
    else log
  }

  function CrdRecord(log: Log, ph: CrdPhase, applied: bool): Log {
    if (ph.CrdCreatingService? || ph.CrdUpdatingService?) && applied
    then log.(image := Some(ph.image), crdWrites := log.crdWrites + 1) else log
  }

  function ServeStep(p: Params, s: State, k: FnKey, applied: bool, reply: Reply): State
    requires Enabled(p, s, Serve(k, applied, reply))
  {
    var req := RequestOf(p, k, s.runs[k]);
    s.(store := if applied then Apply(s.store, req) else s.store,
       log := Record(p, s.log, s.runs[k], applied, reply),
       runs := s.runs[k := Advance(p, k, s.runs[k], reply)])
  }

  function CrdServeStep(p: Params, s: State, c: string, applied: bool, reply: Reply): State
    requires Enabled(p, s, CrdServe(c, applied, reply))
  {
    var req := CrdRequestOf(p, s.crds[c]);
    s.(store := if applied then Apply(s.store, req) else s.store,
       log := CrdRecord(s.log, s.crds[c], applied),
       crds := s.crds[c := CrdAdvance(p, s.crds[c], reply)])
  }

  function EventStep(p: Params, s: State, e: Event): State
    requires EventEnabled(p, s, e)
  {
    var st := s.store;
    match e
    case CreateFunction(k, uid, spec) =>
      s.(store := PutFunction(st, k, Function(uid, 0, 1, false, spec, EMPTY_STATUS)),
         log := s.log.(home := s.log.home[uid := k], specs := s.log.specs[(uid, 1) := spec]))
    case EditSpec(k, spec) =>
      var f := st.fns[k];
      if f.spec == spec then s
      else s.(store := PutFunction(st, k, f.(spec := spec, generation := f.generation + 1)),
              log := s.log.(specs := s.log.specs[(f.uid, f.generation + 1) := spec]))
    case EditMetadata(k) => s.(store := PutFunction(st, k, st.fns[k].(version := st.rev + 1)))
    case MarkDeleting(k) => s.(store := PutFunction(st, k, st.fns[k].(deleting := true)))
    case RemoveFunction(k) => s.(store := st.(fns := st.fns - {k}))
    case ServiceProgress(ready) => s.(store := PutService(st, st.svc.value.spec, ready))
    case RouteProgress(n, ready, address, url) =>
      s.(store := PutRoute(st, Route(n, st.routes[n].owner, ready, address, url)))
    case ForeignRoute(r) => s.(store := PutRoute(st, r), log := s.log.(foreign := s.log.foreign + {r.owner}))
  }

  function Do(p: Params, s: State, step: Step): State
    requires Enabled(p, s, step)
  {
    match step
    case Begin(k) => s.(runs := s.runs[k := Fetching])
    case Serve(k, applied, reply) => ServeStep(p, s, k, applied, reply)
    case Crash(k) => s.(runs := s.runs - {k})
    case CrdBegin(c) => s.(crds := s.crds[c := CrdGettingConfig])
    case CrdServe(c, applied, reply) => CrdServeStep(p, s, c, applied, reply)
    case CrdCrash(c) => s.(crds := s.crds - {c})
    case Other(e) => EventStep(p, s, e)
  }

  /** A run is a sequence of steps, each enabled where it is taken. */
  predicate Valid(p: Params, s: State, steps: seq<Step>)
    decreases |steps|
  {
    steps == [] || (Enabled(p, s, steps[0]) && Valid(p, Do(p, s, steps[0]), steps[1..]))
  }

  function After(p: Params, s: State, steps: seq<Step>): State
    requires Valid(p, s, steps)
    decreases |steps|
  {
    if steps == [] then s else After(p, Do(p, s, steps[0]), steps[1..])
  }

  lemma {:induction false} RunsCompose(p: Params, s: State, a: seq<Step>, b: seq<Step>)
    requires Valid(p, s, a) && Valid(p, After(p, s, a), b)
    ensures Valid(p, s, a + b) && After(p, s, a + b) == After(p, After(p, s, a), b)
    decreases |a|
  {
    if a == [] {
      assert a + b == b;
    } else {
      RunsCompose(p, Do(p, s, a[0]), a[1..], b);
      assert (a + b)[1..] == a[1..] + b;
    }
  }

  ghost predicate Reaches(p: Params, s: State, s': State) {
    exists steps: seq<Step> :: Valid(p, s, steps) && After(p, s, steps) == s'
  }

  lemma ReachesSelf(p: Params, s: State)
    ensures Reaches(p, s, s)
  {
    assert Valid(p, s, []) && After(p, s, []) == s;
  }

  lemma ReachesStep(p: Params, s: State, s': State, step: Step)
    requires Reaches(p, s, s') && Enabled(p, s', step)
    ensures Reaches(p, s, Do(p, s', step))
  {
    var steps: seq<Step> :| Valid(p, s, steps) && After(p, s, steps) == s';
    assert Valid(p, s', [step]) && After(p, s', [step]) == Do(p, s', step) by {
      assert Valid(p, Do(p, s', step), []);
      assert [step][1..] == [];
    }
    RunsCompose(p, s, steps, [step]);
  }

  lemma ReachesTransitive(p: Params, a: State, b: State, c: State)
    requires Reaches(p, a, b) && Reaches(p, b, c)
    ensures Reaches(p, a, c)
  {
    var x: seq<Step> :| Valid(p, a, x) && After(p, a, x) == b;
    var y: seq<Step> :| Valid(p, b, y) && After(p, b, y) == c;
    RunsCompose(p, a, x, y);
  }
}
