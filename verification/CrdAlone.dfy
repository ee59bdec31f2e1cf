/** CRD reconciles that run alone with fresh listers: what they store, which requests they make, and that a
    second one makes no write. */
module CrdAlone {
  import opened Names
  import opened Lifecycle
  import opened Cluster
  import opened Programs
  import opened Protocol
  import opened Invariant
  import opened Preservation
  import opened Theorems
  import C = Convergence

  /** In any run, whatever else is stored by now: a Service that the lister answers with the wanted spec is
      not written, and the reconcile ends without error. */
  lemma WantedServiceIsNotWritten(p: Params, s: State, c: string, applied: bool, reply: Reply)
    requires Enabled(p, s, CrdServe(c, applied, reply)) && s.crds[c].CrdListingService? && reply.GotService?
    requires reply.service.spec == MakeServiceSpec(p.functionName, s.crds[c].cmVersion, s.crds[c].image)
    ensures Do(p, s, CrdServe(c, applied, reply)) == s.(crds := s.crds[c := CrdDone(None)])
  {
    hide MakeServiceSpec;
  }

  /** A reply that a CRD reconcile cannot go on with. A missing ConfigMap or Service is none. */
  predicate Refuses(ph: CrdPhase, reply: Reply) {
    || reply.Failed?
    || (reply.NotFound? && !ph.CrdGettingConfig? && !ph.CrdListingService?)
    || (ph.CrdReadingImage? && reply.GotCrd? && reply.image.None?)
  }

  /** Such a reply ends the reconcile at once with its error, and nothing else does. */
  lemma FailsExactlyWhenRefused(p: Params, st: Store, ph: CrdPhase, applied: bool, reply: Reply)
    requires !ph.CrdDone? && ReplyAllowed(st, CrdRequestOf(p, ph), applied, reply)
    ensures var next := CrdAdvance(p, ph, reply);
            && (next.CrdDone? && next.err.Some? <==> Refuses(ph, reply))
            && (reply.Failed? ==> next == CrdDone(Some(reply.message)))
            && (reply.NotFound? && ph.CrdGettingConfig? ==> next == CrdCreatingConfig)
            && (reply.NotFound? && ph.CrdListingService? ==> next == CrdCreatingService(ph.cmVersion, ph.image))
  {
    hide MakeServiceSpec;
  }

  /** The lister knows the image of the CRD, or that there is none. */
  function FreshReply(after: Store, r: Request, applied: bool, image: Option<string>): Reply {
    if r.ListCrd? then GotCrd(image) else C.FreshReply(after, r, applied)
  }

  function FreshChoice(p: Params, s: State, c: string, image: Option<string>): Step
    requires c in s.crds && !s.crds[c].CrdDone?
  {
    var req := CrdRequestOf(p, s.crds[c]);
    var applied := CanApply(s.store, req);
    CrdServe(c, applied, FreshReply(if applied then Apply(s.store, req) else s.store, req, applied, image))
  }

  lemma FreshIsEnabled(p: Params, s: State, c: string, image: Option<string>)
    requires StoreOk(p, s.store) && c in s.crds && !s.crds[c].CrdDone?
    ensures Enabled(p, s, FreshChoice(p, s, c, image))
  {
    hide Apply, RouteShape, ServiceShape, ConfigShape, MakeServiceSpec, RoutesOk;
    var req := CrdRequestOf(p, s.crds[c]);
    if req.ListService? || req.ListCrd? || req.GetConfig? { C.ReadsApply(s.store, req); }
  }

  function Rank(ph: CrdPhase): nat {
    match ph
    case CrdGettingConfig => 5
    case CrdCreatingConfig => 4
    case CrdReadingImage(_) => 3
    case CrdListingService(_, _) => 2
    case CrdCreatingService(_, _) => 1
    case CrdUpdatingService(_, _, _) => 1
    case CrdDone(_) => 0
  }

  lemma StepOk(p: Params, s: State, c: string, image: Option<string>)
    requires Inv(p, s) && c in s.crds && !s.crds[c].CrdDone?
    ensures Enabled(p, s, FreshChoice(p, s, c, image))
    ensures var s' := Do(p, s, FreshChoice(p, s, c, image));
            Inv(p, s') && c in s'.crds && Rank(s'.crds[c]) < Rank(s.crds[c])
  {
    hide Inv, StoreOk, FreshChoice, Apply, CanApply, ReplyAllowed, CrdRequestOf, CrdAdvance, CrdRecord, Rank;
    Unfold(p, s);
    var step := FreshChoice(p, s, c, image);
    FreshIsEnabled(p, s, c, image);
    ChoiceServes(p, s, c, image);
    StepKeeps(p, s, step);
    RankFalls(p, s.crds[c], step.reply);
  }

  /** A CRD reconcile makes at most five requests. */
  lemma RankFalls(p: Params, ph: CrdPhase, reply: Reply)
    requires !ph.CrdDone?
    ensures Rank(CrdAdvance(p, ph, reply)) < Rank(ph)
  {
    hide MakeServiceSpec;
  }

  lemma ChoiceServes(p: Params, s: State, c: string, image: Option<string>)
    requires c in s.crds && !s.crds[c].CrdDone?
    ensures FreshChoice(p, s, c, image).CrdServe? && FreshChoice(p, s, c, image).c == c
  {
  }

  /** Where the reconcile of `c` ends up when it runs alone, and the requests it makes on the way. */
  ghost function Drive(p: Params, s: State, c: string, image: Option<string>): (State, seq<Request>)
    requires Inv(p, s) && c in s.crds
    decreases Rank(s.crds[c])
  {
    if s.crds[c].CrdDone? then (s, [])
    else
      StepOk(p, s, c, image);
      var (end, asked) := Drive(p, Do(p, s, FreshChoice(p, s, c, image)), c, image);
      (end, [CrdRequestOf(p, s.crds[c])] + asked)
  }

  ghost function ReconcileNow(p: Params, s: State, c: string, image: Option<string>): (State, seq<Request>)
    requires Inv(p, s) && CrdFree(s, c)
  {
    StepKeeps(p, s, CrdBegin(c));
    Drive(p, Do(p, s, CrdBegin(c)), c, image)
  }

  // ---- One request at a time ----

  function AtPhase(s: State, c: string, store: Store, log: Log, ph: CrdPhase): State {
    State(store, log, s.runs, s.crds[c := ph])
  }

  ghost predicate Driving(p: Params, s: State, c: string, store: Store, log: Log, ph: CrdPhase) {
    Inv(p, AtPhase(s, c, store, log, ph))
  }

  ghost function From(p: Params, s: State, c: string, image: Option<string>, store: Store, log: Log, ph: CrdPhase): (State, seq<Request>)
    requires Driving(p, s, c, store, log, ph)
  {
    Drive(p, AtPhase(s, c, store, log, ph), c, image)
  }

  lemma DriveStep(p: Params, s: State, c: string, image: Option<string>, store: Store, log: Log, ph: CrdPhase)
    requires Driving(p, s, c, store, log, ph) && !ph.CrdDone?
    ensures var req := CrdRequestOf(p, ph);
            var applied := CanApply(store, req);
            var after := if applied then Apply(store, req) else store;
            var log', ph' := CrdRecord(log, ph, applied), CrdAdvance(p, ph, FreshReply(after, req, applied, image));
            && Driving(p, s, c, after, log', ph')
            && From(p, s, c, image, store, log, ph).0 == From(p, s, c, image, after, log', ph').0
            && From(p, s, c, image, store, log, ph).1 == [req] + From(p, s, c, image, after, log', ph').1
  {
    hide Inv, CrdRequestOf, CrdAdvance, FreshReply, Apply, CanApply, CrdRecord, ReplyAllowed;
    var a := AtPhase(s, c, store, log, ph);
    StepOk(p, a, c, image);
    var req := CrdRequestOf(p, ph);
    var applied := CanApply(store, req);
    var after := if applied then Apply(store, req) else store;
    var ph' := CrdAdvance(p, ph, FreshReply(after, req, applied, image));
    assert a.crds[c := ph'] == s.crds[c := ph'];
    assert Do(p, a, FreshChoice(p, a, c, image)) == AtPhase(s, c, after, CrdRecord(log, ph, applied), ph');
  }

  lemma Begun(p: Params, s: State, c: string, image: Option<string>)
    requires Inv(p, s) && CrdFree(s, c)
    ensures Driving(p, s, c, s.store, s.log, CrdGettingConfig)
    ensures ReconcileNow(p, s, c, image) == From(p, s, c, image, s.store, s.log, CrdGettingConfig)
  {
    hide Inv, Drive, Grows;
    StepKeeps(p, s, CrdBegin(c));
    assert Do(p, s, CrdBegin(c)) == AtPhase(s, c, s.store, s.log, CrdGettingConfig);
  }

  lemma Ended(p: Params, s: State, c: string, image: Option<string>, store: Store, log: Log, err: Option<string>)
    requires Driving(p, s, c, store, log, CrdDone(err))
    ensures From(p, s, c, image, store, log, CrdDone(err)) == (AtPhase(s, c, store, log, CrdDone(err)), [])
  {
    hide Inv;
  }

  // ---- The whole reconcile ----

  /** The store once the ConfigMap exists. */
  function WithConfig(st: Store): Store {
    if st.cm.Some? then st else PutConfig(st, Files(map["___config.json" := Object(map[])]))
  }

  function AskForConfig(st: Store): seq<Request> {
    [GetConfig] + if st.cm.Some? then [] else [CreateConfig(ConfigMap(0, Files(map["___config.json" := Object(map[])])))]
  }

  lemma DriveConfig(p: Params, s: State, c: string, image: Option<string>)
    requires Driving(p, s, c, s.store, s.log, CrdGettingConfig)
    ensures var store := WithConfig(s.store);
            && store.cm.Some?
            && var ph := CrdReadingImage(store.cm.value.version);
               && Driving(p, s, c, store, s.log, ph)
               && From(p, s, c, image, s.store, s.log, CrdGettingConfig).0 == From(p, s, c, image, store, s.log, ph).0
               && From(p, s, c, image, s.store, s.log, CrdGettingConfig).1
                    == AskForConfig(s.store) + From(p, s, c, image, store, s.log, ph).1
  {
    hide Driving, From;
    DriveStep(p, s, c, image, s.store, s.log, CrdGettingConfig);
    if s.store.cm.None? { DriveStep(p, s, c, image, s.store, s.log, CrdCreatingConfig); }
  }

  /** The CRD has no image: the ConfigMap may have been created, and nothing else happens. */
  lemma MissingImageIsAnError(p: Params, s: State, c: string)
    requires Inv(p, s) && CrdFree(s, c)
    ensures ReconcileNow(p, s, c, None) ==
              (AtPhase(s, c, WithConfig(s.store), s.log, CrdDone(Some("Missing functions.knative.dev/image annotation on function CRD"))),
               AskForConfig(s.store) + [ListCrd])
  {
    hide Inv, Driving, From, ReconcileNow, WithConfig, AskForConfig;
    Begun(p, s, c, None);
    DriveConfig(p, s, c, None);
    var store := WithConfig(s.store);
    DriveStep(p, s, c, None, store, s.log, CrdReadingImage(store.cm.value.version));
    Ended(p, s, c, None, store, s.log, Some("Missing functions.knative.dev/image annotation on function CRD"));
    assert AskForConfig(s.store) + ([ListCrd] + []) == AskForConfig(s.store) + [ListCrd];
    assert ReconcileNow(p, s, c, None).1 == AskForConfig(s.store) + [ListCrd];
  }

  /** What is wanted of the Service, against what is stored. */
  function Wanted(p: Params, st: Store, image: string): ServiceSpec
    requires st.cm.Some?
  {
    MakeServiceSpec(p.functionName, st.cm.value.version, image)
  }

  function WithService(p: Params, st: Store, image: string): Store
    requires st.cm.Some?
  {
    PutService(st, Wanted(p, st, image), if st.svc.Some? then st.svc.value.readiness else NoCondition)
  }

  /** No request for a Service that is as wanted, an update for another one, a create for a missing one. */
  function AskForService(p: Params, st: Store, image: string): seq<Request>
    requires st.cm.Some?
  {
    if st.svc.None? then [CreateService(Service(0, Wanted(p, st, image), NoCondition))]
    else if st.svc.value.spec == Wanted(p, st, image) then []
    else [UpdateService(st.svc.value.(spec := Wanted(p, st, image)))]
  }

  /** A CRD reconcile that runs alone ends without error; ConfigMap and Service exist then, with the wanted
      spec, and exactly the missing or wrong ones were written. */
  lemma Settles(p: Params, s: State, c: string, image: string)
    requires Inv(p, s) && CrdFree(s, c)
    ensures var (end, asked) := ReconcileNow(p, s, c, Some(image));
            var st := WithConfig(s.store);
            && st.cm.Some? && Inv(p, end)
            && end.store == WithService(p, st, image) && end.runs == s.runs && end.crds == s.crds[c := CrdDone(None)]
            && asked == AskForConfig(s.store) + [ListCrd, ListService] + AskForService(p, st, image)
            && (AskForService(p, st, image) == [] ==> end.log == s.log)
  {
    hide Inv, Driving, From, ReconcileNow, WithConfig, AskForConfig, MakeServiceSpec, PutService;
    Begun(p, s, c, Some(image));
    DriveConfig(p, s, c, Some(image));
    var st := WithConfig(s.store);
    var v := st.cm.value.version;
    DriveStep(p, s, c, Some(image), st, s.log, CrdReadingImage(v));
    DriveStep(p, s, c, Some(image), st, s.log, CrdListingService(v, image));
    var log := s.log;
    if AskForService(p, st, image) == [] {
      SameService(st);
    } else {
      var ph := if st.svc.None? then CrdCreatingService(v, image) else CrdUpdatingService(v, image, st.svc.value);
      ServiceIsPut(p, st, image);
      DriveStep(p, s, c, Some(image), st, s.log, ph);
      log := CrdRecord(s.log, ph, true);
    }
    Ended(p, s, c, Some(image), WithService(p, st, image), log, None);
    assert Driving(p, s, c, WithService(p, st, image), log, CrdDone(None));
    EndIsOk(p, s, c, WithService(p, st, image), log);
  }

  lemma EndIsOk(p: Params, s: State, c: string, store: Store, log: Log)
    requires Driving(p, s, c, store, log, CrdDone(None))
    ensures Inv(p, AtPhase(s, c, store, log, CrdDone(None)))
  {
  }

  lemma SameService(st: Store)
    ensures st.svc.Some? ==> PutService(st, st.svc.value.spec, st.svc.value.readiness) == st
  {
  }

  lemma ServiceIsPut(p: Params, st: Store, image: string)
    requires st.cm.Some?
    ensures WithService(p, st, image).svc.Some? && WithService(p, st, image).svc.value.spec == Wanted(p, st, image)
    ensures WithService(p, st, image).cm == st.cm
  {
    hide MakeServiceSpec;
  }

  /** A reconcile of the same image after a successful one makes no write request and changes nothing but
      its own phase. */
  lemma SecondIsIdle(p: Params, s: State, c: string, again: string, image: string)
    requires Inv(p, s) && CrdFree(s, c) && (again != c ==> CrdFree(s, again))
    ensures var end := ReconcileNow(p, s, c, Some(image)).0;
            && Inv(p, end) && CrdFree(end, again)
            && var (later, asked) := ReconcileNow(p, end, again, Some(image));
               && later.store == end.store && later.log == end.log && later.runs == end.runs
               && later.crds == end.crds[again := CrdDone(None)]
               && asked == [GetConfig, ListCrd, ListService]
  {
    hide Inv, ReconcileNow, WithService, Wanted, PutConfig;
    Settles(p, s, c, image);
    var end := ReconcileNow(p, s, c, Some(image)).0;
    ServiceIsPut(p, WithConfig(s.store), image);
    Settles(p, end, again, image);
    WantedStays(p, WithConfig(s.store), end.store, image);
    AlreadyThere(p, end.store, image);
  }

  lemma WantedStays(p: Params, st: Store, st': Store, image: string)
    requires st.cm.Some? && st'.cm == st.cm
    ensures Wanted(p, st', image) == Wanted(p, st, image)
  {
  }

  lemma AlreadyThere(p: Params, st: Store, image: string)
    requires st.cm.Some? && st.svc.Some? && st.svc.value.spec == Wanted(p, st, image)
    ensures WithService(p, st, image) == st
  {
    hide MakeServiceSpec;
  }
}
