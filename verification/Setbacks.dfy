/** Reconciles that run alone, with fresh listers, and cannot succeed or have nothing to do: what they store
    and exactly which requests they make. */
module Setbacks {
  import opened Names
  import opened Lifecycle
  import opened Cluster
  import opened Programs
  import opened Protocol
  import opened Invariant
  import opened Preservation
  import opened Theorems
  import opened Reports
  import opened Convergence

  /** The Function is stored, and none of its reconciles is under way. */
  ghost predicate Waiting(p: Params, s: State, k: FnKey) {
    Inv(p, s) && Free(s, k) && k in s.store.fns && !s.store.fns[k].deleting
  }

  /** The reconcile of `k` makes these requests, then writes its status if the complaint is news, and leaves
      everything else in `store` alone. */
  ghost predicate Complains(p: Params, s: State, k: FnKey, store: Store, asked: seq<Request>, c: Complaint)
    requires Waiting(p, s, k) && k in store.fns && store.fns[k] == s.store.fns[k]
  {
    var s', f := ReconcileNow(p, s, k), s.store.fns[k];
    && s'.runs == s.runs[k := Done(Some(c.err))] && s'.crds == s.crds
    && k in s'.store.fns
    && var final := s'.store.fns[k].status;
       && s'.store == PutFunction(store, k, f.(status := final))
       && Tells(final, InitializeConditions(f.status), c)
       && RequestsNow(p, s, k) == asked + if final == f.status then [] else [UpdateStatus(k, f.(status := final))]
  }

  /** From a phase that fails to the end of the reconcile. */
  lemma DriveComplaint(p: Params, s: State, k: FnKey, store: Store, log: Log, ph: Phase, after: Store, reply: Reply, c: Complaint)
    returns (log': Log, final: Status)
    requires Driving(p, s, k, store, log, ph) && Active(ph) && Holds(ph) && ComplaintOf(ph, reply) == Some(c)
    requires var req := RequestOf(p, k, ph);
             && after == (if CanApply(store, req) then Apply(store, req) else store)
             && reply == FreshReply(after, req, CanApply(store, req))
    requires k in after.fns && after.fns[k] == ph.fn
    ensures var store' := PutFunction(after, k, ph.fn.(status := final));
            && Tells(final, ph.st, c) && Driving(p, s, k, store', log', Done(Some(c.err)))
            && Outcome(p, s, k, store, log, ph) == AtPhase(s, k, store', log', Done(Some(c.err)))
            && AskedFrom(p, s, k, store, log, ph) ==
                 [RequestOf(p, k, ph)] + if final == ph.fn.status then [] else [UpdateStatus(k, ph.fn.(status := final))]
  {
    hide Driving, Outcome, AskedFrom, RequestOf, Advance, FreshReply, CanApply, Apply, ComplaintOf, Tells, PutFunction;
    log' := DriveStep(p, s, k, store, log, ph);
    final := FailureIsReported(p, k, ph, reply);
    assert Advance(p, k, ph, reply) == Conclude(ph.fn, final, Some(c.err));
    log' := DriveFinish(p, s, k, after, log', ph.fn, final, Some(c.err));
    Ended(p, s, k, PutFunction(after, k, ph.fn.(status := final)), log', Some(c.err));
  }

  /** Everything that was asked, with the first request in front. */
  lemma Conclusion(p: Params, s: State, k: FnKey, store: Store, log: Log, final: Status, asked: seq<Request>, c: Complaint)
    requires Waiting(p, s, k) && k in store.fns && store.fns[k] == s.store.fns[k]
    requires ReconcileNow(p, s, k) == AtPhase(s, k, PutFunction(store, k, s.store.fns[k].(status := final)), log, Done(Some(c.err)))
    requires Tells(final, InitializeConditions(s.store.fns[k].status), c)
    requires RequestsNow(p, s, k) ==
               asked + if final == s.store.fns[k].status then [] else [UpdateStatus(k, s.store.fns[k].(status := final))]
    ensures Complains(p, s, k, store, asked, c)
  {
    hide Inv, Tells, ReconcileNow, RequestsNow, InitializeConditions;
  }

  /** There is no Service: CheckExistFailed. */
  lemma MissingServiceIsReported(p: Params, s: State, k: FnKey)
    requires Waiting(p, s, k) && s.store.svc.None?
    ensures Complains(p, s, k, s.store, [GetFunction(k), ListService],
                      Complaint(ServiceReady, "CheckExistFailed", "not found", "not found"))
  {
    hide Inv, Driving, Outcome, AskedFrom, InitializeConditions, ReconcileNow, RequestsNow, Tells, Complains, PutFunction;
    Begun(p, s, k);
    var f := s.store.fns[k];
    var c := Complaint(ServiceReady, "CheckExistFailed", "not found", "not found");
    var log := DriveFetch(p, s, k, s.store, s.log);
    var final;
    log, final := DriveComplaint(p, s, k, s.store, log, CheckingService(f, InitializeConditions(f.status)), s.store, NotFound, c);
    Conclusion(p, s, k, s.store, log, final, [GetFunction(k), ListService], c);
  }

  /** A ConfigMap can only be missing while there is no Service either. */
  lemma MissingConfigIsReported(p: Params, s: State, k: FnKey)
    requires Waiting(p, s, k) && s.store.cm.None?
    ensures s.store.svc.None?
    ensures Complains(p, s, k, s.store, [GetFunction(k), ListService],
                      Complaint(ServiceReady, "CheckExistFailed", "not found", "not found"))
  {
    hide Inv, Complains;
    if s.store.svc.Some? { AnnotationFacts(p, s); }
    MissingServiceIsReported(p, s, k);
  }

  /** The Service is not ready: its own reason, or Unknown when it does not say. */
  lemma UnreadyServiceIsReported(p: Params, s: State, k: FnKey)
    requires Waiting(p, s, k) && s.store.svc.Some? && !s.store.svc.value.readiness.IsReady?
    ensures Complains(p, s, k, s.store, [GetFunction(k), ListService],
                      match s.store.svc.value.readiness {
                        case NotReady(reason, message) => Complaint(ServiceReady, reason, message, "service is not ready")
                        case _ => Complaint(ServiceReady, "Unknown", "", "service is not ready")
                      })
  {
    hide Inv, Driving, Outcome, AskedFrom, InitializeConditions, ReconcileNow, RequestsNow, Tells, Complains, PutFunction;
    Begun(p, s, k);
    var f, x := s.store.fns[k], s.store.svc.value;
    var c := Unready(ServiceReady, x.readiness, "service is not ready").value;
    var log := DriveFetch(p, s, k, s.store, s.log);
    var final;
    log, final := DriveComplaint(p, s, k, s.store, log, CheckingService(f, InitializeConditions(f.status)), s.store, GotService(x), c);
    Conclusion(p, s, k, s.store, log, final, [GetFunction(k), ListService], c);
  }

  /** The Service is ready. */
  ghost predicate Served(p: Params, s: State, k: FnKey) {
    Waiting(p, s, k) && s.store.svc.Some? && s.store.svc.value.readiness.IsReady?
  }

  /** The Route of that name belongs to somebody else, or is not ready. */
  lemma BadRouteIsReported(p: Params, s: State, k: FnKey, c: Complaint)
    requires Served(p, s, k) && RouteName(p, k) in s.store.routes
    requires var f, r := s.store.fns[k], s.store.routes[RouteName(p, k)];
             if r.owner != f.uid then
               c == Complaint(RouteReady, "ReconcileFailed", "Function does not own Route", "Function does not own Route")
             else
               match r.readiness {
                 case IsReady => false
                 case NotReady(reason, message) => c == Complaint(RouteReady, reason, message, "route is not ready")
                 case NoCondition => c == Complaint(RouteReady, "Unknown", "", "route is not ready")
               }
    ensures Complains(p, s, k, s.store, [GetFunction(k), ListService, ListRoute(RouteName(p, k))], c)
  {
    hide Inv, Driving, Outcome, AskedFrom, InitializeConditions, ReconcileNow, RequestsNow, Tells, Complains, PutFunction, RouteName;
    Begun(p, s, k);
    var f, x, r := s.store.fns[k], s.store.svc.value, s.store.routes[RouteName(p, k)];
    var st := InitializeConditions(f.status);
    var log := DriveFetch(p, s, k, s.store, s.log);
    log := DriveCheck(p, s, k, s.store, log, f, st);
    var final;
    log, final := DriveComplaint(p, s, k, s.store, log, FindingRoute(f, st, x), s.store, GotRoute(r), c);
    Conclusion(p, s, k, s.store, log, final, [GetFunction(k), ListService, ListRoute(RouteName(p, k))], c);
  }

  lemma RouteIsCreated(p: Params, s: State, k: FnKey)
    requires Served(p, s, k) && RouteName(p, k) !in s.store.routes
    ensures var r := MakeRoute(p, k, s.store.fns[k].uid);
            Complains(p, s, k, PutRoute(s.store, r), [GetFunction(k), ListService, ListRoute(RouteName(p, k)), CreateRoute(r)],
                      Complaint(RouteReady, "Unknown", "", "route is not ready"))
  {
    hide Inv, Driving, Outcome, AskedFrom, InitializeConditions, ReconcileNow, RequestsNow, Tells, Complains, PutFunction, RouteName;
    var f, x, r := s.store.fns[k], s.store.svc.value, MakeRoute(p, k, s.store.fns[k].uid);
    var st, c := InitializeConditions(f.status), Complaint(RouteReady, "Unknown", "", "route is not ready");
    Begun(p, s, k);
    var log := DriveFetch(p, s, k, s.store, s.log);
    log := DriveCheck(p, s, k, s.store, log, f, st);
    log := DriveAbsent(p, s, k, s.store, log, f, st, x);
    var final;
    log, final := DriveComplaint(p, s, k, s.store, log, CreatingRoute(f, st, x), PutRoute(s.store, r), GotRoute(r), c);
    Conclusion(p, s, k, PutRoute(s.store, r), log, final, [GetFunction(k), ListService, ListRoute(RouteName(p, k)), CreateRoute(r)], c);
  }

  lemma DriveAbsent(p: Params, s: State, k: FnKey, store: Store, log: Log, f: Function, st: Status, x: Service) returns (log': Log)
    requires Driving(p, s, k, store, log, FindingRoute(f, st, x)) && RouteName(p, k) !in store.routes
    ensures var ph' := CreatingRoute(f, st, x);
            && Driving(p, s, k, store, log', ph')
            && Outcome(p, s, k, store, log, FindingRoute(f, st, x)) == Outcome(p, s, k, store, log', ph')
            && AskedFrom(p, s, k, store, log, FindingRoute(f, st, x)) == [ListRoute(RouteName(p, k))] + AskedFrom(p, s, k, store, log', ph')
  {
    hide Driving, Outcome, AskedFrom;
    log' := DriveStep(p, s, k, store, log, FindingRoute(f, st, x));
  }

  /** There is no Route of that name: it is created for the Function, and is not ready yet. */
  lemma MissingRouteIsCreated(p: Params, s: State, k: FnKey)
    requires Served(p, s, k) && RouteName(p, k) !in s.store.routes
    ensures var n := p.functionName + "-" + k.namespace + "-" + k.name;
            var r := Route(n, s.store.fns[k].uid, NoCondition, NilAddress, None);
            Complains(p, s, k, PutRoute(s.store, r), [GetFunction(k), ListService, ListRoute(n), CreateRoute(r)],
                      Complaint(RouteReady, "Unknown", "", "route is not ready"))
  {
    hide Inv, Complains;
    RouteIsCreated(p, s, k);
  }

  /** A Function that is missing or being deleted is only read. */
  lemma DeletedIsLeftAlone(p: Params, s: State, k: FnKey)
    requires Inv(p, s) && Free(s, k) && (k in s.store.fns ==> s.store.fns[k].deleting)
    ensures var s' := ReconcileNow(p, s, k);
            s'.store == s.store && s'.runs == s.runs[k := Done(None)] && s'.crds == s.crds
    ensures RequestsNow(p, s, k) == [GetFunction(k)]
  {
    hide Inv, Driving, Outcome, AskedFrom, ReconcileNow, RequestsNow;
    Begun(p, s, k);
    var log := DriveStep(p, s, k, s.store, s.log, Fetching);
    Ended(p, s, k, s.store, log, None);
  }

  /** When nothing is left to do, a reconcile only reads; the code as it compares values writes the ConfigMap
      it read, with the same content. */
  lemma IdleReconcileOnlyReads(p: Params, s: State, k: FnKey)
    requires Settled(p, s, k) && UpToDate(p, s.store, k) && AnnotationCurrent(s.store)
    ensures RequestsNow(p, s, k) ==
              [GetFunction(k), ListService, ListRoute(RouteName(p, k)), GetConfig]
              + if p.skipEqual then [] else [UpdateConfig(s.store.cm.value)]
  {
    hide Inv, Driving, Outcome, AskedFrom, InitializeConditions, ReconcileNow, RequestsNow, AfterConfig, MarkTrue, RouteName, HostKey,
         PutConfig, Merge, MergedData, AddressKey, FinalStatus, Annotation;
    SettledFacts(p, s, k);
    Begun(p, s, k);
    var f, x, r, cm := s.store.fns[k], s.store.svc.value, s.store.routes[RouteName(p, k)], s.store.cm.value;
    var st := MarkTrue(InitializeConditions(f.status), RouteReady);
    var log := DriveFetch(p, s, k, s.store, s.log);
    log := DriveCheck(p, s, k, s.store, log, f, InitializeConditions(f.status));
    log := DriveRoute(p, s, k, s.store, log, f, InitializeConditions(f.status), x);
    MergeInPlace(p, s.store, k);
    log := DriveRead(p, s, k, s.store, log, f, st, x, r, cm);
    if !p.skipEqual {
      log := DriveWrite(p, s, k, s.store, log, f, st, x, r, cm, cm);
      PutSame(s.store);
    }
    NothingToConclude(p, s.store, k);
    Ended(p, s, k, s.store, log, None);
  }

  lemma PutSame(st: Store)
    requires st.cm.Some?
    ensures PutConfig(st, st.cm.value.data) == st
  {
  }

  lemma MergeInPlace(p: Params, st: Store, k: FnKey)
    requires UpToDate(p, st, k) && AddressKey(st.routes[RouteName(p, k)].address) == Some(HostKey(RouteName(p, k)))
    ensures var cm, f, r := st.cm.value, st.fns[k], st.routes[RouteName(p, k)];
            Merge(p.skipEqual, cm, f.spec, r.address) == if p.skipEqual then Keep else Rewrite(cm)
  {
    hide FinalStatus, RouteName, HostKey, ConfigKey;
    var cm, key := st.cm.value, HostKey(RouteName(p, k));
    assert Entries(cm)[key := st.fns[k].spec] == Entries(cm);
    assert cm.data.files[CONFIG_FILE := Object(Entries(cm))] == cm.data.files;
  }

  lemma NothingToConclude(p: Params, st: Store, k: FnKey)
    requires UpToDate(p, st, k) && AnnotationCurrent(st)
    ensures var f, r := st.fns[k], st.routes[RouteName(p, k)];
            AfterConfig(p, f, MarkTrue(InitializeConditions(f.status), RouteReady), st.svc.value, r, st.cm.value.version) == Done(None)
  {
    hide InitializeConditions, MarkTrue, PublishedStatus, RouteName, HostKey, Entries;
  }

  /** No reconcile that runs alone makes more than eight requests. */
  lemma AtMostEightRequests(p: Params, s: State, k: FnKey)
    requires Inv(p, s) && Free(s, k)
    ensures |RequestsNow(p, s, k)| <= 8
  {
    hide Inv, Driving, Asked;
    Begun(p, s, k);
  }
}
