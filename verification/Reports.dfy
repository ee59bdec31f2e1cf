/** What a reconcile says of its Function: every way to fail has its condition and its reason, and a Function
    that is being deleted is left alone. */
module Reports {
  import opened Names
  import opened Lifecycle
  import opened Cluster
  import opened Programs
  import opened Protocol
  import opened Invariant
  import opened Preservation
  import opened Theorems

  // ---- Failures ----

  /** The condition that tells of a failure, and the error that the reconcile returns. */
  datatype Complaint = Complaint(about: ConditionType, reason: string, message: string, err: string)

  function Unready(about: ConditionType, readiness: Readiness, err: string): Option<Complaint> {
    match readiness
    case IsReady => None
    case NoCondition => Some(Complaint(about, "Unknown", "", err))
    case NotReady(reason, message) => Some(Complaint(about, reason, message, err))
  }

  function Refused(about: ConditionType, reason: string, message: string): Option<Complaint> {
    Some(Complaint(about, reason, message, message))
  }

  /** All ways in which a reply makes a reconcile fail. */
  function ComplaintOf(ph: Phase, reply: Reply): Option<Complaint> {
    match ph
    case CheckingService(_, _) =>
      if reply.GotService? then Unready(ServiceReady, reply.service.readiness, "service is not ready")
      else Refused(ServiceReady, "CheckExistFailed", ErrorText(reply))
    case FindingRoute(f, _, _) =>
      if reply.NotFound? then None
      else if !reply.GotRoute? then Refused(RouteReady, "ReconcileFailed", ErrorText(reply))
      else if reply.route.owner != f.uid then Refused(RouteReady, "ReconcileFailed", "Function does not own Route")
      else Unready(RouteReady, reply.route.readiness, "route is not ready")
    case CreatingRoute(_, _, _) =>
      if reply.GotRoute? then Unready(RouteReady, reply.route.readiness, "route is not ready")
      else Refused(RouteReady, "ReconcileFailed", ErrorText(reply))
    case GettingConfig(_, _, _, _) =>
      if !reply.GotConfig? then Refused(ConfigMapSynced, "UpdateFailed", ErrorText(reply))
      else if ConfigFile(reply.cm).Malformed? then Refused(ConfigMapSynced, "UpdateFailed", "Unable to deserialize existing configuration")
      else None
    case WritingConfig(_, _, _, _, _, _) =>
      if reply.GotConfig? then None else Refused(ConfigMapSynced, "UpdateFailed", ErrorText(reply))
    case WritingService(_, _, _, _, _) =>
      if reply.GotService? then None else Refused(ServiceReady, "UpdateFailed", ErrorText(reply))
    case _ => None
  }

  /** `final` differs from `st` by what the complaint says. */
  ghost predicate Tells(final: Status, st: Status, c: Complaint) {
    && Lookup(final.conditions, c.about) == Some(Condition(c.about, False, c.reason, c.message))
    && Lookup(final.conditions, Ready) ==
         (if c.about == ConfigMapSynced then Some(Condition(Ready, False, c.reason, c.message)) else Lookup(st.conditions, Ready))
    && (forall u :: u != c.about && u != Ready ==> Lookup(final.conditions, u) == Lookup(st.conditions, u))
    && final == st.(conditions := final.conditions)
  }

  /** The status `final` is written, or it is there already; then the reconcile ends with `err`. */
  predicate Concludes(next: Phase, f: Function, final: Status, err: Option<string>) {
    if final == f.status then next == Done(err) else next == WritingStatus(f, final, err)
  }

  /** Whatever fails, at whatever stage and among whatever others do: the condition of that stage gets False
      with the reason, the status is written unless it says so already, and the error is returned. */
  lemma FailureIsReported(p: Params, k: FnKey, ph: Phase, reply: Reply) returns (final: Status)
    requires Active(ph) && ComplaintOf(ph, reply).Some?
    ensures var c := ComplaintOf(ph, reply).value;
            Tells(final, ph.st, c) && Concludes(Advance(p, k, ph, reply), ph.fn, final, Some(c.err))
  {
    hide MarkFalse;
    var c := ComplaintOf(ph, reply).value;
    final := MarkFalse(ph.st, c.about, c.reason, c.message);
  }

  predicate EndsWithError(ph: Phase) {
    (ph.Done? || ph.WritingStatus?) && ph.err.Some?
  }

  /** Nothing else makes a reconcile fail, between the read of its Function and the write of its status. */
  lemma FailsExactlyOnComplaint(p: Params, k: FnKey, ph: Phase, reply: Reply)
    requires Active(ph) && !ph.Fetching? && !ph.WritingStatus?
    ensures EndsWithError(Advance(p, k, ph, reply)) <==> ComplaintOf(ph, reply).Some?
  {
    hide MarkFalse, MarkTrue, PublishedStatus, ConfigKey;
  }

  /** The first reply and the last one. A missing Function is no error; a failed status write is one, and
      else the error of the reconcile is kept. */
  lemma FirstAndLastReply(p: Params, k: FnKey, ph: Phase, reply: Reply)
    requires Active(ph)
    ensures ph.Fetching? && reply.NotFound? ==> Advance(p, k, ph, reply) == Done(None)
    ensures ph.Fetching? && reply.Failed? ==> Advance(p, k, ph, reply) == Done(Some(reply.message))
    ensures ph.Fetching? && reply.GotFunction? ==>
              var f := reply.function_;
              Advance(p, k, ph, reply) == if f.deleting then Done(None) else CheckingService(f, InitializeConditions(f.status))
    ensures ph.WritingStatus? ==>
              && RequestOf(p, k, ph) == UpdateStatus(k, ph.fn.(status := ph.st))
              && Advance(p, k, ph, reply) == Done(if reply.GotFunction? then ph.err else Some(ErrorText(reply)))
  {
    hide InitializeConditions;
  }

  // ---- Success ----

  /** The status of a successful reconcile, whatever it was before. */
  ghost predicate Announces(p: Params, final: Status, st: Status, f: Function, r: Route) {
    && final.address == At(Url("http", r.name + ".knative-functions.svc." + p.domain))
    && final.url == r.url && final.observedGeneration == f.generation
    && Plain(final, ConfigMapSynced) && Plain(final, ServiceReady) && Plain(final, Addressable) && Plain(final, Ready)
    && Lookup(final.conditions, RouteReady) == Lookup(st.conditions, RouteReady)
  }

  /** Once the configuration is right at a version, the Service is written exactly when its snapshot names
      another version; if it does not, the status is concluded at once. */
  lemma ServiceIsSentExactlyWhenBehind(p: Params, k: FnKey, ph: Phase, reply: Reply) returns (final: Status)
    requires reply.GotConfig?
    requires ph.WritingConfig? || (ph.GettingConfig? && Merge(p.skipEqual, reply.cm, ph.fn.spec, ph.route.address) == Keep)
    requires ph.svc.spec.annotations.Annotations?
    ensures var next, v := Advance(p, k, ph, reply), reply.cm.version;
            if Annotation(ph.svc.spec) == Some(v) then
              Announces(p, final, ph.st, ph.fn, ph.route) && Concludes(next, ph.fn, final, None)
            else
              && next == WritingService(ph.fn, final, ph.svc, ph.route, v) && Plain(final, ConfigMapSynced)
              && RequestOf(p, k, next).UpdateService?
              && RequestOf(p, k, next).service.version == ph.svc.version
              && Annotation(RequestOf(p, k, next).service.spec) == Some(v)
  {
    hide MarkTrue, PublishedStatus, Merge, Announces, AfterConfig, ConfigFailed, Concludes, Annotate;
    final := ConfigIsRight(p, k, ph.fn, ph.st, ph.svc, ph.route, reply.cm.version);
  }

  lemma ConfigIsRight(p: Params, k: FnKey, f: Function, st: Status, x: Service, r: Route, v: Version) returns (final: Status)
    requires x.spec.annotations.Annotations?
    ensures var next := AfterConfig(p, f, st, x, r, v);
            if Annotation(x.spec) == Some(v) then
              Announces(p, final, st, f, r) && Concludes(next, f, final, None)
            else
              && next == WritingService(f, final, x, r, v) && Plain(final, ConfigMapSynced)
              && RequestOf(p, k, next).UpdateService?
              && RequestOf(p, k, next).service.version == x.version && Annotation(RequestOf(p, k, next).service.spec) == Some(v)
  {
    hide MarkTrue, PublishedStatus, Announces;
    var synced := MarkTrue(st, ConfigMapSynced);
    final := if Annotation(x.spec) == Some(v) then PublishedStatus(p, f, synced, r) else synced;
    PublishedAnnounces(p, f, synced, r);
    AnnouncesForgets(p, final, synced, st, f, r);
  }

  lemma PublishedAnnounces(p: Params, f: Function, st: Status, r: Route)
    ensures Plain(st, ConfigMapSynced) ==> Announces(p, PublishedStatus(p, f, st, r), st, f, r)
  {
    HostParts(r.name, ROUTE_NAMESPACE, p.domain);
    hide SetCondition, RouteHost, Split;
  }

  lemma AnnouncesForgets(p: Params, final: Status, st: Status, st0: Status, f: Function, r: Route)
    requires Lookup(st.conditions, RouteReady) == Lookup(st0.conditions, RouteReady)
    ensures Announces(p, final, st, f, r) == Announces(p, final, st0, f, r)
  {
  }

  /** The Service was written: the status is concluded. */
  lemma ServiceWritten(p: Params, k: FnKey, ph: Phase, reply: Reply) returns (final: Status)
    requires ph.WritingService? && reply.GotService? && Plain(ph.st, ConfigMapSynced)
    ensures Announces(p, final, ph.st, ph.fn, ph.route) && Concludes(Advance(p, k, ph, reply), ph.fn, final, None)
  {
    final := PublishedStatus(p, ph.fn, ph.st, ph.route);
    PublishedAnnounces(p, ph.fn, ph.st, ph.route);
    hide PublishedStatus, Announces;
  }

  // ---- Functions that are being deleted ----

  predicate Holds(ph: Phase) { !ph.Fetching? && !ph.Done? && !ph.Panicked? }

  /** No reconcile in flight holds a Function that it read as being deleted. */
  ghost predicate NoneDeleted(s: State) { forall k :: k in s.runs && Holds(s.runs[k]) ==> !s.runs[k].fn.deleting }

  /** A reply never changes the Function that a reconcile holds. */
  lemma SameFunctionHeld(p: Params, k: FnKey, ph: Phase, reply: Reply)
    requires Active(ph) && Holds(ph)
    ensures var next := Advance(p, k, ph, reply); Holds(next) ==> next.fn == ph.fn
  {
    hide MarkFalse, MarkTrue, PublishedStatus, Merge;
  }

  lemma StepHoldsNoneDeleted(p: Params, s: State, step: Step)
    requires NoneDeleted(s) && Enabled(p, s, step)
    ensures NoneDeleted(Do(p, s, step))
  {
    hide Advance, RequestOf, CrdAdvance, CrdRequestOf, Apply, CanApply, ReplyAllowed, Record, CrdRecord,
         PutFunction, PutRoute, PutService, RouteShape;
    if step.Serve? {
      var ph := s.runs[step.k];
      if Holds(ph) { SameFunctionHeld(p, step.k, ph, step.reply); } else { FirstPhase(p, step.k, ph, step.reply); }
    }
  }

  lemma FirstPhase(p: Params, k: FnKey, ph: Phase, reply: Reply)
    requires Active(ph) && !Holds(ph)
    ensures var next := Advance(p, k, ph, reply); Holds(next) ==> !next.fn.deleting && reply == GotFunction(next.fn)
    ensures RequestOf(p, k, ph) == GetFunction(k)
  {
    hide InitializeConditions;
  }

  lemma {:induction false} RunHoldsNoneDeleted(p: Params, s: State, steps: seq<Step>)
    requires NoneDeleted(s) && Valid(p, s, steps)
    ensures NoneDeleted(After(p, s, steps))
    decreases |steps|
  {
    hide NoneDeleted, Enabled, Do;
    if steps != [] {
      StepHoldsNoneDeleted(p, s, steps[0]);
      RunHoldsNoneDeleted(p, Do(p, s, steps[0]), steps[1..]);
    }
  }

  /** In every run: a request of a reconcile that changes anything, be it an entry, a Route, the Service or a
      status, comes from a reconcile that read its Function as not being deleted. */
  lemma OnlyLiveFunctionsWrite(p: Params, s: State, k: FnKey, applied: bool, reply: Reply)
    requires Reachable(p, s) && Enabled(p, s, Serve(k, applied, reply))
    ensures var s' := Do(p, s, Serve(k, applied, reply));
            s'.store != s.store || s'.log != s.log ==> Holds(s.runs[k]) && !s.runs[k].fn.deleting
  {
    var steps: seq<Step> :| Valid(p, INITIAL, steps) && After(p, INITIAL, steps) == s;
    RunHoldsNoneDeleted(p, INITIAL, steps);
    hide Valid, After, Reaches, Advance;
    if !Holds(s.runs[k]) { FirstPhase(p, k, s.runs[k], reply); }
  }

  /** A reconcile that reads its Function as being deleted, or does not find it, ends there without error. */
  lemma DeletedFunctionEndsReconcile(p: Params, s: State, k: FnKey, applied: bool, reply: Reply)
    requires Enabled(p, s, Serve(k, applied, reply)) && s.runs[k].Fetching?
    requires reply.NotFound? || (reply.GotFunction? && reply.function_.deleting)
    ensures Do(p, s, Serve(k, applied, reply)) == s.(runs := s.runs[k := Done(None)])
  {
  }
}
