/** Leaving out a configuration write that would change nothing, against a reconciler that always writes. */
module ConfigWrites {
  import opened Names
  import opened Lifecycle
  import opened Cluster
  import opened Programs
  import opened Protocol

  /** What a reconciler that always writes would send: no comparison, no flag. */
  function AlwaysMerge(cm: ConfigMap, spec: Json, address: RouteAddress): Merged {
    var text := ConfigFile(cm);
    if text.Malformed? then MergeError("Unable to deserialize existing configuration")
    else
      match address
      case NilAddress => MergePanic
      case NilUrl => Rewrite(WithConfigFile(cm, text))
      case Host(host) =>
        if ConfigKey(host).None? || text.Null? then MergePanic
        else Rewrite(WithConfigFile(cm, Object(text.entries[ConfigKey(host).value := spec])))
  }

  /** The store and the ConfigMap that come out when the merge is carried out against the store it was
      made from; None when there is no result. */
  function Written(st: Store, m: Merged): (Store, Option<ConfigMap>)
    requires st.cm.Some?
  {
    match m
    case Keep => (st, st.cm)
    case Rewrite(cm) => (PutConfig(st, cm.data), PutConfig(st, cm.data).cm)
    case _ => (st, None)
  }

  /** Whatever the ConfigMap holds, comparing first and always writing end in the same store, return the
      same ConfigMap, and fail in the same cases. */
  lemma SkippingRefinesAlwaysWriting(skipEqual: bool, st: Store, spec: Json, address: RouteAddress)
    requires st.cm.Some?
    ensures var cm := st.cm.value;
            && Written(st, Merge(skipEqual, cm, spec, address)) == Written(st, AlwaysMerge(cm, spec, address))
            && (Merge(skipEqual, cm, spec, address).MergePanic? <==> AlwaysMerge(cm, spec, address).MergePanic?)
            && (Merge(skipEqual, cm, spec, address).Keep? ==> AlwaysMerge(cm, spec, address) == Rewrite(cm))
  {
    var cm, text := st.cm.value, ConfigFile(st.cm.value);
    if text.Object? && address.Host? && ConfigKey(address.host).Some? {
      var key := ConfigKey(address.host).value;
      if key in text.entries && text.entries[key] == spec { assert text.entries[key := spec] == text.entries; }
    }
    if HasConfigFile(cm) { assert cm.data.files[CONFIG_FILE := text] == cm.data.files; }
  }

  /** In the protocol: a reconcile that skips its write does in one request what an always-writing
      reconcile does in two, down to the same next phase; only the list of commits tells them apart. */
  lemma SkippedWriteIsSimulated(p: Params, s: State, k: FnKey)
    requires p.skipEqual && k in s.runs && s.runs[k].GettingConfig? && s.store.cm.Some?
    requires AddressKey(s.runs[k].route.address).Some?
    requires Merge(true, s.store.cm.value, s.runs[k].fn.spec, s.runs[k].route.address) == Keep
    ensures var q, cm := AlwaysWriting(p), s.store.cm.value;
            var read, write := Serve(k, false, GotConfig(cm)), Serve(k, true, GotConfig(cm));
            && Enabled(p, s, read) && Enabled(q, s, read) && Enabled(q, Do(q, s, read), write)
            && var skipped, written := Do(p, s, read), Do(q, Do(q, s, read), write);
               && skipped.store == written.store == s.store && skipped.runs == written.runs && skipped.crds == written.crds
               && skipped.log == written.log.(commits := s.log.commits)
  {
    hide AfterConfig, ConfigFailed, ConfigKey;
    var q, cm, ph := p.(skipEqual := false), s.store.cm.value, s.runs[k];
    SkippingRefinesAlwaysWriting(false, s.store, ph.fn.spec, ph.route.address);
    SkippingRefinesAlwaysWriting(true, s.store, ph.fn.spec, ph.route.address);
    assert Merge(false, cm, ph.fn.spec, ph.route.address) == Rewrite(cm);
    AfterConfigForgets(p, ph.fn, ph.st, ph.svc, ph.route, cm.version);
    var middle := Do(q, s, Serve(k, false, GotConfig(cm)));
    assert middle.runs[k] == WritingConfig(ph.fn, ph.st, ph.svc, ph.route, cm, cm);
    var next := AfterConfig(p, ph.fn, ph.st, ph.svc, ph.route, cm.version);
    assert s.runs[k := middle.runs[k]][k := next] == s.runs[k := next];
  }

  lemma AfterConfigForgets(p: Params, f: Function, st: Status, x: Service, r: Route, v: Version)
    ensures AfterConfig(p.(skipEqual := false), f, st, x, r, v) == AfterConfig(p, f, st, x, r, v)
  {
  }

  // ---- Whole runs ----

  /** Two states that only the list of commits tells apart. */
  predicate Alike(s: State, t: State) {
    t.store == s.store && t.runs == s.runs && t.crds == s.crds && t.log == s.log.(commits := t.log.commits)
  }

  function AlwaysWriting(p: Params): Params { p.(skipEqual := false) }

  /** The step in which a reconcile finds its value in place. */
  predicate Skips(p: Params, s: State, step: Step) {
    && step.Serve? && step.k in s.runs && s.runs[step.k].GettingConfig? && step.reply.GotConfig?
    && var ph := s.runs[step.k];
       && AddressKey(ph.route.address).Some?
       && Merge(true, step.reply.cm, ph.fn.spec, ph.route.address) == Keep
  }

  lemma RequestForgets(p: Params, k: FnKey, ph: Phase)
    requires Active(ph)
    ensures RequestOf(AlwaysWriting(p), k, ph) == RequestOf(p, k, ph)
  {
  }

  lemma MergeForgets(cm: ConfigMap, spec: Json, address: RouteAddress)
    requires !(AddressKey(address).Some? && Merge(true, cm, spec, address) == Keep)
    ensures Merge(false, cm, spec, address) == Merge(true, cm, spec, address)
  {
    hide ConfigKey;
  }

  lemma AdvanceForgets(p: Params, k: FnKey, ph: Phase, reply: Reply)
    requires p.skipEqual && Active(ph)
    requires ph.GettingConfig? && reply.GotConfig? ==>
               !(AddressKey(ph.route.address).Some? && Merge(true, reply.cm, ph.fn.spec, ph.route.address) == Keep)
    ensures Advance(AlwaysWriting(p), k, ph, reply) == Advance(p, k, ph, reply)
  {
    hide Merge, AddressKey, MarkFalse, MarkTrue, InitializeConditions, Conclude, ConfigFailed, RouteFailed, AfterRoute, AfterService;
    if ph.GettingConfig? && reply.GotConfig? { MergeForgets(reply.cm, ph.fn.spec, ph.route.address); }
  }

  lemma RecordForgets(p: Params, log: Log, log': Log, ph: Phase, applied: bool, reply: Reply)
    requires p.skipEqual && log' == log.(commits := log'.commits)
    requires ph.GettingConfig? && reply.GotConfig? ==>
               !(AddressKey(ph.route.address).Some? && Merge(true, reply.cm, ph.fn.spec, ph.route.address) == Keep)
    ensures var r, r' := Record(p, log, ph, applied, reply), Record(AlwaysWriting(p), log', ph, applied, reply);
            r' == r.(commits := r'.commits)
  {
    hide Merge, AddressKey;
    if ph.GettingConfig? && reply.GotConfig? { MergeForgets(reply.cm, ph.fn.spec, ph.route.address); }
  }

  lemma ServeMatched(p: Params, s: State, t: State, step: Step)
    requires p.skipEqual && Enabled(p, s, step) && Alike(s, t) && step.Serve? && !Skips(p, s, step)
    ensures Enabled(AlwaysWriting(p), t, step) && Alike(Do(p, s, step), Do(AlwaysWriting(p), t, step))
  {
    hide RequestOf, Advance, Record, CanApply, Apply, ReplyAllowed, Merge, AddressKey, AlwaysWriting;
    var ph := s.runs[step.k];
    RequestForgets(p, step.k, ph);
    AdvanceForgets(p, step.k, ph, step.reply);
    RecordForgets(p, s.log, t.log, ph, step.applied, step.reply);
  }

  lemma EventMatched(p: Params, s: State, t: State, e: Event)
    requires EventEnabled(p, s, e) && Alike(s, t)
    ensures EventEnabled(AlwaysWriting(p), t, e) && Alike(EventStep(p, s, e), EventStep(AlwaysWriting(p), t, e))
  {
    hide PutFunction, PutService, PutRoute, RouteShape;
    assert forall r :: RouteShape(AlwaysWriting(p), r) == RouteShape(p, r) by { ShapeForgets(p); }
  }

  lemma ShapeForgets(p: Params)
    ensures forall r :: RouteShape(AlwaysWriting(p), r) == RouteShape(p, r)
  {
  }

  lemma CrdMatched(p: Params, s: State, t: State, step: Step)
    requires Enabled(p, s, step) && Alike(s, t) && step.CrdServe?
    ensures Enabled(AlwaysWriting(p), t, step) && Alike(Do(p, s, step), Do(AlwaysWriting(p), t, step))
  {
    hide CrdRequestOf, CrdAdvance, CanApply, Apply, ReplyAllowed, AlwaysWriting;
    CrdForgets(p, s.crds[step.c], step.reply);
  }

  lemma CrdForgets(p: Params, ph: CrdPhase, reply: Reply)
    requires !ph.CrdDone?
    ensures CrdRequestOf(AlwaysWriting(p), ph) == CrdRequestOf(p, ph)
    ensures CrdAdvance(AlwaysWriting(p), ph, reply) == CrdAdvance(p, ph, reply)
  {
  }

  lemma OtherMatched(p: Params, s: State, t: State, step: Step)
    requires Enabled(p, s, step) && Alike(s, t) && !step.Serve?
    ensures Enabled(AlwaysWriting(p), t, step) && Alike(Do(p, s, step), Do(AlwaysWriting(p), t, step))
  {
    hide ServeStep, CrdServeStep, EventStep, EventEnabled, CanApply, Apply, ReplyAllowed, RequestOf, CrdRequestOf, AlwaysWriting;
    if step.Other? {
      EventMatched(p, s, t, step.event);
    } else if step.CrdServe? {
      CrdMatched(p, s, t, step);
    }
  }

  /** An always-writing reconciler takes the same step, or two where the other skips its write. */
  lemma StepMatched(p: Params, s: State, t: State, step: Step) returns (steps: seq<Step>)
    requires p.skipEqual && Enabled(p, s, step) && Alike(s, t)
    ensures Valid(AlwaysWriting(p), t, steps) && Alike(Do(p, s, step), After(AlwaysWriting(p), t, steps))
  {
    hide Enabled, Do, Skips, Alike, AlwaysWriting;
    var q := AlwaysWriting(p);
    if Skips(p, s, step) {
      steps := SkipMatched(p, s, t, step);
    } else {
      if step.Serve? { ServeMatched(p, s, t, step); } else { OtherMatched(p, s, t, step); }
      OneStep(q, t, step);
      steps := [step];
    }
  }

  lemma OneStep(p: Params, s: State, step: Step)
    requires Enabled(p, s, step)
    ensures Valid(p, s, [step]) && After(p, s, [step]) == Do(p, s, step)
  {
    hide Enabled, Do;
    assert [step][1..] == [] && Valid(p, Do(p, s, step), []);
  }

  lemma SkipMatched(p: Params, s: State, t: State, step: Step) returns (steps: seq<Step>)
    requires p.skipEqual && Enabled(p, s, step) && Alike(s, t) && Skips(p, s, step)
    ensures Valid(AlwaysWriting(p), t, steps) && Alike(Do(p, s, step), After(AlwaysWriting(p), t, steps))
  {
    hide Merge, AddressKey, Advance;
    var q, k, cm := AlwaysWriting(p), step.k, step.reply.cm;
    assert s.store.cm == Some(cm);
    var read, write := Serve(k, false, GotConfig(cm)), Serve(k, true, GotConfig(cm));
    SkippedWriteIsSimulated(p, t, k);
    assert Alike(Do(p, s, step), Do(p, t, read));
    hide Enabled, Do;
    OneStep(q, t, read);
    OneStep(q, Do(q, t, read), write);
    RunsCompose(q, t, [read], [write]);
    steps := [read] + [write];
  }

  lemma {:induction false} RunMatched(p: Params, s: State, t: State, steps: seq<Step>) returns (matched: seq<Step>)
    requires p.skipEqual && Valid(p, s, steps) && Alike(s, t)
    ensures Valid(AlwaysWriting(p), t, matched) && Alike(After(p, s, steps), After(AlwaysWriting(p), t, matched))
    decreases |steps|
  {
    hide Enabled, Do, Alike, AlwaysWriting;
    var q := AlwaysWriting(p);
    if steps == [] {
      matched := [];
    } else {
      var first := StepMatched(p, s, t, steps[0]);
      var rest := RunMatched(p, Do(p, s, steps[0]), After(q, t, first), steps[1..]);
      RunsCompose(q, t, first, rest);
      matched := first + rest;
    }
  }

  /** Every run of reconcilers that skip writes is matched by a run of always-writing ones that ends with
      the same store, the same reconciles in flight and the same confirmations. */
  lemma EverySkippingRunIsMatched(p: Params, steps: seq<Step>)
    requires p.skipEqual && Valid(p, INITIAL, steps)
    ensures exists matched: seq<Step> ::
              && Valid(AlwaysWriting(p), INITIAL, matched)
              && Alike(After(p, INITIAL, steps), After(AlwaysWriting(p), INITIAL, matched))
  {
    hide Valid, After, AlwaysWriting;
    var matched := RunMatched(p, INITIAL, INITIAL, steps);
  }
}
