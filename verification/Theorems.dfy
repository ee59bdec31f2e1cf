/** What holds in every run of the two reconcilers, however their requests interleave. */
module Theorems {
  import opened Names
  import opened Lifecycle
  import opened Cluster
  import opened Programs
  import opened Protocol
  import opened Invariant
  import opened Preservation

  ghost predicate Reachable(p: Params, s: State) { Reaches(p, INITIAL, s) }

  lemma ReachableOk(p: Params, s: State)
    requires Reachable(p, s)
    ensures Inv(p, s)
  {
    hide Inv, Do, Enabled, Valid, After;
    var steps: seq<Step> :| Valid(p, INITIAL, steps) && After(p, INITIAL, steps) == s;
    InitialOk(p);
    RunKeeps(p, INITIAL, steps);
  }

  // ---- The configuration ----

  lemma {:induction false} ReplayAppends(base: map<string, Json>, a: seq<Commit>, b: seq<Commit>)
    ensures Replay(base, a + b) == Replay(Replay(base, a), b)
  {
    if b == [] {
      assert a + b == a;
    } else {
      ReplayAppends(base, a, b[..|b| - 1]);
      assert (a + b)[..|a + b| - 1] == a + b[..|b| - 1];
    }
  }

  lemma {:induction false} ReplayTouches(base: map<string, Json>, commits: seq<Commit>, key: string)
    ensures key in base ==> key in Replay(base, commits)
    ensures (forall i :: 0 <= i < |commits| ==> commits[i].key != key) ==>
              (key in Replay(base, commits) <==> key in base)
              && (key in base ==> Replay(base, commits)[key] == base[key])
  {
    if commits != [] {
      ReplayTouches(base, commits[..|commits| - 1], key);
    }
  }

  lemma ConfigIsReplay(p: Params, s: State)
    requires Inv(p, s)
    ensures s.store.cm.Some? ==> ConfigShape(s.store.cm.value) && Entries(s.store.cm.value) == Replay(map[], s.log.commits)
    ensures s.store.cm.None? ==> s.log.commits == []
  {
    Unfold(p, s);
    hide Inv, LogOk, RunsOk, CrdsOk, FunctionsOk, OwnersOk, ConfirmedOk, ImageOk, RoutesOk, ServicesOk, Replay;
  }

  /** No update is lost: in every run the stored configuration is the empty object with every committed
      merge applied in commit order. */
  lemma NoLostUpdate(p: Params, s: State)
    requires Reachable(p, s) && s.store.cm.Some?
    ensures ConfigShape(s.store.cm.value)
    ensures Entries(s.store.cm.value) == Replay(map[], s.log.commits)
  {
    ReachableOk(p, s);
    ConfigIsReplay(p, s);
  }

  /** Along every continuation of a run, keys never disappear, and an entry changes only by a commit to
      its own key. */
  lemma EntriesPersist(p: Params, s: State, steps: seq<Step>, key: string)
    requires Reachable(p, s) && Valid(p, s, steps) && s.store.cm.Some? && ConfigShape(s.store.cm.value)
    requires key in Entries(s.store.cm.value)
    ensures var s' := After(p, s, steps);
            && s'.store.cm.Some? && ConfigShape(s'.store.cm.value) && s.log.commits <= s'.log.commits
            && key in Entries(s'.store.cm.value)
            && (Entries(s'.store.cm.value)[key] != Entries(s.store.cm.value)[key] ==>
                  exists i :: |s.log.commits| <= i < |s'.log.commits| && s'.log.commits[i].key == key)
  {
    hide Valid, After, Reachable, Inv, Grows, Replay;
    var s' := After(p, s, steps);
    ReachableOk(p, s);
    RunKeeps(p, s, steps);
    ConfigIsReplay(p, s);
    ConfigIsReplay(p, s');
    ConfigStays(p, s, s');
    CommitsStay(s, s');
    ReplayPersists(s.log.commits, s'.log.commits, key);
  }

  lemma CommitsStay(s: State, s': State)
    requires Grows(s, s')
    ensures s.log.commits <= s'.log.commits
  {
  }

  lemma ReplayPersists(before: seq<Commit>, after: seq<Commit>, key: string)
    requires before <= after && key in Replay(map[], before)
    ensures key in Replay(map[], after)
    ensures Replay(map[], after)[key] != Replay(map[], before)[key] ==>
              exists i :: |before| <= i < |after| && after[i].key == key
  {
    hide Replay;
    var added := after[|before|..];
    assert after == before + added;
    ReplayAppends(map[], before, added);
    ReplayTouches(Replay(map[], before), added, key);
    if i :| 0 <= i < |added| && added[i].key == key {
      assert after[|before| + i].key == key;
    }
  }

  lemma ConfigStays(p: Params, s: State, s': State)
    requires Inv(p, s) && Inv(p, s') && Grows(s, s') && s.store.cm.Some?
    ensures s'.store.cm.Some? && s.store.cm.value.version <= s'.store.cm.value.version
  {
    Unfold(p, s);
    Unfold(p, s');
    hide Inv, LogOk, RunsOk, CrdsOk, FunctionsOk, OwnersOk, ConfirmedOk, CommitsOk, ImageOk, RoutesOk, ServicesOk, LogGrows, FnGrows;
  }

  /** Every key has one writer in the whole run, the Function that controls the Route the key is named
      after, even when another Function produces the same Route name or a lister misses the Route. */
  lemma SingleWriterPerKey(p: Params, s: State, i: nat, j: nat)
    requires Reachable(p, s) && i < |s.log.commits| && j < |s.log.commits|
    ensures Controls(p, s, s.log.commits[i].writer)
    ensures s.log.commits[i].key == KeyOf(p, s.log, s.log.commits[i].writer)
    ensures s.log.commits[i].key == s.log.commits[j].key ==> s.log.commits[i].writer == s.log.commits[j].writer
  {
    ReachableOk(p, s);
    Unfold(p, s);
    hide Inv, LogOk, RunsOk, CrdsOk, FunctionsOk, OwnersOk, ConfirmedOk, ImageOk, StoreOk;
    var u, v := s.log.commits[i].writer, s.log.commits[j].writer;
    assert Controls(p, s, u) && Controls(p, s, v);
    HostKeysDistinct(RouteName(p, s.log.home[u]), RouteName(p, s.log.home[v]));
  }

  /** Once a Route exists, no Function but its owner has ever written, or will ever write, its key. */
  lemma OwnerIsForever(p: Params, s: State, steps: seq<Step>, n: string, i: nat)
    requires Reachable(p, s) && Valid(p, s, steps) && n in s.store.routes
    requires i < |After(p, s, steps).log.commits| && After(p, s, steps).log.commits[i].key == HostKey(n)
    ensures After(p, s, steps).log.commits[i].writer == s.store.routes[n].owner
  {
    var s' := After(p, s, steps);
    ReachableOk(p, s);
    RunKeeps(p, s, steps);
    Unfold(p, s');
    hide Inv, LogOk, RunsOk, CrdsOk, FunctionsOk, OwnersOk, ConfirmedOk, ImageOk, StoreOk, LogGrows, FnGrows, Valid, After;
    var u := s'.log.commits[i].writer;
    assert Controls(p, s', u);
    HostKeysDistinct(RouteName(p, s'.log.home[u]), n);
  }

  // ---- The status ----

  /** At some point of the run, the Function object `uid` was stored under `k` with this generation and spec. */
  ghost predicate WasStored(p: Params, steps: seq<Step>, k: FnKey, uid: Uid, generation: nat, spec: Json)
    requires Valid(p, INITIAL, steps)
  {
    exists i :: 0 <= i <= |steps| && StoredAt(p, steps, i, k, uid, generation, spec)
  }

  ghost predicate StoredAt(p: Params, steps: seq<Step>, i: nat, k: FnKey, uid: Uid, generation: nat, spec: Json)
    requires Valid(p, INITIAL, steps) && i <= |steps|
  {
    && Valid(p, INITIAL, steps[..i])
    && var fns := After(p, INITIAL, steps[..i]).store.fns;
       k in fns && fns[k].uid == uid && fns[k].generation == generation && fns[k].spec == spec
  }

  lemma {:induction false} PrefixValid(p: Params, s: State, steps: seq<Step>, i: nat)
    requires Valid(p, s, steps) && i <= |steps|
    ensures Valid(p, s, steps[..i])
    ensures Valid(p, After(p, s, steps[..i]), steps[i..])
    ensures After(p, After(p, s, steps[..i]), steps[i..]) == After(p, s, steps)
    decreases |steps|
  {
    hide Do, Enabled;
    if i == 0 {
      assert steps[..0] == [] && steps[0..] == steps;
    } else {
      var head := steps[..i];
      assert head[0] == steps[0] && head[1..] == steps[1..][..i - 1] && steps[i..] == steps[1..][i - 1..];
      PrefixValid(p, Do(p, s, steps[0]), steps[1..], i - 1);
    }
  }

  /** Only creating a Function and editing its spec record anything about specs. */
  lemma ReconcilesRecordNoSpec(p: Params, s: State, step: Step)
    requires Enabled(p, s, step)
    requires !step.Other?
    ensures Do(p, s, step).log.specs == s.log.specs && Do(p, s, step).log.home == s.log.home
  {
    hide Advance, RequestOf, CrdAdvance, CrdRequestOf, Apply, CanApply, ReplyAllowed, AddressKey, Merge, EventStep, EventEnabled;
  }

  ghost predicate StoredNow(s: State, uid: Uid, generation: nat) {
    && uid in s.log.home && (uid, generation) in s.log.specs
    && var k := s.log.home[uid];
       && k in s.store.fns && s.store.fns[k].uid == uid && s.store.fns[k].generation == generation
       && s.store.fns[k].spec == s.log.specs[(uid, generation)]
  }

  lemma EventRecords(p: Params, s: State, e: Event, uid: Uid, generation: nat)
    requires EventEnabled(p, s, e) && (e.EditSpec? ==> Known(s.log, e.k, s.store.fns[e.k]))
    requires (uid, generation) in EventStep(p, s, e).log.specs && (uid, generation) !in s.log.specs
    ensures StoredNow(EventStep(p, s, e), uid, generation)
  {
    hide RouteShape, PutRoute, PutService, Sound;
  }

  /** One step records a spec only for a Function that it leaves stored with that generation. */
  lemma StepRecords(p: Params, s: State, step: Step, uid: Uid, generation: nat)
    requires Inv(p, s) && Enabled(p, s, step)
    requires (uid, generation) in Do(p, s, step).log.specs && (uid, generation) !in s.log.specs
    ensures StoredNow(Do(p, s, step), uid, generation)
  {
    if !step.Other? { ReconcilesRecordNoSpec(p, s, step); }
    Unfold(p, s);
    hide Inv, StoreOk, LogOk, RunsOk, CrdsOk, OwnersOk, ConfirmedOk, CommitsOk, ImageOk, Known, SpecsOk, ServeStep, CrdServeStep,
         CanApply, Apply, ReplyAllowed, RouteShape, EventStep, StoredNow;
    EventRecords(p, s, step.event, uid, generation);
  }

  lemma StoredStays(p: Params, steps: seq<Step>, n: nat, k: FnKey, uid: Uid, generation: nat, spec: Json)
    requires Valid(p, INITIAL, steps) && n <= |steps| && Valid(p, INITIAL, steps[..n])
    requires WasStored(p, steps[..n], k, uid, generation, spec)
    ensures WasStored(p, steps, k, uid, generation, spec)
  {
    hide Valid, After;
    var i :| 0 <= i <= n && StoredAt(p, steps[..n], i, k, uid, generation, spec);
    assert steps[..n][..i] == steps[..i];
    assert StoredAt(p, steps, i, k, uid, generation, spec);
  }

  /** Every recorded spec was once the spec of that generation. */
  lemma {:induction false} RecordedWasStored(p: Params, steps: seq<Step>, uid: Uid, generation: nat)
    requires Valid(p, INITIAL, steps)
    requires (uid, generation) in After(p, INITIAL, steps).log.specs
    ensures var s := After(p, INITIAL, steps);
            uid in s.log.home && WasStored(p, steps, s.log.home[uid], uid, generation, s.log.specs[(uid, generation)])
    decreases |steps|
  {
    var s' := After(p, INITIAL, steps);
    var n := |steps|;
    if n > 0 {
      hide Inv, Do, Enabled, WasStored, FnGrows, StoreGrows;
      PrefixValid(p, INITIAL, steps, n - 1);
      var s, last := After(p, INITIAL, steps[..n - 1]), steps[n - 1];
      assert steps[n - 1..] == [last];
      OneStep(p, s, last);
      hide Valid, After;
      InitialOk(p);
      RunKeeps(p, INITIAL, steps[..n - 1]);
      StepKeeps(p, s, last);
      if (uid, generation) in s.log.specs {
        RecordedWasStored(p, steps[..n - 1], uid, generation);
        StoredStays(p, steps, n - 1, s.log.home[uid], uid, generation, s.log.specs[(uid, generation)]);
      } else {
        StepRecords(p, s, last, uid, generation);
        LastIsStored(p, steps, uid, generation);
      }
    }
  }

  lemma LastIsStored(p: Params, steps: seq<Step>, uid: Uid, generation: nat)
    requires Valid(p, INITIAL, steps) && StoredNow(After(p, INITIAL, steps), uid, generation)
    ensures var s := After(p, INITIAL, steps);
            WasStored(p, steps, s.log.home[uid], uid, generation, s.log.specs[(uid, generation)])
  {
    var s := After(p, INITIAL, steps);
    hide Valid, After;
    assert steps[..|steps|] == steps;
    assert StoredAt(p, steps, |steps|, s.log.home[uid], uid, generation, s.log.specs[(uid, generation)]);
  }

  lemma OneStep(p: Params, s: State, step: Step)
    requires Valid(p, s, [step])
    ensures Enabled(p, s, step) && After(p, s, [step]) == Do(p, s, step)
  {
    hide Do, Enabled;
    assert [step][1..] == [];
  }

  /** The status tells the truth: whenever a stored Function says Ready, it controls its Route, the
      configuration holds an entry at that Route's key, and this entry is the spec that the Function had
      at some point of the run, at a generation between the observed one and the current one. */
  lemma ReadyTellsTheTruth(p: Params, steps: seq<Step>, k: FnKey)
    requires Valid(p, INITIAL, steps)
    requires var s := After(p, INITIAL, steps); k in s.store.fns && IsTrue(s.store.fns[k].status, Ready)
    ensures var s := After(p, INITIAL, steps);
            var f, n := s.store.fns[k], RouteName(p, k);
            && n in s.store.routes && s.store.routes[n].owner == f.uid
            && s.store.cm.Some? && ConfigShape(s.store.cm.value) && HostKey(n) in Entries(s.store.cm.value)
            && exists g :: f.status.observedGeneration <= g <= f.generation
                           && WasStored(p, steps, k, f.uid, g, Entries(s.store.cm.value)[HostKey(n)])
  {
    hide Grows, Valid, After, Do, Enabled;
    var s := After(p, INITIAL, steps);
    var f := s.store.fns[k];
    InitialOk(p);
    RunKeeps(p, INITIAL, steps);
    ReadyConfirmed(p, s, k);
    RecordedWasStored(p, steps, f.uid, s.log.confirmed[f.uid]);
    assert WasStored(p, steps, k, f.uid, s.log.confirmed[f.uid], Entries(s.store.cm.value)[HostKey(RouteName(p, k))]);
  }

  /** In every run every stored status has one condition per type, and Ready says exactly whether both of
      its dependents hold. */
  lemma StoredStatusIsCoherent(p: Params, s: State, k: FnKey)
    requires Reachable(p, s) && k in s.store.fns
    ensures Coherent(s.store.fns[k].status)
  {
    ReachableOk(p, s);
    Unfold(p, s);
    hide Inv, StoreOk, LogOk, RunsOk, CrdsOk, OwnersOk, CommitsOk, ImageOk, SpecsOk, Coherent;
    assert Known(s.log, k, s.store.fns[k]);
  }

  /** When a stored Function is Ready and has observed its current generation, the entry at its Route's key is
      its current spec. */
  lemma ReadyAndObservedIsCurrent(p: Params, s: State, k: FnKey)
    requires Reachable(p, s) && k in s.store.fns && IsTrue(s.store.fns[k].status, Ready)
    requires s.store.fns[k].status.observedGeneration == s.store.fns[k].generation
    ensures s.store.cm.Some? && ConfigShape(s.store.cm.value)
    ensures var key := HostKey(RouteName(p, k));
            key in Entries(s.store.cm.value) && Entries(s.store.cm.value)[key] == s.store.fns[k].spec
  {
    hide Inv, StoreOk, LogOk, RunsOk, CrdsOk, OwnersOk, ConfirmedOk, CommitsOk, ImageOk, SpecsOk, Sound, IsTrue;
    ReachableOk(p, s);
    Unfold(p, s);
    assert Known(s.log, k, s.store.fns[k]);
    ReadyConfirmed(p, s, k);
  }

  lemma ReadyConfirmed(p: Params, s: State, k: FnKey)
    requires Inv(p, s) && k in s.store.fns && IsTrue(s.store.fns[k].status, Ready)
    ensures var f := s.store.fns[k];
            && f.uid in s.log.confirmed && s.log.home[f.uid] == k
            && f.status.observedGeneration <= s.log.confirmed[f.uid] <= f.generation
            && Confirmed(p, s, f.uid)
  {
    Unfold(p, s);
    hide Inv, StoreOk, LogOk, RunsOk, CrdsOk, OwnersOk, CommitsOk, ImageOk, SpecsOk, Unique;
    assert Known(s.log, k, s.store.fns[k]);
    assert Confirmed(p, s, s.store.fns[k].uid);
  }

  // ---- The Service ----

  predicate HasAnnotation(s: State) {
    s.store.svc.Some? && Annotation(s.store.svc.value.spec).Some?
  }

  function AnnotationOf(s: State): Version
    requires HasAnnotation(s)
  {
    Annotation(s.store.svc.value.spec).value
  }

  lemma AnnotationFacts(p: Params, s: State)
    requires Inv(p, s) && s.store.svc.Some?
    ensures HasAnnotation(s) && AnnotationOf(s) in s.store.oldConfigs
    ensures s.store.cm.Some? && AnnotationOf(s) <= s.store.cm.value.version
  {
    Unfold(p, s);
    hide Inv, LogOk, RunsOk, CrdsOk, RoutesOk, FunctionsOk, OwnersOk, ConfirmedOk, CommitsOk, ImageOk;
    assert ServiceShape(s.store, s.store.oldServices[s.store.svc.value.version].spec);
  }

  /** The annotation names a version under which the ConfigMap was really stored, never newer than the current. */
  lemma AnnotationIsACommittedVersion(p: Params, s: State)
    requires Reachable(p, s) && s.store.svc.Some?
    ensures HasAnnotation(s) && AnnotationOf(s) in s.store.oldConfigs && s.store.oldConfigs[AnnotationOf(s)].version == AnnotationOf(s)
    ensures s.store.cm.Some? && AnnotationOf(s) <= s.store.cm.value.version
  {
    ReachableOk(p, s);
    AnnotationFacts(p, s);
    Unfold(p, s);
    hide Inv, LogOk, RunsOk, CrdsOk, RoutesOk, ServicesOk;
  }

  /** A step without a CRD commit never lowers the annotation and never changes the image. */
  lemma StepKeepsService(p: Params, s: State, step: Step)
    requires Inv(p, s) && Enabled(p, s, step) && s.store.svc.Some?
    requires Do(p, s, step).log.crdWrites == s.log.crdWrites
    ensures var s' := Do(p, s, step);
            && s'.store.svc.Some? && HasAnnotation(s) && HasAnnotation(s')
            && AnnotationOf(s) <= AnnotationOf(s')
            && s'.store.svc.value.spec.image == s.store.svc.value.spec.image
  {
    AnnotationFacts(p, s);
    Unfold(p, s);
    hide Inv, LogOk, RunsOk, CrdsOk, StoreOk, FunctionsOk, OwnersOk, ConfirmedOk, CommitsOk, ImageOk, RunOk,
         Advance, CrdAdvance, ReplyAllowed, Record, CrdServeStep, PutRoute, PutConfig, PutFunction;
    match step {
      case Serve(k, applied, reply) =>
        RunPart(p, s, k);
        ServeKeepsService(p, s, k, applied, reply);
      case CrdServe(c, applied, reply) => CrdServeShape(p, s, c, applied, reply); WritesLeaveService(s.store);
      case Other(e) => WritesLeaveService(s.store); EventLeavesService(p, s, e);
      case _ =>
    }
  }

  lemma WritesLeaveService(st: Store)
    ensures forall data :: PutConfig(st, data).svc == st.svc
    ensures forall r :: PutRoute(st, r).svc == st.svc
    ensures forall k, f :: PutFunction(st, k, f).svc == st.svc
  {
  }

  lemma EventLeavesService(p: Params, s: State, e: Event)
    requires EventEnabled(p, s, e) && s.store.svc.Some?
    ensures var s' := EventStep(p, s, e); s'.store.svc.Some? && s'.store.svc.value.spec == s.store.svc.value.spec
  {
  }

  lemma ServeKeepsService(p: Params, s: State, k: FnKey, applied: bool, reply: Reply)
    requires Enabled(p, s, Serve(k, applied, reply)) && RunOk(p, s, k, s.runs[k]) && StoreOk(p, s.store)
    requires HasAnnotation(s)
    ensures var s' := ServeStep(p, s, k, applied, reply);
            && HasAnnotation(s') && AnnotationOf(s) <= AnnotationOf(s')
            && s'.store.svc.value.spec.image == s.store.svc.value.spec.image
  {
    hide StoreOk, Advance, ReplyAllowed, Record, PutRoute, PutConfig, PutFunction, FnOk, Sound, RouteOk, Merge;
    WritesLeaveService(s.store);
    if applied && s.runs[k].WritingService? {
      CurrentService(p, s.store, s.runs[k].svc);
    }
  }

  /** Without CRD commits the annotation never goes back and the image never changes, in any continuation
      of any run, with arbitrarily stale lister reads. */
  lemma {:induction false} AnnotationNeverGoesBack(p: Params, s: State, steps: seq<Step>)
    requires Inv(p, s) && Valid(p, s, steps) && s.store.svc.Some?
    requires After(p, s, steps).log.crdWrites == s.log.crdWrites
    ensures var s' := After(p, s, steps);
            && HasAnnotation(s) && HasAnnotation(s') && AnnotationOf(s) <= AnnotationOf(s')
            && s'.store.svc.value.spec.image == s.store.svc.value.spec.image
    decreases |steps|
  {
    AnnotationFacts(p, s);
    if steps != [] {
      hide Inv, Do, Enabled;
      var next := Do(p, s, steps[0]);
      StepKeeps(p, s, steps[0]);
      RunKeeps(p, next, steps[1..]);
      CountsGrow(s, next);
      CountsGrow(next, After(p, s, steps));
      StepKeepsService(p, s, steps[0]);
      AnnotationNeverGoesBack(p, next, steps[1..]);
    }
  }

  lemma CountsGrow(s: State, s': State)
    requires Grows(s, s')
    ensures s.log.crdWrites <= s'.log.crdWrites
  {
  }

  /** The two writers do not undo each other's image: it is always the one that the last committed CRD
      reconcile wrote. */
  lemma ImageIsTheLastCommitted(p: Params, s: State)
    requires Reachable(p, s) && s.store.svc.Some?
    ensures s.log.image == Some(s.store.svc.value.spec.image)
  {
    ReachableOk(p, s);
    Unfold(p, s);
    hide Inv, LogOk, RunsOk, CrdsOk, StoreOk;
  }

  /** The ConfigMap version that a CRD reconcile carries from its read to its write. */
  function CarriedVersion(s: State, c: string): Option<Version> {
    if c !in s.crds then None
    else match s.crds[c]
      case CrdReadingImage(v) => Some(v)
      case CrdListingService(v, _) => Some(v)
      case CrdCreatingService(v, _) => Some(v)
      case CrdUpdatingService(v, _, _) => Some(v)
      case _ => None
  }

  lemma CarriedStep(p: Params, s: State, step: Step, c: string, low: Version)
    requires Inv(p, s) && Enabled(p, s, step)
    requires s.store.cm.Some? && low <= s.store.cm.value.version
    requires CarriedVersion(s, c).Some? ==> low <= CarriedVersion(s, c).value
    ensures var s' := Do(p, s, step);
            && s'.store.cm.Some? && low <= s'.store.cm.value.version
            && (CarriedVersion(s', c).Some? ==> low <= CarriedVersion(s', c).value)
  {
    hide Inv, Grows, ServeStep, EventStep, EventEnabled, Apply;
    var s' := Do(p, s, step);
    StepKeeps(p, s, step);
    ConfigStays(p, s, s');
    if step.CrdServe? && step.c == c {
      CarriedReply(p, s, step, c);
    } else if step.Other? {
      EventRuns(p, s, step.event);
    } else if step.Serve? {
      ServeRuns(p, s, step.k, step.applied, step.reply);
    }
  }

  lemma CarriedReply(p: Params, s: State, step: Step, c: string)
    requires Enabled(p, s, step) && step.CrdServe? && step.c == c
    ensures var s' := Do(p, s, step);
            CarriedVersion(s', c).Some? ==>
              CarriedVersion(s', c) == CarriedVersion(s, c)
              || (s'.store.cm.Some? && CarriedVersion(s', c) == Some(s'.store.cm.value.version))
  {
    hide PutConfig, PutService, CrdRecord;
  }

  lemma {:induction false} CarriedRun(p: Params, s: State, steps: seq<Step>, c: string, low: Version)
    requires Inv(p, s) && Valid(p, s, steps)
    requires s.store.cm.Some? && low <= s.store.cm.value.version
    requires CarriedVersion(s, c).Some? ==> low <= CarriedVersion(s, c).value
    ensures var s' := After(p, s, steps);
            && s'.store.cm.Some? && low <= s'.store.cm.value.version
            && (CarriedVersion(s', c).Some? ==> low <= CarriedVersion(s', c).value)
    decreases |steps|
  {
    hide Inv, Do, Enabled, CarriedVersion;
    if steps != [] {
      CarriedStep(p, s, steps[0], c, low);
      StepKeeps(p, s, steps[0]);
      CarriedRun(p, Do(p, s, steps[0]), steps[1..], c, low);
    }
  }

  /** A CRD reconcile lowers the annotation only if the ConfigMap was committed between that reconcile's
      ConfigMap read and its Service write: take the moment of the read, or any before it; if the write lowers
      the annotation, the ConfigMap is by then newer than it was at that moment. */
  lemma CrdLowersOnlyAfterACommit(p: Params, s: State, steps: seq<Step>, c: string, reply: Reply)
    requires Inv(p, s) && Valid(p, s, steps) && s.store.cm.Some?
    requires CarriedVersion(s, c).None? || CarriedVersion(s, c) == Some(s.store.cm.value.version)
    requires var m := After(p, s, steps);
             && m.store.svc.Some? && c in m.crds && m.crds[c].CrdUpdatingService?
             && Enabled(p, m, CrdServe(c, true, reply))
             && HasAnnotation(m) && HasAnnotation(Do(p, m, CrdServe(c, true, reply)))
             && AnnotationOf(Do(p, m, CrdServe(c, true, reply))) < AnnotationOf(m)
    ensures var m := After(p, s, steps);
            m.store.cm.Some? && s.store.cm.value.version <= AnnotationOf(Do(p, m, CrdServe(c, true, reply))) < m.store.cm.value.version
  {
    var m := After(p, s, steps);
    RunKeeps(p, s, steps);
    CarriedRun(p, s, steps, c, s.store.cm.value.version);
    AnnotationFacts(p, m);
    hide Inv, Grows, Valid, After, Enabled;
    CrdWrites(p, m, c, reply);
  }

  lemma CrdWrites(p: Params, s: State, c: string, reply: Reply)
    requires Enabled(p, s, CrdServe(c, true, reply)) && s.crds[c].CrdUpdatingService?
    ensures var s' := Do(p, s, CrdServe(c, true, reply));
            HasAnnotation(s') && AnnotationOf(s') == s.crds[c].cmVersion && s'.store.svc.value.spec.image == s.crds[c].image
  {
    hide CrdAdvance, ReplyAllowed;
  }

  /** Exactly when one step lowers the annotation: it is the applied update of a CRD reconcile that read the
      ConfigMap at an older version than the annotation names by now. */
  lemma AnnotationGoesBackExactly(p: Params, s: State, step: Step)
    requires Inv(p, s) && Enabled(p, s, step) && s.store.svc.Some?
    ensures HasAnnotation(s) && HasAnnotation(Do(p, s, step))
    ensures AnnotationOf(Do(p, s, step)) < AnnotationOf(s)
       <==> step.CrdServe? && step.applied && s.crds[step.c].CrdUpdatingService? && s.crds[step.c].cmVersion < AnnotationOf(s)
  {
    var s' := Do(p, s, step);
    AnnotationFacts(p, s);
    StepKeeps(p, s, step);
    if s'.log.crdWrites == s.log.crdWrites {
      StepKeepsService(p, s, step);
      CrdUpdateCounts(p, s, step);
    } else {
      CountedIsCrdUpdate(p, s, step);
      hide Inv, Grows, Do, Enabled;
      CrdWrites(p, s, step.c, step.reply);
    }
  }

  lemma CrdUpdateCounts(p: Params, s: State, step: Step)
    requires Enabled(p, s, step)
    ensures step.CrdServe? && step.applied && s.crds[step.c].CrdUpdatingService? ==>
              Do(p, s, step).log.crdWrites == s.log.crdWrites + 1
  {
    hide CrdAdvance, ReplyAllowed, Apply, CanApply, ServeStep, EventStep;
  }

  lemma CountedIsCrdUpdate(p: Params, s: State, step: Step)
    requires Enabled(p, s, step) && s.store.svc.Some? && Do(p, s, step).log.crdWrites != s.log.crdWrites
    ensures step.CrdServe? && step.applied && s.crds[step.c].CrdUpdatingService?
  {
    hide Advance, CrdAdvance, ReplyAllowed, Apply, PutRoute, PutConfig, PutService, PutFunction, Merge, AddressKey, RequestOf, RouteShape;
  }

  // ---- No panic ----

  /** In every run the configuration file decodes to an object and the Service carries its annotation, so
      no reconcile ever writes to a nil map, takes a missing part of a host or follows a nil address. */
  lemma NeverPanics(p: Params, s: State)
    requires Reachable(p, s)
    ensures forall k :: k in s.runs ==> !s.runs[k].Panicked?
    ensures s.store.cm.Some? ==> ConfigShape(s.store.cm.value)
    ensures s.store.svc.Some? ==> s.store.svc.value.spec.annotations.Annotations? && HasAnnotation(s)
  {
    ReachableOk(p, s);
    ConfigIsReplay(p, s);
    if s.store.svc.Some? { AnnotationFacts(p, s); }
    Unfold(p, s);
    hide Inv, LogOk, CrdsOk, StoreOk, RunOk;
    forall k | k in s.runs ensures !s.runs[k].Panicked? { NotPanicked(p, s, k, s.runs[k]); }
  }

  lemma NotPanicked(p: Params, s: State, k: FnKey, ph: Phase)
    requires RunOk(p, s, k, ph)
    ensures !ph.Panicked?
  {
  }
}
