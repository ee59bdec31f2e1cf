/** The API server as a reconciler's code meets it: it asks, others act in between, and it gets one of the
    replies that the protocol allows. */
module World {
  import opened Names
  import opened Cluster
  import opened ClusterObjects
  import opened Programs
  import opened Protocol
  import opened Invariant
  import opened Preservation

  /** What others do before a request is served, and how the server means to answer it. */
  datatype Turn = Turn(others: seq<Step>, applied: bool, reply: Reply)

  datatype Caller = FnCaller(k: FnKey) | CrdCaller(c: string)

  /** The steps that are the caller's own. */
  predicate Own(step: Step, me: Caller) {
    match me
    case FnCaller(k) => (step.Begin? || step.Serve? || step.Crash?) && step.k == k
    case CrdCaller(c) => (step.CrdBegin? || step.CrdServe? || step.CrdCrash?) && step.c == c
  }

  ghost predicate Follows(p: Params, s: State, s': State) {
    Inv(p, s') && Reaches(p, s, s') && Grows(s, s')
  }

  lemma FollowsSelf(p: Params, s: State)
    requires Inv(p, s)
    ensures Follows(p, s, s)
  {
    Unfold(p, s);
    hide Inv, LogOk, RunsOk, CrdsOk, Reaches, FunctionsOk, OwnersOk, ConfirmedOk, CommitsOk, ImageOk;
    ReachesSelf(p, s);
    FnsSameGrows(s, s);
  }

  lemma FollowsTransitive(p: Params, a: State, b: State, c: State)
    requires Follows(p, a, b) && Follows(p, b, c)
    ensures Follows(p, a, c)
  {
    hide Inv, Reaches, Grows;
    ReachesTransitive(p, a, b, c);
    GrowsTransitive(a, b, c);
  }

  lemma FollowsStep(p: Params, s: State, step: Step)
    requires Inv(p, s) && Enabled(p, s, step)
    ensures Follows(p, s, Do(p, s, step))
  {
    hide Inv, Enabled, Do, Reaches, Grows;
    StepKeeps(p, s, step);
    ReachesSelf(p, s);
    ReachesStep(p, s, s, step);
  }

  ghost predicate SamePhase(s: State, s': State, me: Caller) {
    match me
    case FnCaller(k) => (k in s'.runs <==> k in s.runs) && (k in s.runs ==> s'.runs[k] == s.runs[k])
    case CrdCaller(c) => (c in s'.crds <==> c in s.crds) && (c in s.crds ==> s'.crds[c] == s.crds[c])
  }

  lemma OthersLeavePhase(p: Params, s: State, step: Step, me: Caller)
    requires Enabled(p, s, step) && !Own(step, me)
    ensures SamePhase(s, Do(p, s, step), me)
  {
    hide RequestOf, Advance, CrdRequestOf, CrdAdvance, Apply, CanApply, ReplyAllowed, Record, CrdRecord, PutFunction, PutRoute,
         PutService, RouteShape;
  }

  /** A configuration write that succeeded, or a value that was found in place. */
  predicate Confirms(p: Params, ph: Phase, reply: Reply) {
    || (ph.WritingConfig? && reply.GotConfig?)
    || (ph.GettingConfig? && reply.GotConfig? && Merge(p.skipEqual, reply.cm, ph.fn.spec, ph.route.address) == Keep)
  }

  lemma ServeConfirms(p: Params, s: State, k: FnKey, applied: bool, reply: Reply)
    requires Enabled(p, s, Serve(k, applied, reply)) && Confirms(p, s.runs[k], reply)
    requires RunOk(p, s, k, s.runs[k])
    ensures var s' := ServeStep(p, s, k, applied, reply);
            s.runs[k].fn.uid in s'.log.confirmed && s'.log.confirmed[s.runs[k].fn.uid] == s.runs[k].fn.generation
  {
    hide Advance, Apply, CanApply, Merge, FnOk, Sound, SvcOk;
  }

  lemma AnswerFits(st: Store, r: Request, applied: bool, reply: Reply)
    requires ReplyAllowed(st, r, applied, reply)
    ensures ReplyAllowed(st, r, true, reply)
  {
  }

  class World {
    const p: Params
    var s: State
    var script: seq<Turn>
    /** The Service objects that the lister handed out, by version. Every reconcile shares them. */
    var cache: map<Version, ServiceObject>
    /** The requests of the reconcile that was started last, in order, and the replies to them. */
    ghost var asked: seq<Request>
    ghost var heard: set<Reply>

    constructor (p: Params, s: State, script: seq<Turn>)
      ensures this.p == p && this.s == s && this.script == script && cache == map[] && CacheOk()
    {
      this.p, this.s, this.script, cache, asked, heard := p, s, script, map[], [], {};
    }

    /** Every object in the cache is what the server stored under its version. */
    ghost predicate CacheOk()
      reads this, cache.Values, set o | o in cache.Values :: o.annotations
    {
      AsStored(cache, s.store.oldServices)
    }

    /** The lister hands out its own object, not a copy. */
    method Cached(service: Service) returns (x: ServiceObject)
      requires CacheOk() && HeldService(s.store, service)
      modifies this`cache
      ensures CacheOk() && Extends(old(cache), cache)
      ensures x.View() == service && service.version in cache && cache[service.version] == x
    {
      if service.version in cache { return cache[service.version]; }
      hide ServiceObject.View;
      x := new ServiceObject.FromValue(p.functionName, service);
      cache := cache[service.version := x];
    }

    method NextTurn() returns (turn: Turn)
      modifies this`script
    {
      turn := Turn([], false, NotFound);
      if script != [] { turn, script := script[0], script[1..]; }
    }

    /** Others act: whatever is enabled and not the caller's own. */
    method Interfere(others: seq<Step>, me: Caller)
      requires Inv(p, s)
      modifies this`s
      ensures Follows(p, old(s), s) && SamePhase(old(s), s, me)
    {
      hide Inv, Enabled, Do, Follows, Own, SamePhase;
      FollowsSelf(p, s);
      SamePhaseSelf(s, me);
      for i := 0 to |others|
        invariant Inv(p, s) && Follows(p, old(s), s) && SamePhase(old(s), s, me)
      {
        var step := others[i];
        if !Own(step, me) && Enabled(p, s, step) {
          FollowsStep(p, s, step);
          FollowsInv(p, s, Do(p, s, step));
          FollowsTransitive(p, old(s), s, Do(p, s, step));
          OthersLeavePhase(p, s, step, me);
          SamePhaseTransitive(old(s), s, Do(p, s, step), me);
          s := Do(p, s, step);
        }
      }
    }

    /** Starts the reconcile of a Function. */
    method StartReconcile(k: FnKey)
      requires Inv(p, s) && Free(s, k) && CacheOk()
      modifies this`s, this`asked, this`heard
      ensures asked == [] && heard == {}
      ensures CacheOk()
      ensures Follows(p, old(s), s) && k in s.runs && s.runs[k] == Fetching && s.store == old(s.store)
    {
      hide Inv, Follows, AsStored;
      FollowsStep(p, s, Begin(k));
      StillAsStored(p, cache, s, Do(p, s, Begin(k)));
      asked, heard := [], {};
      s := Do(p, s, Begin(k));
    }

    /** One request of the reconcile of `k`. It must be the request of its phase; the reply moves it on. */
    method Call(k: FnKey, req: Request) returns (reply: Reply)
      requires CacheOk() && Inv(p, s) && k in s.runs && Active(s.runs[k]) && req == RequestOf(p, k, s.runs[k])
      modifies this`s, this`script, this`asked, this`heard
      ensures asked == old(asked) + [req] && heard == old(heard) + {reply} && CacheOk()
      ensures Follows(p, old(s), s) && k in s.runs && s.runs[k] == Advance(p, k, old(s.runs[k]), reply)
      ensures ReplyAllowed(s.store, req, true, reply)
      ensures Confirms(p, old(s.runs[k]), reply) ==>
                var f := old(s.runs[k]).fn;
                f.uid in s.log.confirmed && s.log.confirmed[f.uid] == f.generation
    {
      hide AsStored, Inv, RequestOf, Advance, Apply, CanApply, ReplyAllowed, Record, Follows, RunOk, Confirms;
      var turn := NextTurn();
      Interfere(turn.others, FnCaller(k));
      FollowsInv(p, old(s), s);
      var applied := turn.applied && CanApply(s.store, req);
      var after := if applied then Apply(s.store, req) else s.store;
      reply := if ReplyAllowed(after, req, applied, turn.reply) then turn.reply else Failed("unavailable");
      assert ReplyAllowed(after, req, applied, reply) by { FailureIsAllowed(after, req, applied); }
      var step := Serve(k, applied, reply);
      FollowsStep(p, s, step);
      FollowsTransitive(p, old(s), s, Do(p, s, step));
      AnswerFits(after, req, applied, reply);
      RunInOrder(p, s, k);
      if Confirms(p, s.runs[k], reply) { ServeConfirms(p, s, k, applied, reply); }
      StillAsStored(p, cache, old(s), Do(p, s, step));
      s, asked, heard := Do(p, s, step), asked + [req], heard + {reply};
    }

    /** Starts the reconcile of a CRD. */
    method StartCrdReconcile(c: string)
      requires Inv(p, s) && CrdFree(s, c) && CacheOk()
      modifies this`s, this`asked, this`heard
      ensures asked == [] && heard == {}
      ensures CacheOk()
      ensures Follows(p, old(s), s) && c in s.crds && s.crds[c] == CrdGettingConfig && s.store == old(s.store)
    {
      hide Inv, Follows, AsStored;
      FollowsStep(p, s, CrdBegin(c));
      StillAsStored(p, cache, s, Do(p, s, CrdBegin(c)));
      asked, heard := [], {};
      s := Do(p, s, CrdBegin(c));
    }

    /** One request of the reconcile of the CRD `c`. */
    method CrdCall(c: string, req: Request) returns (reply: Reply)
      requires CacheOk() && Inv(p, s) && c in s.crds && !s.crds[c].CrdDone? && req == CrdRequestOf(p, s.crds[c])
      modifies this`s, this`script, this`asked, this`heard
      ensures asked == old(asked) + [req] && heard == old(heard) + {reply} && CacheOk()
      ensures Follows(p, old(s), s) && c in s.crds && s.crds[c] == CrdAdvance(p, old(s.crds[c]), reply)
      ensures ReplyAllowed(s.store, req, true, reply)
      ensures WritesService(req) && reply.GotService? ==> reply.service.spec == req.service.spec
    {
      hide AsStored, Inv, CrdRequestOf, CrdAdvance, Apply, CanApply, ReplyAllowed, CrdRecord, Follows, WritesService;
      var turn := NextTurn();
      Interfere(turn.others, CrdCaller(c));
      FollowsInv(p, old(s), s);
      var applied := turn.applied && CanApply(s.store, req);
      var after := if applied then Apply(s.store, req) else s.store;
      reply := if ReplyAllowed(after, req, applied, turn.reply) then turn.reply else Failed("unavailable");
      assert ReplyAllowed(after, req, applied, reply) by { FailureIsAllowed(after, req, applied); }
      var step := CrdServe(c, applied, reply);
      FollowsStep(p, s, step);
      FollowsTransitive(p, old(s), s, Do(p, s, step));
      AnswerFits(after, req, applied, reply);
      if WritesService(req) && reply.GotService? { AsWritten(s.store, req, applied, reply); }
      StillAsStored(p, cache, old(s), Do(p, s, step));
      s, asked, heard := Do(p, s, step), asked + [req], heard + {reply};
    }
  }

  /** Each cached object holds what was stored under its version. */
  ghost predicate AsStored(cache: map<Version, ServiceObject>, stored: map<Version, Service>)
    reads cache.Values, set o | o in cache.Values :: o.annotations
  {
    forall v :: v in cache ==> v in stored && cache[v].View() == stored[v]
  }

  lemma StillAsStored(p: Params, cache: map<Version, ServiceObject>, s: State, s': State)
    requires AsStored(cache, s.store.oldServices) && Follows(p, s, s')
    ensures AsStored(cache, s'.store.oldServices)
  {
    KeepsOldServices(p, s, s');
    hide Follows, ServiceObject.View;
  }

  /** The cache may get more objects; those it has stay. */
  ghost predicate Extends(before: map<Version, ServiceObject>, after: map<Version, ServiceObject>) {
    forall v :: v in before ==> v in after && after[v] == before[v]
  }

  lemma KeepsOldServices(p: Params, s: State, s': State)
    requires Follows(p, s, s')
    ensures forall v :: v in s.store.oldServices ==> v in s'.store.oldServices && s'.store.oldServices[v] == s.store.oldServices[v]
  {
    hide Inv, Reaches, LogGrows, FnGrows;
  }

  predicate WritesService(r: Request) { r.CreateService? || r.UpdateService? }

  /** A Service write that is answered with a Service was stored as asked. */
  lemma AsWritten(st: Store, r: Request, applied: bool, reply: Reply)
    requires WritesService(r) && reply.GotService? && (applied ==> CanApply(st, r))
    requires ReplyAllowed(if applied then Apply(st, r) else st, r, applied, reply)
    ensures reply.service.spec == r.service.spec
  {
  }

  lemma FollowsInv(p: Params, s: State, s': State)
    requires Follows(p, s, s')
    ensures Inv(p, s')
  {
  }

  lemma SamePhaseSelf(s: State, me: Caller)
    ensures SamePhase(s, s, me)
  {
  }

  lemma SamePhaseTransitive(a: State, b: State, c: State, me: Caller)
    requires SamePhase(a, b, me) && SamePhase(b, c, me)
    ensures SamePhase(a, c, me)
  {
  }

  lemma FailureIsAllowed(st: Store, r: Request, applied: bool)
    ensures ReplyAllowed(st, r, applied, Failed("unavailable"))
  {
  }

  lemma RunInOrder(p: Params, s: State, k: FnKey)
    requires Inv(p, s) && k in s.runs
    ensures RunOk(p, s, k, s.runs[k])
  {
    hide RunOk, StoreOk, LogOk, CrdsOk;
  }
}
