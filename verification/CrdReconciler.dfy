/** The reconciler of the CRDs, request by request as its code makes them, on heap objects. */
module CrdReconciler {
  import opened Names
  import opened Cluster
  import opened ClusterObjects
  import opened Programs
  import opened Protocol
  import opened Invariant
  import opened Preservation
  import opened Theorems
  import opened World

  /** What the lister says of the CRD that a reconcile is about. */
  datatype Listed = Found(deleting: bool) | Missing | LookupFailed(message: string)

  method MakeKnativeService(functionName: string, version: Version, image: string) returns (service: ServiceObject)
    ensures fresh(service) && service.annotations != null && fresh(service.annotations)
    ensures service.name == functionName && service.image == image
    ensures service.annotations.values == map[CONFIG_MAP_ANNOTATION := version]
    ensures service.volume == Volume("config-function-" + functionName, "config-function-" + functionName)
    ensures service.mount == Mount(service.volume.name, "/ko-app/___config.json", "___config.json")
    ensures service.View() == Service(0, MakeServiceSpec(functionName, version, image), NoCondition)
  {
    service := new ServiceObject.FromValue(functionName, Service(0, MakeServiceSpec(functionName, version, image), NoCondition));
  }

  /** A Service that really was stored with the spec for a committed ConfigMap version and an image. */
  ghost predicate Deployed(p: Params, s: State, x: Service, v: Version, image: string) {
    HeldService(s.store, x) && v in s.store.oldConfigs && x.spec == MakeServiceSpec(p.functionName, v, image)
  }

  class CrdReconciler {
    const world: World

    constructor (world: World)
      ensures this.world == world
    {
      this.world := world;
    }

    /** Makes sure that the ConfigMap exists; what is returned is its version, not older than the one at the
        time of the call. */
    method ReconcileConfig(c: string) returns (cm: ConfigMapObject?, err: Option<string>)
      requires Inv(world.p, world.s) && c in world.s.crds && world.s.crds[c] == CrdGettingConfig
      requires world.CacheOk()
      modifies world
      ensures Follows(world.p, old(world.s), world.s) && c in world.s.crds
      ensures world.CacheOk() && world.cache == old(world.cache)
      ensures cm == null <==> err.Some?
      ensures world.s.crds[c] == if cm != null then CrdReadingImage(cm.version) else CrdDone(err)
      ensures cm != null ==> GotConfig(cm.View()) in world.heard
      ensures cm != null && old(world.s).store.cm.Some? ==> old(world.s).store.cm.value.version <= cm.version
    {
      hide Inv, Follows, AsStored;
      cm, err := null, None;
      ghost var s0 := world.s;
      var reply := world.CrdCall(c, GetConfig);
      if !reply.GotConfig? {
        if !reply.NotFound? { return null, Some(ErrorText(reply)); }
        ghost var s1 := world.s;
        FollowsInv(world.p, s0, s1);
        reply := world.CrdCall(c, CreateConfig(MakeConfigMap()));
        FollowsTransitive(world.p, s0, s1, world.s);
        if !reply.GotConfig? { return null, Some(ErrorText(reply)); }
      }
      ConfigNotOlder(world.p, s0, world.s);
      cm := new ConfigMapObject.FromValue(reply.cm);
    }

    /** The image is an annotation of the CRD. */
    method ReadImage(c: string, v: Version) returns (image: Option<string>, err: Option<string>)
      requires Inv(world.p, world.s) && c in world.s.crds && world.s.crds[c] == CrdReadingImage(v)
      requires world.CacheOk()
      modifies world
      ensures Follows(world.p, old(world.s), world.s) && c in world.s.crds
      ensures world.CacheOk() && world.cache == old(world.cache) && old(world.heard) <= world.heard
      ensures image.None? <==> err.Some?
      ensures world.s.crds[c] == if image.Some? then CrdListingService(v, image.value) else CrdDone(err)
      ensures image.Some? ==> GotCrd(image) in world.heard
    {
      hide Inv, Follows, AsStored;
      var reply := world.CrdCall(c, ListCrd);
      if !reply.GotCrd? { return None, Some(ErrorText(reply)); }
      if reply.image.None? { return None, Some("Missing functions.knative.dev/image annotation on function CRD"); }
      return reply.image, None;
    }

    /** Creates the Service, or overwrites its spec on a deep copy of the lister's object. What is returned
        was stored, with exactly the version of the ConfigMap and the image that the CRD lister answered. */
    method ReconcileService(c: string, cm: ConfigMapObject) returns (service: ServiceObject?, err: Option<string>, ghost image: string)
      requires Inv(world.p, world.s) && c in world.s.crds && world.s.crds[c] == CrdReadingImage(cm.version)
      requires world.CacheOk()
      modifies world
      ensures Follows(world.p, old(world.s), world.s)
      ensures world.CacheOk() && Extends(old(world.cache), world.cache) && old(world.heard) <= world.heard
      ensures c in world.s.crds && world.s.crds[c] == CrdDone(err)
      ensures service == null <==> err.Some?
      ensures service != null ==>
                GotCrd(Some(image)) in world.heard && Deployed(world.p, world.s, service.View(), cm.version, image)
    {
      hide Inv, Follows, Deployed, ServiceObject.View, WritesService, AsStored;
      image := "";
      var found, failure := ReadImage(c, cm.version);
      if found.None? { return null, failure, image; }
      image := found.value;
      ghost var s1 := world.s;
      FollowsInv(world.p, old(world.s), s1);
      var expected := MakeKnativeService(world.p.functionName, cm.version, found.value);
      ghost var listed;
      service, err, listed := WriteService(c, cm.version, image, expected);
      FollowsTransitive(world.p, old(world.s), s1, world.s);
    }

    /** A Service with the wanted spec is not written, whatever else is stored; another one is overwritten,
        and a missing one created. */
    method WriteService(c: string, ghost v: Version, ghost image: string, expected: ServiceObject)
      returns (service: ServiceObject?, err: Option<string>, ghost listed: Reply)
      requires Inv(world.p, world.s) && c in world.s.crds && world.s.crds[c] == CrdListingService(v, image)
      requires world.CacheOk()
      requires expected.View() == Service(0, MakeServiceSpec(world.p.functionName, v, image), NoCondition)
      modifies world
      ensures Follows(world.p, old(world.s), world.s)
      ensures world.CacheOk() && Extends(old(world.cache), world.cache) && old(world.heard) <= world.heard
      ensures c in world.s.crds && world.s.crds[c] == CrdDone(err)
      ensures service == null <==> err.Some?
      ensures service != null ==> Deployed(world.p, world.s, service.View(), v, image)
      ensures listed in world.heard
      ensures listed.GotService? && listed.service.spec == MakeServiceSpec(world.p.functionName, v, image) ==>
                err.None? && service.View() == listed.service && world.asked == old(world.asked) + [ListService]
      ensures listed.GotService? && listed.service.spec != MakeServiceSpec(world.p.functionName, v, image) ==>
                world.asked == old(world.asked)
                  + [ListService, UpdateService(listed.service.(spec := MakeServiceSpec(world.p.functionName, v, image)))]
      ensures listed.NotFound? ==> world.asked == old(world.asked) + [ListService, CreateService(expected.View())]
      ensures !listed.GotService? && !listed.NotFound? ==>
                err == Some(ErrorText(listed)) && world.asked == old(world.asked) + [ListService]
    {
      hide Inv, Follows, Deployed, ServiceObject.View, AsStored, MakeServiceSpec;
      ghost var s0 := world.s;
      ConfigVersionIsCommitted(world.p, s0, c);
      var reply := world.CrdCall(c, ListService);
      listed := reply;
      ghost var s1 := world.s;
      FollowsInv(world.p, s0, s1);
      if reply.NotFound? {
        service, err := SendService(c, v, image, CreateService(expected.View()));
        FollowsTransitive(world.p, s0, s1, world.s);
        return;
      }
      if !reply.GotService? { return null, Some(ErrorText(reply)), reply; }
      service := world.Cached(reply.service);
      err := None;
      if expected.View().spec == service.View().spec {
        AnsweredIsDeployed(world.p, s0, s1, v, image, reply);
        return;
      }
      service, err := OverwriteService(c, v, image, service, expected);
      FollowsTransitive(world.p, s0, s1, world.s);
    }

    /** Sends a deep copy with the expected spec; the object in the lister's cache is not written. */
    method OverwriteService(c: string, ghost v: Version, ghost image: string, cached: ServiceObject, expected: ServiceObject)
      returns (service: ServiceObject?, err: Option<string>)
      requires Inv(world.p, world.s) && c in world.s.crds && world.s.crds[c] == CrdUpdatingService(v, image, cached.View())
      requires world.CacheOk()
      requires expected.View().spec == MakeServiceSpec(world.p.functionName, v, image)
      modifies world
      ensures Follows(world.p, old(world.s), world.s) && cached.View() == old(cached.View())
      ensures world.CacheOk() && world.cache == old(world.cache) && old(world.heard) <= world.heard
      ensures c in world.s.crds && world.s.crds[c] == CrdDone(err)
      ensures service == null <==> err.Some?
      ensures service != null ==> Deployed(world.p, world.s, service.View(), v, image)
      ensures world.asked == old(world.asked) + [UpdateService(old(cached.View()).(spec := old(expected.View()).spec))]
    {
      hide Inv, Follows, Deployed, ServiceObject.View, AsStored, MakeServiceSpec;
      var copy := cached.DeepCopy();
      copy.SetSpec(expected);
      service, err := SendService(c, v, image, UpdateService(copy.View()));
    }

    /** The create or the update that the phase asks for. */
    method SendService(c: string, ghost v: Version, ghost image: string, request: Request)
      returns (service: ServiceObject?, err: Option<string>)
      requires Inv(world.p, world.s) && c in world.s.crds && !world.s.crds[c].CrdDone?
      requires world.CacheOk() && CarriedVersion(world.s, c) == Some(v)
      requires request == CrdRequestOf(world.p, world.s.crds[c]) && WritesService(request)
      requires request.service.spec == MakeServiceSpec(world.p.functionName, v, image)
      modifies world
      ensures Follows(world.p, old(world.s), world.s)
      ensures world.CacheOk() && world.cache == old(world.cache) && old(world.heard) <= world.heard
      ensures c in world.s.crds && world.s.crds[c] == CrdDone(err)
      ensures service == null <==> err.Some?
      ensures service != null ==> Deployed(world.p, world.s, service.View(), v, image)
      ensures world.asked == old(world.asked) + [request]
    {
      hide Inv, Follows, Deployed, ServiceObject.View, AsStored;
      ghost var s0 := world.s;
      ConfigVersionIsCommitted(world.p, s0, c);
      var reply := world.CrdCall(c, request);
      if !reply.GotService? { return null, Some(ErrorText(reply)); }
      AnsweredIsDeployed(world.p, s0, world.s, v, image, reply);
      service := new ServiceObject.FromValue(world.p.functionName, reply.service);
      err := None;
    }

    /** Reconciles a CRD: nothing to do when the lister does not have it or it is being deleted, else one
        complete reconcile of the protocol, among arbitrary steps of others. Without error a Service was
        stored whose spec is made from exactly the ConfigMap version and the image that were answered to this
        reconcile, and this version is not older than the ConfigMap at the time of the call. Every object in
        the lister's cache is what it was. */
    method Reconcile(c: string, crd: Listed) returns (err: Option<string>, ghost x: Service, ghost cm: ConfigMap, ghost image: string)
      requires Inv(world.p, world.s) && CrdFree(world.s, c) && world.CacheOk()
      modifies world
      ensures Follows(world.p, old(world.s), world.s) && world.CacheOk()
      ensures forall v :: v in old(world.cache) ==>
                v in world.cache && world.cache[v] == old(world.cache[v]) && world.cache[v].View() == old(world.cache[v].View())
      ensures crd.LookupFailed? ==> err == Some(crd.message)
      ensures crd != Found(false) ==> world.s == old(world.s) && (err.None? <==> !crd.LookupFailed?)
      ensures crd == Found(false) ==> c in world.s.crds && world.s.crds[c] == CrdDone(err)
      ensures crd == Found(false) && err.None? ==>
                && GotConfig(cm) in world.heard && GotCrd(Some(image)) in world.heard
                && Deployed(world.p, world.s, x, cm.version, image)
                && (old(world.s).store.cm.Some? ==> old(world.s).store.cm.value.version <= cm.version)
    {
      hide Inv, Follows, Deployed, ServiceObject.View, AsStored;
      err, x, cm, image := None, Service(0, MakeServiceSpec("", 0, ""), NoCondition), MakeConfigMap(), "";
      FollowsSelf(world.p, world.s);
      match crd {
        case Missing => return;
        case LookupFailed(message) => err := Some(message); return;
        case Found(deleting) =>
          if deleting { return; }
      }
      world.StartCrdReconcile(c);
      ghost var s1 := world.s;
      FollowsInv(world.p, old(world.s), s1);
      var config;
      config, err := ReconcileConfig(c);
      ghost var s2 := world.s;
      FollowsTransitive(world.p, old(world.s), s1, s2);
      if config != null {
        cm := config.View();
        FollowsInv(world.p, s1, s2);
        var service;
        service, err, image := ReconcileService(c, config);
        FollowsTransitive(world.p, old(world.s), s2, world.s);
        if service != null { x := service.View(); }
      }
    }
  }

  lemma ConfigNotOlder(p: Params, s: State, s': State)
    requires Inv(p, s) && Follows(p, s, s') && s'.store.cm.Some?
    ensures s.store.cm.Some? ==> s.store.cm.value.version <= s'.store.cm.value.version
  {
    hide Inv, Reaches, Grows;
    if s.store.cm.Some? { ConfigStays(p, s, s'); }
  }

  lemma ConfigVersionIsCommitted(p: Params, s: State, c: string)
    requires Inv(p, s) && CarriedVersion(s, c).Some?
    ensures CarriedVersion(s, c).value in s.store.oldConfigs
  {
    hide StoreOk, LogOk, RunsOk;
  }

  /** A Service that was listed or written, with the wanted spec. */
  lemma AnsweredIsDeployed(p: Params, s: State, s': State, v: Version, image: string, reply: Reply)
    requires Follows(p, s, s') && v in s.store.oldConfigs
    requires reply.GotService? && reply.service.spec == MakeServiceSpec(p.functionName, v, image)
    requires HeldService(s'.store, reply.service) || s'.store.svc == Some(reply.service)
    ensures Deployed(p, s', reply.service, v, image)
  {
    Unfold(p, s');
    hide Inv, Reaches, LogOk, RunsOk, CrdsOk, ConfigsOk, RoutesOk, LogGrows, FnGrows, MakeServiceSpec;
  }
}
