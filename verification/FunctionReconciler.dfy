/** The reconciler of one function kind, request by request as its code makes them, on heap objects. */
module FunctionReconciler {
  import opened Names
  import L = Lifecycle
  import opened Cluster
  import opened Programs
  import opened Protocol
  import opened Invariant
  import opened Preservation
  import opened Objects
  import opened ClusterObjects
  import opened World

  /** The reconcile of `k` stands at a phase. */
  ghost predicate Stands(p: Params, s: State, k: FnKey, ph: Phase) {
    Inv(p, s) && k in s.runs && s.runs[k] == ph
  }

  ghost predicate Backed(s: State, f: Function) {
    f.uid in s.log.confirmed && f.generation <= s.log.confirmed[f.uid]
  }

  lemma BackedGrows(p: Params, s: State, s': State, f: Function)
    requires Backed(s, f) && Follows(p, s, s')
    ensures Backed(s', f)
  {
    hide Inv, Reaches, StoreGrows, FnGrows;
  }

  class FunctionReconciler {
    const world: World

    constructor (world: World)
      ensures this.world == world
    {
      this.world := world;
    }

    /** Reads the Service from the lister. The object belongs to the lister's cache. */
    method CheckService(k: FnKey) returns (svc: ServiceObject?, err: Option<string>)
      requires Inv(world.p, world.s) && k in world.s.runs && world.s.runs[k].CheckingService?
      requires world.CacheOk()
      modifies world
      ensures world.CacheOk() && Extends(old(world.cache), world.cache)
      ensures Follows(world.p, old(world.s), world.s) && k in world.s.runs
      ensures svc == null <==> err.Some?
      ensures var f, st := old(world.s.runs[k]).fn, old(world.s.runs[k]).st;
              world.s.runs[k] ==
                if svc != null then AfterService(f, st, svc.View())
                else Conclude(f, L.MarkFalse(st, L.ServiceReady, "CheckExistFailed", err.value), err)
    {
      hide Inv, Follows, AsStored, AfterService, Conclude, L.MarkFalse;
      svc, err := null, None;
      var reply := world.Call(k, ListService);
      if !reply.GotService? { return null, Some(ErrorText(reply)); }
      svc := world.Cached(reply.service);
    }

    method PropagateServiceStatusIfError(fn: FunctionObject, svc: ServiceObject, ghost f: Function) returns (err: Option<string>)
      modifies fn.status
      ensures fn.View() == old(fn.View()).(status := fn.status.View())
      ensures AfterService(f, old(fn.status.View()), svc.View()) ==
              if err.None? then FindingRoute(f, fn.status.View(), svc.View()) else Conclude(f, fn.status.View(), err)
    {
      hide L.MarkFalse, FunctionStatus.View, Conclude;
      if !svc.readiness.IsReady? {
        if svc.readiness.NoCondition? {
          fn.status.MarkFalse(L.ServiceReady, "Unknown", "");
        } else {
          fn.status.MarkFalse(L.ServiceReady, svc.readiness.reason, svc.readiness.message);
        }
        return Some("service is not ready");
      }
      return None;
    }

    /** Finds the Function's Route in the lister or creates it; a Route of another owner is an error. */
    method ReconcileRoute(k: FnKey, fn: FunctionObject) returns (route: Option<Route>, err: Option<string>)
      requires Inv(world.p, world.s) && k in world.s.runs && world.s.runs[k].FindingRoute? && fn.uid == world.s.runs[k].fn.uid
      requires world.CacheOk()
      modifies world
      ensures world.CacheOk() && world.cache == old(world.cache)
      ensures Follows(world.p, old(world.s), world.s) && k in world.s.runs
      ensures route.None? <==> err.Some?
      ensures var f, st, x := old(world.s.runs[k]).fn, old(world.s.runs[k]).st, old(world.s.runs[k]).svc;
              world.s.runs[k] == if route.Some? then AfterRoute(f, st, x, route.value) else RouteFailed(f, st, err.value)
      ensures route.Some? ==> route.value.name == RouteName(world.p, k) && route.value.owner == fn.uid
    {
      hide Inv, Follows, AsStored, AfterRoute, RouteFailed;
      var reply := world.Call(k, ListRoute(RouteName(world.p, k)));
      if !reply.GotRoute? {
        if reply.NotFound? {
          ghost var mid := world.s;
          FollowsInv(world.p, old(world.s), mid);
          reply := world.Call(k, CreateRoute(MakeRoute(world.p, k, fn.uid)));
          FollowsTransitive(world.p, old(world.s), mid, world.s);
          if !reply.GotRoute? { return None, Some(ErrorText(reply)); }
          return Some(reply.route), None;
        }
        return None, Some(ErrorText(reply));
      }
      if reply.route.owner != fn.uid { return None, Some("Function does not own Route"); }
      return Some(reply.route), None;
    }

    method PropagateRouteStatus(fn: FunctionObject, route: Route, ghost f: Function, ghost x: Service) returns (err: Option<string>)
      modifies fn.status
      ensures fn.View() == old(fn.View()).(status := fn.status.View())
      ensures AfterRoute(f, old(fn.status.View()), x, route) ==
              if err.None? then GettingConfig(f, fn.status.View(), x, route) else Conclude(f, fn.status.View(), err)
    {
      hide L.MarkFalse, L.MarkTrue, FunctionStatus.View, Conclude;
      if !route.readiness.IsReady? {
        if route.readiness.NoCondition? {
          fn.status.MarkFalse(L.RouteReady, "Unknown", "");
        } else {
          fn.status.MarkFalse(L.RouteReady, route.readiness.reason, route.readiness.message);
        }
        return Some("route is not ready");
      }
      fn.status.MarkTrue(L.RouteReady);
      return None;
    }

    /** The comparison that guards the configuration write. */
    predicate SemanticEqual(old_: Json, data: Json)
      reads this, world
    {
      world.p.skipEqual && old_ == data
    }

    /** Brings the freshly read ConfigMap up to date in place, without any request. */
    method MergeInto(cm: ConfigMapObject, data: Json, address: RouteAddress) returns (update: bool, err: Option<string>)
      requires !Merge(world.p.skipEqual, cm.View(), data, address).MergePanic?
      modifies cm, cm.data
      ensures cm.version == old(cm.version)
      ensures Merge(world.p.skipEqual, old(cm.View()), data, address) ==
              if err.Some? then MergeError(err.value) else if update then Rewrite(cm.View()) else Keep
      ensures err.None? && !update ==> cm.View() == old(cm.View())
    {
      ghost var before := cm.View();
      update := false;
      err := None;
      if cm.data == null {
        cm.data := new FilesObject(map[]);
        update := true;
      }
      if CONFIG_FILE !in cm.data.files {
        cm.data.files := cm.data.files[CONFIG_FILE := Object(map[])];
        update := true;
      }
      var text := cm.data.files[CONFIG_FILE];
      if text.Malformed? { return update, Some("Unable to deserialize existing configuration"); }
      if address.Host? {
        var parts := Split(address.host, '.');
        var host := parts[0] + "." + parts[1];
        if host !in text.entries || !SemanticEqual(text.entries[host], data) {
          text := Object(text.entries[host := data]);
          update := true;
        }
      }
      if update {
        ghost var files := if before.data.Files? then before.data.files else map[];
        assert cm.data.files[CONFIG_FILE := text] == files[CONFIG_FILE := text];
        cm.data.files := cm.data.files[CONFIG_FILE := text];
      }
    }

    /** Reads the ConfigMap, merges the Function's entry into it and writes it back if anything changed. */
    method ReconcileConfig(k: FnKey, fn: FunctionObject, route: Route)
      returns (cm: ConfigMapObject?, err: Option<string>, ghost read: Reply)
      requires Inv(world.p, world.s) && k in world.s.runs && world.s.runs[k].GettingConfig?
      requires world.s.runs[k].route == route && fn.SpecView() == world.s.runs[k].fn.spec
      requires world.CacheOk()
      modifies world
      ensures world.CacheOk() && world.cache == old(world.cache)
      ensures Follows(world.p, old(world.s), world.s) && k in world.s.runs
      ensures cm == null <==> err.Some?
      ensures var ph := old(world.s.runs[k]);
              world.s.runs[k] == if cm != null then AfterConfig(world.p, ph.fn, ph.st, ph.svc, ph.route, cm.version)
                                 else ConfigFailed(ph.fn, ph.st, err.value)
      ensures cm != null ==> Backed(world.s, old(world.s.runs[k]).fn)
      ensures read in world.heard
      ensures world.asked == old(world.asked) + [GetConfig] + Update(world.p, read, old(fn.SpecView()), route.address)
    {
      hide ReplyAllowed, ConfigMapObject.View, FunctionObject.SpecView, Inv, Follows, AsStored, AfterConfig, ConfigFailed, Merge;
      var reply := world.Call(k, GetConfig);
      read := reply;
      if !reply.GotConfig? { return null, Some(ErrorText(reply)), read; }
      FollowsInv(world.p, old(world.s), world.s);
      NoPanic(world.p, world.s, k);
      cm := new ConfigMapObject.FromValue(reply.cm);
      var update, failure := MergeInto(cm, fn.SpecView(), route.address);
      if failure.Some? { return null, failure, read; }
      if update {
        ghost var mid := world.s;
        reply := world.Call(k, UpdateConfig(cm.View()));
        FollowsTransitive(world.p, old(world.s), mid, world.s);
        if !reply.GotConfig? { return null, Some(ErrorText(reply)), read; }
        cm := new ConfigMapObject.FromValue(reply.cm);
      }
      return cm, None, read;
    }

    /** Points the Service to the ConfigMap version, on a deep copy of the lister's object, which stays as it is. */
    method ReconcileService(k: FnKey, svc: ServiceObject, cm: ConfigMapObject, ghost ph: Phase) returns (err: Option<string>)
      requires Inv(world.p, world.s) && ph.GettingConfig? && svc.View() == ph.svc
      requires Stands(world.p, world.s, k, AfterConfig(world.p, ph.fn, ph.st, ph.svc, ph.route, cm.version))
      requires world.CacheOk()
      modifies world
      ensures world.CacheOk() && world.cache == old(world.cache)
      ensures svc.View() == old(svc.View())
      ensures Follows(world.p, old(world.s), world.s) && k in world.s.runs
      ensures world.s.runs[k] ==
                var st := L.MarkTrue(ph.st, L.ConfigMapSynced);
                if err.None? then Published(world.p, ph.fn, st, ph.route)
                else Conclude(ph.fn, L.MarkFalse(st, L.ServiceReady, "UpdateFailed", err.value), err)
      ensures Annotation(svc.View().spec) == Some(cm.version) ==> err.None? && world.s == old(world.s) && world.asked == old(world.asked)
      ensures Annotation(svc.View().spec) != Some(cm.version) ==>
                && svc.View().spec.annotations.Annotations?
                && world.asked == old(world.asked) + [UpdateService(Annotate(svc.View(), cm.version))]
    {
      hide Inv, Follows, AsStored, Published, Conclude, L.MarkFalse, L.MarkTrue;
      NoPanic(world.p, world.s, k);
      FollowsSelf(world.p, world.s);
      if svc.annotations == null || CONFIG_MAP_ANNOTATION !in svc.annotations.values
         || svc.annotations.values[CONFIG_MAP_ANNOTATION] != cm.version {
        var copy := svc.DeepCopy();
        copy.annotations.values := copy.annotations.values[CONFIG_MAP_ANNOTATION := cm.version];
        var reply := world.Call(k, UpdateService(copy.View()));
        if !reply.GotService? { return Some(ErrorText(reply)); }
      }
      return None;
    }

    /** A ready Service, or the status that says why not. */
    method CheckReadyService(k: FnKey, fn: FunctionObject, ghost f: Function) returns (svc: ServiceObject?, err: Option<string>)
      requires fn.View() == f.(status := fn.status.View())
      requires Stands(world.p, world.s, k, CheckingService(f, fn.status.View()))
      requires world.CacheOk()
      modifies world, fn.status
      ensures Follows(world.p, old(world.s), world.s) && k in world.s.runs
      ensures world.CacheOk() && Extends(old(world.cache), world.cache)
      ensures fn.View() == f.(status := fn.status.View())
      ensures err.None? ==> svc != null && world.s.runs[k] == FindingRoute(f, fn.status.View(), svc.View())
      ensures err.Some? ==> world.s.runs[k] == Conclude(f, fn.status.View(), err)
    {
      hide Inv, Follows, FunctionStatus.View, AfterService, Conclude, L.MarkFalse, ServiceObject.View, AsStored;
      svc, err := CheckService(k);
      if svc == null {
        fn.status.MarkFalse(L.ServiceReady, "CheckExistFailed", err.value);
        return;
      }
      err := PropagateServiceStatusIfError(fn, svc, f);
    }

    /** A ready Route of the Function's own, or the status that says why not. */
    method FindReadyRoute(k: FnKey, fn: FunctionObject, ghost f: Function, ghost x: Service)
      returns (route: Option<Route>, err: Option<string>)
      requires fn.View() == f.(status := fn.status.View())
      requires Stands(world.p, world.s, k, FindingRoute(f, fn.status.View(), x))
      requires world.CacheOk()
      modifies world, fn.status
      ensures Follows(world.p, old(world.s), world.s) && k in world.s.runs
      ensures world.CacheOk() && world.cache == old(world.cache)
      ensures fn.View() == f.(status := fn.status.View())
      ensures err.None? <==> route.Some?
      ensures err.None? ==> world.s.runs[k] == GettingConfig(f, fn.status.View(), x, route.value)
      ensures err.Some? ==> world.s.runs[k] == Conclude(f, fn.status.View(), err)
    {
      hide Inv, Follows, FunctionStatus.View, AfterRoute, RouteFailed, Conclude, L.MarkFalse, L.MarkTrue, AsStored;
      route, err := ReconcileRoute(k, fn);
      if route.None? {
        RouteFailedDef(f, fn.status.View(), err.value);
        fn.status.MarkFalse(L.RouteReady, "ReconcileFailed", err.value);
        return;
      }
      err := PropagateRouteStatus(fn, route.value, f, x);
      if err.Some? { route := None; }
    }

    /** The first half of a reconcile: the Service and the Route must be there and ready. */
    method CheckServiceAndRoute(k: FnKey, fn: FunctionObject, ghost f: Function)
      returns (svc: ServiceObject?, route: Option<Route>, err: Option<string>)
      requires fn.View() == f.(status := fn.status.View())
      requires Stands(world.p, world.s, k, CheckingService(f, fn.status.View()))
      requires world.CacheOk()
      modifies world, fn.status
      ensures Follows(world.p, old(world.s), world.s) && k in world.s.runs
      ensures world.CacheOk() && Extends(old(world.cache), world.cache)
      ensures fn.View() == f.(status := fn.status.View())
      ensures err.None? <==> route.Some?
      ensures err.None? ==> svc != null && world.s.runs[k] == GettingConfig(f, fn.status.View(), svc.View(), route.value)
      ensures err.Some? ==> world.s.runs[k] == Conclude(f, fn.status.View(), err)
    {
      hide Inv, Follows, FunctionObject.View, FunctionStatus.View, Conclude, ServiceObject.View, AsStored;
      route := None;
      ghost var s0 := world.s;
      svc, err := CheckReadyService(k, fn, f);
      if err.Some? { return; }
      ghost var s1 := world.s;
      FollowsInv(world.p, s0, s1);
      route, err := FindReadyRoute(k, fn, f, svc.View());
      FollowsTransitive(world.p, s0, s1, world.s);
    }

    /** The configuration, with its condition. */
    method SyncConfig(k: FnKey, fn: FunctionObject, route: Route, ghost f: Function, ghost x: Service)
      returns (cm: ConfigMapObject?, err: Option<string>)
      requires fn.View() == f.(status := fn.status.View())
      requires Stands(world.p, world.s, k, GettingConfig(f, fn.status.View(), x, route))
      requires world.CacheOk()
      modifies world, fn.status
      ensures Follows(world.p, old(world.s), world.s) && k in world.s.runs
      ensures world.CacheOk() && world.cache == old(world.cache)
      ensures fn.View() == f.(status := fn.status.View())
      ensures cm == null <==> err.Some?
      ensures cm == null ==> world.s.runs[k] == Conclude(f, fn.status.View(), err)
      ensures cm != null ==>
                && fn.status.View() == L.MarkTrue(old(fn.status.View()), L.ConfigMapSynced)
                && world.s.runs[k] == AfterConfig(world.p, f, old(fn.status.View()), x, route, cm.version)
                && Backed(world.s, f)
    {
      hide ConfigMapObject.View, FunctionObject.SpecView, Update, Inv, Follows, FunctionStatus.View, AfterConfig, ConfigFailed, Conclude,
           L.MarkFalse, L.MarkTrue, Backed, AsStored;
      ghost var read;
      cm, err, read := ReconcileConfig(k, fn, route);
      if cm == null {
        ConfigFailedDef(f, fn.status.View(), err.value);
        fn.status.MarkFalse(L.ConfigMapSynced, "UpdateFailed", err.value);
        return;
      }
      fn.status.MarkTrue(L.ConfigMapSynced);
    }

    /** The Service, and then the published status. */
    method SyncService(k: FnKey, fn: FunctionObject, svc: ServiceObject, route: Route, cm: ConfigMapObject,
                       ghost f: Function, ghost ph: Phase)
      returns (err: Option<string>)
      requires fn.View() == f.(status := fn.status.View())
      requires ph.GettingConfig? && ph.fn == f && ph.svc == svc.View() && ph.route == route
      requires fn.status.View() == L.MarkTrue(ph.st, L.ConfigMapSynced)
      requires Stands(world.p, world.s, k, AfterConfig(world.p, f, ph.st, ph.svc, route, cm.version))
      requires world.CacheOk()
      modifies world, fn.status
      ensures Follows(world.p, old(world.s), world.s) && k in world.s.runs
      ensures world.CacheOk() && world.cache == old(world.cache)
      ensures fn.View() == f.(status := fn.status.View())
      ensures world.s.runs[k] == Conclude(f, fn.status.View(), err)
    {
      hide FunctionObject.SpecView, Inv, Follows, FunctionStatus.View, AfterConfig, Published, Conclude, PublishedStatus,
           L.MarkFalse, L.MarkTrue,
           ServiceObject.View, AsStored;
      err := ReconcileService(k, svc, cm, ph);
      if err.Some? {
        fn.status.MarkFalse(L.ServiceReady, "UpdateFailed", err.value);
        return;
      }
      PublishedDef(world.p, f, fn.status.View(), route);
      Publish(fn, route, f);
    }

    /** The second half: the configuration, then the Service, then the published status. */
    method SyncAndPublish(k: FnKey, fn: FunctionObject, svc: ServiceObject, route: Route, ghost f: Function) returns (err: Option<string>)
      requires fn.View() == f.(status := fn.status.View())
      requires Stands(world.p, world.s, k, GettingConfig(f, fn.status.View(), svc.View(), route))
      requires world.CacheOk()
      modifies world, fn.status
      ensures Follows(world.p, old(world.s), world.s) && k in world.s.runs
      ensures world.CacheOk() && world.cache == old(world.cache)
      ensures fn.View() == f.(status := fn.status.View())
      ensures world.s.runs[k] == Conclude(f, fn.status.View(), err)
      ensures err.None? ==> Backed(world.s, f)
    {
      hide Inv, Follows, FunctionObject.View, FunctionStatus.View, AfterConfig, Conclude, L.MarkTrue, Backed, ServiceObject.View, AsStored;
      ghost var s0, ph := world.s, world.s.runs[k];
      var cm, failure := SyncConfig(k, fn, route, f, svc.View());
      if cm == null { return failure; }
      ghost var s1 := world.s;
      FollowsInv(world.p, s0, s1);
      err := SyncService(k, fn, svc, route, cm, f, ph);
      FollowsTransitive(world.p, s0, s1, world.s);
      BackedGrows(world.p, s1, world.s, f);
    }

    /** The body of a reconcile. The status of `fn` is brought up to date in place, whatever the outcome. */
    method ReconcileObject(k: FnKey, fn: FunctionObject, ghost f: Function) returns (err: Option<string>)
      requires fn.View() == f
      requires Stands(world.p, world.s, k, AfterFetch(f))
      requires world.CacheOk()
      modifies world, fn.status
      ensures world.CacheOk() && Extends(old(world.cache), world.cache)
      ensures Follows(world.p, old(world.s), world.s)
      ensures fn.View() == f.(status := fn.status.View())
      ensures k in world.s.runs && world.s.runs[k] == Conclude(f, fn.status.View(), err)
      ensures err.None? && !f.deleting ==> Backed(world.s, f)
      ensures f.deleting ==> err.None? && world.s == old(world.s) && world.asked == old(world.asked) && fn.View() == f
    {
      hide Inv, Follows, AsStored, FunctionStatus.View, Conclude, L.InitializeConditions, Backed, ServiceObject.View;
      FollowsSelf(world.p, world.s);
      if fn.deleting { ConcludeUnchanged(f); return None; }
      fn.status.InitializeConditions();
      var svc, route, failure := CheckServiceAndRoute(k, fn, f);
      if failure.Some? { return failure; }
      ghost var mid := world.s;
      FollowsInv(world.p, old(world.s), mid);
      err := SyncAndPublish(k, fn, svc, route.value, f);
      FollowsTransitive(world.p, old(world.s), mid, world.s);
    }

    /** The status after every request has succeeded. */
    method Publish(fn: FunctionObject, route: Route, ghost f: Function)
      requires fn.View() == f.(status := fn.status.View())
      modifies fn.status
      ensures fn.View() == f.(status := fn.status.View())
      ensures fn.status.View() == PublishedStatus(world.p, f, old(fn.status.View()), route)
    {
      hide L.SetAddress, L.MarkTrue, FunctionStatus.View;
      fn.status.MarkTrue(L.ServiceReady);
      var url := new UrlObject(L.Url("http", RouteHost(route.name, ROUTE_NAMESPACE, world.p.domain)));
      fn.status.SetAddress(url);
      var target: UrlObject? := null;
      if route.url.Some? { target := new UrlObject(route.url.value); }
      fn.status.SetUrl(target, fn.generation);
    }

    /** Starts the reconcile of `k` and reads its Function. */
    method Fetch(k: FnKey) returns (original: FunctionObject?, err: Option<string>)
      requires Inv(world.p, world.s) && Free(world.s, k)
      requires world.CacheOk()
      modifies world
      ensures world.CacheOk() && world.cache == old(world.cache)
      ensures Follows(world.p, old(world.s), world.s) && k in world.s.runs
      ensures original == null ==> world.s.runs[k] == Done(err) && (err.None? ==> k !in world.s.store.fns)
      ensures original != null ==>
                && fresh(original.Footprint())
                && k in world.s.store.fns && original.View() == world.s.store.fns[k]
                && Stands(world.p, world.s, k, AfterFetch(original.View()))
      ensures world.asked == [GetFunction(k)]
    {
      hide Inv, Follows, AsStored, FunctionObject.View, FunctionObject.Footprint, L.InitializeConditions;
      original, err := null, None;
      world.StartReconcile(k);
      ghost var mid := world.s;
      FollowsInv(world.p, old(world.s), mid);
      var reply := world.Call(k, GetFunction(k));
      FollowsTransitive(world.p, old(world.s), mid, world.s);
      FollowsInv(world.p, mid, world.s);
      if !reply.GotFunction? {
        if reply.NotFound? { return; }
        return null, Some(ErrorText(reply));
      }
      original := new FunctionObject.FromValue(reply.function_);
    }

    /** Writes the status of the copy back exactly when it differs from the one that was read. */
    method WriteBack(k: FnKey, original: FunctionObject, resource: FunctionObject, failure: Option<string>) returns (err: Option<string>)
      requires resource.View() == original.View().(status := resource.status.View())
      requires Stands(world.p, world.s, k, Conclude(original.View(), resource.status.View(), failure))
      requires world.CacheOk()
      modifies world
      ensures world.CacheOk() && world.cache == old(world.cache)
      ensures Follows(world.p, old(world.s), world.s)
      ensures k in world.s.runs && world.s.runs[k] == Done(err)
      ensures err.None? ==> failure.None?
      ensures original.status.View() == resource.status.View() ==> err == failure && world.s == old(world.s)
      ensures world.asked == old(world.asked) +
                if original.status.View() == resource.status.View() then []
                else [UpdateStatus(k, original.View().(status := resource.status.View()))]
    {
      hide Inv, Follows, AsStored, FunctionStatus.View;
      FollowsSelf(world.p, world.s);
      if original.status.View() != resource.status.View() {
        var reply := world.Call(k, UpdateStatus(k, resource.View()));
        if !reply.GotFunction? { return Some(ErrorText(reply)); }
      }
      return failure;
    }

    /** Works on a deep copy of what was read; what was read stays as it is. */
    method ReconcileCopy(k: FnKey, original: FunctionObject) returns (err: Option<string>)
      requires Stands(world.p, world.s, k, AfterFetch(original.View()))
      requires world.CacheOk()
      modifies world
      ensures world.CacheOk() && Extends(old(world.cache), world.cache)
      ensures Follows(world.p, old(world.s), world.s)
      ensures k in world.s.runs && world.s.runs[k] == Done(err)
      ensures err.None? && !original.View().deleting ==> Backed(world.s, original.View())
      ensures original.View().deleting ==> err.None? && world.s == old(world.s) && world.asked == old(world.asked)
    {
      hide Inv, Follows, AsStored, FunctionObject.Footprint, FunctionObject.SpecView, FunctionStatus.View, ObjectMeta.View,
           AfterFetch, Conclude, Backed;
      ghost var f := original.View();
      var resource := original.DeepCopy();
      var failure := ReconcileObject(k, resource, f);
      ghost var mid := world.s;
      FollowsInv(world.p, old(world.s), mid);
      err := WriteBack(k, original, resource, failure);
      FollowsTransitive(world.p, old(world.s), mid, world.s);
      if err.None? && !f.deleting { BackedGrows(world.p, mid, world.s, f); }
    }

    /** Reconciles the Function named by a key: reads it, works on a deep copy, and writes the copy's status
        back exactly when it differs from the one that was read, also after a failure. A Function that is being
        deleted is only read. The call is one complete reconcile of the
        protocol, among arbitrary steps of others. When it returns no error, and the Function object of the
        time of the call is still there and not being deleted, then the configuration holds at its key the
        spec of a generation at least as new as the one at the time of the call. Every object in the lister's
        cache is what it was. */
    method Reconcile(k: FnKey) returns (err: Option<string>)
      requires Inv(world.p, world.s) && Free(world.s, k) && world.CacheOk()
      modifies world
      ensures world.CacheOk()
      ensures forall v :: v in old(world.cache) ==>
                v in world.cache && world.cache[v] == old(world.cache[v]) && world.cache[v].View() == old(world.cache[v].View())
      ensures Follows(world.p, old(world.s), world.s)
      ensures k in world.s.runs && world.s.runs[k] == Done(err)
      ensures err.None? && StillThere(old(world.s), world.s, k) ==>
                var uid := old(world.s).store.fns[k].uid;
                && uid in world.s.log.confirmed && Confirmed(world.p, world.s, uid)
                && old(world.s).store.fns[k].generation <= world.s.log.confirmed[uid]
      ensures IsDeleted(old(world.s), world.s, k) ==> world.asked == [GetFunction(k)]
    {
      hide Inv, Follows, AsStored, ServiceObject.View, Conclude, AfterFetch, StillThere, IsDeleted, Backed, Confirmed, FunctionStatus.View;
      ghost var before := world.s;
      var original, failure := Fetch(k);
      ghost var mid := world.s;
      if original == null {
        if failure.None? { NotStillThere(before, mid, k); }
        return failure;
      }
      ghost var f := original.View();
      err := ReconcileCopy(k, original);
      FollowsTransitive(world.p, before, mid, world.s);
      if err.None? { SuccessIsBacked(world.p, before, mid, world.s, k, f); }
      if IsDeleted(before, world.s, k) { DeletedWhenRead(world.p, before, mid, world.s, k); }
    }
  }

  /** The write that follows a read of the configuration: none when the value is found in place. */
  ghost function Update(p: Params, read: Reply, spec: Json, address: RouteAddress): seq<Request> {
    if read.GotConfig? && Merge(p.skipEqual, read.cm, spec, address).Rewrite?
    then [UpdateConfig(Merge(p.skipEqual, read.cm, spec, address).cm)] else []
  }

  /** The phase after the Function was read. */
  function AfterFetch(f: Function): Phase {
    if f.deleting then Done(None) else CheckingService(f, L.InitializeConditions(f.status))
  }

  /** The Function object of the earlier state is still stored, and is not being deleted. */
  ghost predicate StillThere(s: State, s': State, k: FnKey) {
    && k in s.store.fns && k in s'.store.fns && s'.store.fns[k].uid == s.store.fns[k].uid
    && !s'.store.fns[k].deleting
  }

  /** The Function object of the earlier state was being deleted then, and is still stored. */
  ghost predicate IsDeleted(s: State, s': State, k: FnKey) {
    && k in s.store.fns && s.store.fns[k].deleting
    && k in s'.store.fns && s'.store.fns[k].uid == s.store.fns[k].uid
  }

  lemma DeletedWhenRead(p: Params, s: State, mid: State, end: State, k: FnKey)
    requires Inv(p, s) && Follows(p, s, mid) && Follows(p, mid, end) && IsDeleted(s, end, k)
    ensures k in mid.store.fns && mid.store.fns[k].deleting
  {
    Unfold(p, s);
    assert Known(s.log, k, s.store.fns[k]);
    assert FnGrows(mid, end, k) && FnGrows(s, mid, k);
    hide Inv, Reaches;
  }

  lemma ConcludeUnchanged(f: Function)
    ensures Conclude(f, f.status, None) == Done(None)
  {
  }

  lemma PublishedDef(p: Params, f: Function, st: L.Status, route: Route)
    ensures Published(p, f, st, route) == Conclude(f, PublishedStatus(p, f, st, route), None)
  {
  }

  lemma ConfigFailedDef(f: Function, st: L.Status, message: string)
    ensures ConfigFailed(f, st, message) == Conclude(f, L.MarkFalse(st, L.ConfigMapSynced, "UpdateFailed", message), Some(message))
  {
  }

  lemma RouteFailedDef(f: Function, st: L.Status, message: string)
    ensures RouteFailed(f, st, message) == Conclude(f, L.MarkFalse(st, L.RouteReady, "ReconcileFailed", message), Some(message))
  {
  }

  /** What was read in between was the same Function object, at least as new. */
  lemma SuccessIsBacked(p: Params, s: State, mid: State, end: State, k: FnKey, f: Function)
    requires Inv(p, s) && Follows(p, s, mid) && k in mid.store.fns && mid.store.fns[k] == f
    requires Follows(p, mid, end) && (!f.deleting ==> Backed(end, f))
    ensures StillThere(s, end, k) ==>
              var uid := s.store.fns[k].uid;
              uid in end.log.confirmed && Confirmed(p, end, uid) && s.store.fns[k].generation <= end.log.confirmed[uid]
  {
    if StillThere(s, end, k) {
      Unfold(p, s);
      assert Known(s.log, k, s.store.fns[k]);
      assert FnGrows(s, mid, k) && FnGrows(mid, end, k);
      Unfold(p, end);
      hide Inv, Reaches, Confirmed, StoreOk, LogOk, FunctionsOk, OwnersOk, CommitsOk, ImageOk, RunsOk, CrdsOk;
    }
  }

  lemma NotStillThere(s: State, end: State, k: FnKey)
    requires k !in end.store.fns
    ensures !StillThere(s, end, k)
  {
  }

  lemma NoPanic(p: Params, s: State, k: FnKey)
    requires Inv(p, s) && k in s.runs
    ensures !s.runs[k].Panicked?
  {
    RunInOrder(p, s, k);
    hide Inv, FnOk, Sound, SvcOk, RouteOk;
  }
}
