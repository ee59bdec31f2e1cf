/** The two reconcilers as programs over the API server: each phase of a reconcile stands before one
    request, and a reply moves it to the next phase. Everything computed between two requests is here. */
module Programs {
  import opened Names
  import opened Lifecycle
  import opened Cluster

  // ---- The merge of one Function into the shared configuration ----

  datatype Merged = MergePanic | MergeError(message: string) | Keep | Rewrite(cm: ConfigMap)

  /** The configuration text as the program first sees it: a missing file counts as the empty object. */
  function ConfigFile(cm: ConfigMap): ConfigText {
    if cm.data.Files? && CONFIG_FILE in cm.data.files then cm.data.files[CONFIG_FILE] else Object(map[])
  }

  predicate HasConfigFile(cm: ConfigMap) {
    cm.data.Files? && CONFIG_FILE in cm.data.files
  }

  function WithConfigFile(cm: ConfigMap, text: ConfigText): ConfigMap {
    cm.(data := Files((if cm.data.Files? then cm.data.files else map[])[CONFIG_FILE := text]))
  }

  function Merge(skipEqual: bool, cm: ConfigMap, spec: Json, address: RouteAddress): Merged {
    var text := ConfigFile(cm);
    if text.Malformed? then MergeError("Unable to deserialize existing configuration")
    else match address
      case NilAddress => MergePanic
      case NilUrl => if HasConfigFile(cm) then Keep else Rewrite(WithConfigFile(cm, text))
      case Host(host) =>
        var key := ConfigKey(host);
        if key.None? then MergePanic
        else if text.Null? then MergePanic
        else if skipEqual && key.value in text.entries && text.entries[key.value] == spec then
          if HasConfigFile(cm) then Keep else Rewrite(WithConfigFile(cm, text))
        else Rewrite(WithConfigFile(cm, Object(text.entries[key.value := spec])))
  }

  // ---- The reconcile of one Function ----

  datatype Phase =
    | Fetching
    | CheckingService(fn: Function, st: Status)
    | FindingRoute(fn: Function, st: Status, svc: Service)
    | CreatingRoute(fn: Function, st: Status, svc: Service)
    | GettingConfig(fn: Function, st: Status, svc: Service, route: Route)
    | WritingConfig(fn: Function, st: Status, svc: Service, route: Route, base: ConfigMap, merged: ConfigMap)
    | WritingService(fn: Function, st: Status, svc: Service, route: Route, cmVersion: Version)
    | WritingStatus(fn: Function, st: Status, err: Option<string>)
    | Done(err: Option<string>)
    | Panicked

  predicate Active(ph: Phase) { !ph.Done? && !ph.Panicked? }

  /** The request that a phase makes. */
  function RequestOf(p: Params, k: FnKey, ph: Phase): Request
    requires Active(ph)
  {
    match ph
    case Fetching => GetFunction(k)
    case CheckingService(_, _) => ListService
    case FindingRoute(_, _, _) => ListRoute(RouteName(p, k))
    case CreatingRoute(fn, _, _) => CreateRoute(MakeRoute(p, k, fn.uid))
    case GettingConfig(_, _, _, _) => GetConfig
    case WritingConfig(_, _, _, _, _, merged) => UpdateConfig(merged)
    case WritingService(_, _, svc, _, v) =>
      if svc.spec.annotations.Annotations? then UpdateService(Annotate(svc, v)) else UpdateService(svc)
    case WritingStatus(fn, st, _) => UpdateStatus(k, fn.(status := st))
  }

  /** The phase after a reply. */
  function Advance(p: Params, k: FnKey, ph: Phase, reply: Reply): Phase
    requires Active(ph)
  {
    match ph
    case Fetching =>
      if reply.GotFunction? then
        if reply.function_.deleting then Done(None)
        else CheckingService(reply.function_, InitializeConditions(reply.function_.status))
      else if reply.NotFound? then Done(None)
      else Done(Some(ErrorText(reply)))
    case CheckingService(fn, st) =>
      if reply.GotService? then AfterService(fn, st, reply.service)
      else Conclude(fn, MarkFalse(st, ServiceReady, "CheckExistFailed", ErrorText(reply)), Some(ErrorText(reply)))
    case FindingRoute(fn, st, svc) =>
      if reply.GotRoute? then
        if reply.route.owner == fn.uid then AfterRoute(fn, st, svc, reply.route)
        else RouteFailed(fn, st, "Function does not own Route")
      else if reply.NotFound? then CreatingRoute(fn, st, svc)
      else RouteFailed(fn, st, ErrorText(reply))
    case CreatingRoute(fn, st, svc) =>
      if reply.GotRoute? then AfterRoute(fn, st, svc, reply.route)
      else RouteFailed(fn, st, ErrorText(reply))
    case GettingConfig(fn, st, svc, route) =>
      if reply.GotConfig? then
        match Merge(p.skipEqual, reply.cm, fn.spec, route.address) {
          case MergePanic => Panicked
          case MergeError(m) => ConfigFailed(fn, st, m)
          case Keep => AfterConfig(p, fn, st, svc, route, reply.cm.version)
          case Rewrite(merged) => WritingConfig(fn, st, svc, route, reply.cm, merged)
        }
      else ConfigFailed(fn, st, ErrorText(reply))
    case WritingConfig(fn, st, svc, route, _, _) =>
      if reply.GotConfig? then AfterConfig(p, fn, st, svc, route, reply.cm.version)
      else ConfigFailed(fn, st, ErrorText(reply))
    case WritingService(fn, st, svc, route, _) =>
      if reply.GotService? then Published(p, fn, st, route)
      else Conclude(fn, MarkFalse(st, ServiceReady, "UpdateFailed", ErrorText(reply)), Some(ErrorText(reply)))
    case WritingStatus(fn, st, err) =>
      if reply.GotFunction? then Done(err) else Done(Some(ErrorText(reply)))
  }

  /** The status is written exactly when it differs from the one that was read. */
  function Conclude(fn: Function, st: Status, err: Option<string>): Phase {
    if st == fn.status then Done(err) else WritingStatus(fn, st, err)
  }

  function AfterService(fn: Function, st: Status, svc: Service): Phase {
    match svc.readiness
    case IsReady => FindingRoute(fn, st, svc)
    case NoCondition => Conclude(fn, MarkFalse(st, ServiceReady, "Unknown", ""), Some("service is not ready"))
    case NotReady(r, m) => Conclude(fn, MarkFalse(st, ServiceReady, r, m), Some("service is not ready"))
  }

  function RouteFailed(fn: Function, st: Status, message: string): Phase {
    Conclude(fn, MarkFalse(st, RouteReady, "ReconcileFailed", message), Some(message))
  }

  function AfterRoute(fn: Function, st: Status, svc: Service, route: Route): Phase {
    match route.readiness
    case IsReady => GettingConfig(fn, MarkTrue(st, RouteReady), svc, route)
    case NoCondition => Conclude(fn, MarkFalse(st, RouteReady, "Unknown", ""), Some("route is not ready"))
    case NotReady(r, m) => Conclude(fn, MarkFalse(st, RouteReady, r, m), Some("route is not ready"))
  }

  function ConfigFailed(fn: Function, st: Status, message: string): Phase {
    Conclude(fn, MarkFalse(st, ConfigMapSynced, "UpdateFailed", message), Some(message))
  }

  function AfterConfig(p: Params, fn: Function, st: Status, svc: Service, route: Route, v: Version): Phase {
    var synced := MarkTrue(st, ConfigMapSynced);
    if Annotation(svc.spec) == Some(v) then Published(p, fn, synced, route)
    else if svc.spec.annotations.NilAnnotations? then Panicked
    else WritingService(fn, synced, svc, route, v)
  }

  function PublishedStatus(p: Params, fn: Function, st: Status, route: Route): Status {
    var url := Url("http", RouteHost(route.name, ROUTE_NAMESPACE, p.domain));
    SetAddress(MarkTrue(st, ServiceReady), Some(url)).(url := route.url, observedGeneration := fn.generation)
  }

  function Published(p: Params, fn: Function, st: Status, route: Route): Phase {
    Conclude(fn, PublishedStatus(p, fn, st, route), None)
  }

  // ---- The reconcile of one CRD of the kind ----

  datatype CrdPhase =
    | CrdGettingConfig
    | CrdCreatingConfig
    | CrdReadingImage(cmVersion: Version)
    | CrdListingService(cmVersion: Version, image: string)
    | CrdCreatingService(cmVersion: Version, image: string)
    | CrdUpdatingService(cmVersion: Version, image: string, svc: Service)
    | CrdDone(err: Option<string>)

  function CrdRequestOf(p: Params, ph: CrdPhase): Request
    requires !ph.CrdDone?
  {
    match ph
    case CrdGettingConfig => GetConfig
    case CrdCreatingConfig => CreateConfig(MakeConfigMap())
    case CrdReadingImage(_) => ListCrd
    case CrdListingService(_, _) => ListService
    case CrdCreatingService(v, image) => CreateService(Service(0, MakeServiceSpec(p.functionName, v, image), NoCondition))
    case CrdUpdatingService(v, image, svc) => UpdateService(svc.(spec := MakeServiceSpec(p.functionName, v, image)))
  }

  function CrdAdvance(p: Params, ph: CrdPhase, reply: Reply): CrdPhase
    requires !ph.CrdDone?
  {
    match ph
    case CrdGettingConfig =>
      if reply.GotConfig? then CrdReadingImage(reply.cm.version)
      else if reply.NotFound? then CrdCreatingConfig
      else CrdDone(Some(ErrorText(reply)))
    case CrdCreatingConfig =>
      if reply.GotConfig? then CrdReadingImage(reply.cm.version) else CrdDone(Some(ErrorText(reply)))
    case CrdReadingImage(v) =>
      if reply.GotCrd? then
        if reply.image.Some? then CrdListingService(v, reply.image.value)
        else CrdDone(Some("Missing functions.knative.dev/image annotation on function CRD"))
      else CrdDone(Some(ErrorText(reply)))
    case CrdListingService(v, image) =>
      if reply.GotService? then
        if reply.service.spec == MakeServiceSpec(p.functionName, v, image) then CrdDone(None)
        else CrdUpdatingService(v, image, reply.service)
      else if reply.NotFound? then CrdCreatingService(v, image)
      else CrdDone(Some(ErrorText(reply)))
    case CrdCreatingService(_, _) =>
      if reply.GotService? then CrdDone(None) else CrdDone(Some(ErrorText(reply)))
    case CrdUpdatingService(_, _, _) =>
      if reply.GotService? then CrdDone(None) else CrdDone(Some(ErrorText(reply)))
  }
}
