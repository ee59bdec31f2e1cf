/** The API server as seen by the reconcilers of one function kind: the shared ConfigMap and Service,
    the Routes and the Functions, each stored under a version, and what the lister caches may still hold. */
module Cluster {
  import opened Names
  import opened Lifecycle

  type Version = nat
  type Uid = nat
  /** The canonical text of one JSON value. */
  type Json = string

  /** What is fixed for one kind. `skipEqual` says whether the comparison that guards the configuration
      write can ever find the stored and the wanted value equal. */
  datatype Params = Params(functionName: string, domain: string, skipEqual: bool)

  datatype FnKey = FnKey(namespace: string, name: string)
  datatype Function = Function(
    uid: Uid, version: Version, generation: nat, deleting: bool, spec: Json, status: Status)

  /** The Ready condition of a Route or Service, as far as the reconcilers look at it. */
  datatype Readiness = NoCondition | NotReady(reason: string, message: string) | IsReady

  /** The content of one file of the ConfigMap: not an object, the JSON null, or an object. */
  datatype ConfigText = Malformed | Null | Object(entries: map<string, Json>)
  datatype ConfigData = NilData | Files(files: map<string, ConfigText>)
  datatype ConfigMap = ConfigMap(version: Version, data: ConfigData)

  datatype Annotations = NilAnnotations | Annotations(values: map<string, Version>)
  datatype Mount = Mount(volume: string, path: string, subPath: string)
  datatype Volume = Volume(name: string, configMap: string)
  datatype ServiceSpec = ServiceSpec(annotations: Annotations, image: string, mount: Mount, volume: Volume)
  datatype Service = Service(version: Version, spec: ServiceSpec, readiness: Readiness)

  /** The address of a Route: a nil pointer, one without a URL, or a host. */
  datatype RouteAddress = NilAddress | NilUrl | Host(host: string)
  datatype Route = Route(name: string, owner: Uid, readiness: Readiness, address: RouteAddress, url: Option<Url>)

  const CONFIG_FILE := "___config.json"
  const CONFIG_MAP_ANNOTATION := "functions.knative.dev/configmap-version"

  function RouteName(p: Params, k: FnKey): string { MakeRouteName(p.functionName, k.name, k.namespace) }

  function HostKey(routeName: string): string { routeName + "." + ROUTE_NAMESPACE }

  function MakeConfigMap(): ConfigMap { ConfigMap(0, Files(map[CONFIG_FILE := Object(map[])])) }

  function MakeServiceSpec(functionName: string, version: Version, image: string): ServiceSpec {
    var name := "config-function-" + functionName;
    ServiceSpec(Annotations(map[CONFIG_MAP_ANNOTATION := version]), image,
                Mount(name, "/ko-app/" + CONFIG_FILE, CONFIG_FILE), Volume(name, name))
  }

  function MakeRoute(p: Params, k: FnKey, uid: Uid): Route {
    Route(RouteName(p, k), uid, NoCondition, NilAddress, None)
  }

  /** The annotation read as Go reads it: absent from a nil map as from any other. */
  function Annotation(spec: ServiceSpec): Option<Version> {
    if spec.annotations.Annotations? && CONFIG_MAP_ANNOTATION in spec.annotations.values
    then Some(spec.annotations.values[CONFIG_MAP_ANNOTATION]) else None
  }

  function Annotate(s: Service, v: Version): Service
    requires s.spec.annotations.Annotations?
  {
    s.(spec := s.spec.(annotations := Annotations(s.spec.annotations.values[CONFIG_MAP_ANNOTATION := v])))
  }

  /** What the server stores, and every object that it stored before: lister caches may return any of them. */
  datatype Store = Store(
    rev: Version,
    cm: Option<ConfigMap>,
    svc: Option<Service>,
    routes: map<string, Route>,
    fns: map<FnKey, Function>,
    oldConfigs: map<Version, ConfigMap>,
    oldServices: map<Version, Service>,
    oldRoutes: set<Route>)

  const EMPTY_STORE := Store(0, None, None, map[], map[], map[], map[], {})

  datatype Request =
    | GetFunction(key: FnKey)
    | ListService
    | ListRoute(name: string)
    | CreateRoute(route: Route)
    | GetConfig
    | CreateConfig(cm: ConfigMap)
    | UpdateConfig(cm: ConfigMap)
    | CreateService(service: Service)
    | UpdateService(service: Service)
    | UpdateStatus(key: FnKey, function_: Function)
    | ListCrd

  datatype Reply =
    | GotFunction(function_: Function)
    | GotService(service: Service)
    | GotRoute(route: Route)
    | GotConfig(cm: ConfigMap)
    | GotCrd(image: Option<string>)
    | NotFound
    | Failed(message: string)

  /** Storing content that is already there keeps its version; other content gets a new one. */
  function PutConfig(st: Store, data: ConfigData): Store {
    if st.cm.Some? && st.cm.value.data == data then st
    else
      var c := ConfigMap(st.rev + 1, data);
      st.(rev := st.rev + 1, cm := Some(c), oldConfigs := st.oldConfigs[c.version := c])
  }

  function PutService(st: Store, spec: ServiceSpec, readiness: Readiness): Store {
    if st.svc.Some? && st.svc.value.spec == spec && st.svc.value.readiness == readiness then st
    else
      var s := Service(st.rev + 1, spec, readiness);
      st.(rev := st.rev + 1, svc := Some(s), oldServices := st.oldServices[s.version := s])
  }

  function PutRoute(st: Store, r: Route): Store {
    st.(routes := st.routes[r.name := r], oldRoutes := st.oldRoutes + {r})
  }

  function PutFunction(st: Store, k: FnKey, f: Function): Store {
    if k in st.fns && st.fns[k] == f then st
    else st.(rev := st.rev + 1, fns := st.fns[k := f.(version := st.rev + 1)])
  }

  /** A Create needs a free name; an Update needs the version that is stored now. */
  predicate CanApply(st: Store, r: Request) {
    match r
    case CreateRoute(x) => x.name !in st.routes
    case CreateConfig(_) => st.cm.None?
    case UpdateConfig(c) => st.cm.Some? && st.cm.value.version == c.version
    case CreateService(_) => st.svc.None?
    case UpdateService(x) => st.svc.Some? && st.svc.value.version == x.version
    case UpdateStatus(k, f) => k in st.fns && st.fns[k].version == f.version
    case _ => true
  }

  function Apply(st: Store, r: Request): Store
    requires CanApply(st, r)
  {
    match r
    case CreateRoute(x) => PutRoute(st, x)
    case CreateConfig(c) => PutConfig(st, c.data)
    case UpdateConfig(c) => PutConfig(st, c.data)
    case CreateService(x) => PutService(st, x.spec, NoCondition)
    case UpdateService(x) => PutService(st, x.spec, st.svc.value.readiness)
    case UpdateStatus(k, f) => PutFunction(st, k, st.fns[k].(status := f.status))
    case _ => st
  }

  /** The replies that may follow a request, given the store after it. A failure may be reported for any
      request, also for a write that took effect; a success is reported only for one that did. */
  predicate ReplyAllowed(after: Store, r: Request, applied: bool, reply: Reply) {
    || reply.Failed?
    || match r {
         case GetFunction(k) => reply == if k in after.fns then GotFunction(after.fns[k]) else NotFound
         case GetConfig => reply == if after.cm.Some? then GotConfig(after.cm.value) else NotFound
         case ListService =>
           || reply.NotFound?
           || (reply.GotService? && reply.service.version in after.oldServices
               && after.oldServices[reply.service.version] == reply.service)
         case ListRoute(n) => reply.NotFound? || (reply.GotRoute? && reply.route in after.oldRoutes && reply.route.name == n)
         case ListCrd => reply.NotFound? || reply.GotCrd?
         case CreateRoute(x) => applied && reply == GotRoute(x)
         case CreateConfig(_) => applied && after.cm.Some? && reply == GotConfig(after.cm.value)
         case UpdateConfig(_) => applied && after.cm.Some? && reply == GotConfig(after.cm.value)
         case CreateService(_) => applied && after.svc.Some? && reply == GotService(after.svc.value)
         case UpdateService(_) => applied && after.svc.Some? && reply == GotService(after.svc.value)
         case UpdateStatus(k, _) => applied && k in after.fns && reply == GotFunction(after.fns[k])
       }
  }

  function ErrorText(reply: Reply): string {
    if reply.Failed? then reply.message else "not found"
  }
}
