/** The start of the process and the handler that ends it: which CRDs have a controller, and when the
    process must start again to give one to a new CRD. */
module Startup {
  import opened Names
  import opened InformerFactory

  type Labels = map<string, string>

  const CRD_LABEL := "functions.knative.dev/crd"

  datatype Crd = Crd(name: string, resource: Resource)

  datatype Controller = CrdController | FunctionController(resource: Resource)

  /** The CRD controller first, then one controller and one informer for each listed CRD, in order. */
  method BuildControllers(defs: seq<Crd>)
    returns (controllers: array<Option<Controller>>, names: array<string>, registered: seq<Resource>)
    ensures controllers.Length == |defs| + 1 && controllers[0] == Some(CrdController)
    ensures forall i :: 0 <= i < |defs| ==> controllers[i + 1] == Some(FunctionController(defs[i].resource))
    ensures names.Length == |defs| && forall i :: 0 <= i < |defs| ==> names[i] == defs[i].name
    ensures |registered| == |defs| && forall i :: 0 <= i < |defs| ==> registered[i] == defs[i].resource
  {
    controllers := new Option<Controller>[|defs| + 1](_ => None);
    controllers[0] := Some(CrdController);
    names := new string[|defs|];
    registered := [];
    for i := 0 to |defs|
      invariant controllers[0] == Some(CrdController)
      invariant forall j :: 0 <= j < i ==> controllers[j + 1] == Some(FunctionController(defs[j].resource))
      invariant forall j :: 0 <= j < i ==> names[j] == defs[j].name
      invariant |registered| == i && forall j :: 0 <= j < i ==> registered[j] == defs[j].resource
    {
      names[i] := defs[i].name;
      registered := registered + [defs[i].resource];
      controllers[i + 1] := Some(FunctionController(defs[i].resource));
    }
  }

  // ---- The handler ----

  /** What an informer hands to a handler. A deleted object that the informer lost sight of comes as
      something else than an object. */
  datatype Object = Other | Object(name: string, labels: Option<Labels>)

  predicate Labelled(obj: Object) {
    obj.Object? && obj.labels.Some? && CRD_LABEL in obj.labels.value && obj.labels.value[CRD_LABEL] == "true"
  }

  predicate Unlisted(names: seq<string>, obj: Object) { Labelled(obj) && obj.name !in names }

  method Filter(names: array<string>, obj: Object) returns (pass: bool)
    ensures pass <==> Unlisted(names[..], obj)
    ensures pass <==>
              && obj.Object? && obj.labels.Some? && "functions.knative.dev/crd" in obj.labels.value
              && obj.labels.value["functions.knative.dev/crd"] == "true" && obj.name !in names[..]
  {
    if obj.Object? {
      if obj.labels.Some? {
        if CRD_LABEL in obj.labels.value && obj.labels.value[CRD_LABEL] == "true" {
          for i := 0 to names.Length
            invariant obj.name !in names[..i]
          {
            if names[i] == obj.name { return false; }
            assert names[..i + 1] == names[..i] + [names[i]];
          }
          assert names[..names.Length] == names[..];
          return true;
        }
      }
    }
    return false;
  }

  datatype Notification = Added(obj: Object) | Updated(old_: Object, new_: Object) | Deleted(obj: Object)

  /** A notification ends the process when it shows an unlisted CRD, before or after the change. */
  predicate Ends(names: seq<string>, n: Notification) {
    match n
    case Added(obj) => Unlisted(names, obj)
    case Updated(before, after) => Unlisted(names, before) || Unlisted(names, after)
    case Deleted(obj) => Unlisted(names, obj)
  }

  class Process {
    const names: array<string>
    var exited: bool

    constructor (names: array<string>)
      ensures this.names == names && !exited
    {
      this.names, exited := names, false;
    }

    method OnAdd(obj: Object)
      modifies this
      ensures exited
    {
      exited := true;
    }

    method OnUpdate(before: Object, after: Object)
      modifies this
      ensures exited
    {
      exited := true;
    }

    method OnDelete(obj: Object)
      modifies this
      ensures exited
    {
      exited := true;
    }

    /** The filtering handler around the restart handler: an update into or out of the filter counts as an
        addition or a deletion. */
    method Deliver(n: Notification)
      modifies this
      ensures exited == (old(exited) || Ends(names[..], n))
      ensures exited <==>
                || old(exited)
                || ((n.Added? || n.Deleted?) && Unlisted(names[..], n.obj))
                || (n.Updated? && (Unlisted(names[..], n.old_) || Unlisted(names[..], n.new_)))
    {
      match n {
        case Added(obj) =>
          var pass := Filter(names, obj);
          if pass { OnAdd(obj); }
        case Updated(before, after) =>
          var newer := Filter(names, after);
          var older := Filter(names, before);
          if newer && older { OnUpdate(before, after); }
          else if newer { OnAdd(after); }
          else if older { OnDelete(before); }
        case Deleted(obj) =>
          var pass := Filter(names, obj);
          if pass { OnDelete(obj); }
      }
    }
  }

  // ---- Whole runs of one process ----

  /** The CRDs in the cluster, every CRD object there was since the process listed them, what its informer
      holds, and whether the process has exited. */
  datatype Watch = Watch(cluster: map<string, Option<Labels>>, past: set<Object>, cache: map<string, Object>, exited: bool)

  /** Users change CRDs; the informer catches up with one of them, perhaps to an object of the past; resyncs
      are catching up with what is already there. */
  datatype Move = Put(name: string, labels: Option<Labels>) | Remove(name: string) | Observe(obj: Object) | ObserveGone(name: string)

  predicate Possible(w: Watch, m: Move) {
    match m
    case Put(_, _) => true
    case Remove(n) => n in w.cluster
    case Observe(obj) => obj in w.past && obj.Object?
    case ObserveGone(n) => n in w.cache
  }

  function NotificationOf(w: Watch, m: Move): Option<Notification>
    requires Possible(w, m)
  {
    match m
    case Observe(obj) => Some(if obj.name in w.cache then Updated(w.cache[obj.name], obj) else Added(obj))
    case ObserveGone(n) => Some(Deleted(w.cache[n]))
    case _ => None
  }

  function Make(names: seq<string>, w: Watch, m: Move): Watch
    requires Possible(w, m)
  {
    var exited := w.exited || (NotificationOf(w, m).Some? && Ends(names, NotificationOf(w, m).value));
    match m
    case Put(n, labels) =>
      w.(cluster := w.cluster[n := labels], past := w.past + {Object(n, labels)}, exited := exited)
    case Remove(n) => w.(cluster := w.cluster - {n}, exited := exited)
    case Observe(obj) => w.(cache := w.cache[obj.name := obj], exited := exited)
    case ObserveGone(n) => w.(cache := w.cache - {n}, exited := exited)
  }

  ghost predicate AllPossible(names: seq<string>, w: Watch, moves: seq<Move>)
    decreases |moves|
  {
    moves == [] || (Possible(w, moves[0]) && AllPossible(names, Make(names, w, moves[0]), moves[1..]))
  }

  ghost function MakeAll(names: seq<string>, w: Watch, moves: seq<Move>): Watch
    requires AllPossible(names, w, moves)
    decreases |moves|
  {
    if moves == [] then w else MakeAll(names, Make(names, w, moves[0]), moves[1..])
  }

  /** A process that has just listed the CRDs of the cluster. */
  function Started(cluster: map<string, Option<Labels>>): Watch {
    Watch(cluster, set n | n in cluster :: Object(n, cluster[n]), map[], false)
  }

  /** What the process has seen and not forgotten is listed, or the process has exited. */
  ghost predicate Covered(names: seq<string>, w: Watch) {
    w.exited || forall n :: n in w.cache ==> w.cache[n].Object? && w.cache[n].name == n && !Unlisted(names, w.cache[n])
  }

  ghost predicate SeesUnlisted(names: seq<string>, moves: seq<Move>) {
    exists i :: 0 <= i < |moves| && moves[i].Observe? && Unlisted(names, moves[i].obj)
  }

  /** In every run each labelled CRD that the process has observed is among the names it started with, so
      it has a controller, or the process has exited to start again. It exits exactly when it observes a
      labelled CRD that was not listed. */
  lemma {:induction false} ObservedAreListedOrRestart(names: seq<string>, w: Watch, moves: seq<Move>)
    requires AllPossible(names, w, moves) && Covered(names, w)
    ensures Covered(names, MakeAll(names, w, moves))
    ensures MakeAll(names, w, moves).exited <==> w.exited || SeesUnlisted(names, moves)
    decreases |moves|
  {
    if moves != [] {
      var next := Make(names, w, moves[0]);
      ObservedAreListedOrRestart(names, next, moves[1..]);
      var now := moves[0].Observe? && Unlisted(names, moves[0].obj);
      assert next.exited <==> w.exited || now;
      assert SeesUnlisted(names, moves) <==> now || SeesUnlisted(names, moves[1..]) by {
        if SeesUnlisted(names, moves[1..]) {
          var i :| 0 <= i < |moves[1..]| && moves[1..][i].Observe? && Unlisted(names, moves[1..][i].obj);
          assert moves[i + 1] == moves[1..][i];
        }
        if SeesUnlisted(names, moves) && !now {
          var i :| 0 <= i < |moves| && moves[i].Observe? && Unlisted(names, moves[i].obj);
          assert moves[1..][i - 1] == moves[i];
        }
      }
    }
  }

  predicate LabelledNow(w: Watch, n: string) { n in w.cluster && Labelled(Object(n, w.cluster[n])) }

  /** No move of a run changes which CRDs are labelled, though labels and objects may change otherwise. */
  ghost predicate LabelledSetStays(names: seq<string>, w: Watch, moves: seq<Move>)
    requires AllPossible(names, w, moves)
    decreases |moves|
  {
    moves == [] ||
    (var next := Make(names, w, moves[0]);
     (forall n :: LabelledNow(next, n) <==> LabelledNow(w, n)) && LabelledSetStays(names, next, moves[1..]))
  }

  /** A process that started from a complete list never exits while the set of labelled CRDs stays. */
  lemma CompleteListNeverRestarts(names: seq<string>, cluster: map<string, Option<Labels>>, moves: seq<Move>)
    requires AllPossible(names, Started(cluster), moves) && LabelledSetStays(names, Started(cluster), moves)
    requires forall n :: LabelledNow(Started(cluster), n) ==> n in names
    ensures !MakeAll(names, Started(cluster), moves).exited
  {
    NeverRestarts(names, Started(cluster), moves);
  }

  lemma {:induction false} NeverRestarts(names: seq<string>, w: Watch, moves: seq<Move>)
    requires AllPossible(names, w, moves) && LabelledSetStays(names, w, moves) && !w.exited
    requires forall n :: LabelledNow(w, n) ==> n in names
    requires forall obj :: obj in w.past ==> !Unlisted(names, obj)
    requires forall n :: n in w.cache ==> !Unlisted(names, w.cache[n])
    ensures !MakeAll(names, w, moves).exited
    decreases |moves|
  {
    if moves != [] {
      var next := Make(names, w, moves[0]);
      if moves[0].Put? && Labelled(Object(moves[0].name, moves[0].labels)) { assert LabelledNow(next, moves[0].name); }
      NeverRestarts(names, next, moves[1..]);
    }
  }

  ghost predicate PastHolds(w: Watch) { forall n :: n in w.cluster ==> Object(n, w.cluster[n]) in w.past }

  lemma PastStillHolds(names: seq<string>, w: Watch, m: Move)
    requires PastHolds(w) && Possible(w, m)
    ensures PastHolds(Make(names, w, m))
  {
    var next := Make(names, w, m);
    forall n | n in next.cluster ensures Object(n, next.cluster[n]) in next.past {
      if n in w.cluster { assert Object(n, w.cluster[n]) in w.past; }
    }
  }

  lemma {:induction false} ClusterIsPast(names: seq<string>, w: Watch, moves: seq<Move>)
    requires AllPossible(names, w, moves) && PastHolds(w)
    ensures PastHolds(MakeAll(names, w, moves))
    decreases |moves|
  {
    if moves != [] {
      PastStillHolds(names, w, moves[0]);
      ClusterIsPast(names, Make(names, w, moves[0]), moves[1..]);
    }
  }

  /** At any moment of any run, a labelled CRD in the cluster that was not listed at the start can be
      observed, and observing it ends the process. */
  lemma NewCrdRestarts(names: seq<string>, cluster: map<string, Option<Labels>>, moves: seq<Move>, n: string)
    requires AllPossible(names, Started(cluster), moves) && LabelledNow(MakeAll(names, Started(cluster), moves), n) && n !in names
    ensures var w := MakeAll(names, Started(cluster), moves);
            var m := Observe(Object(n, w.cluster[n]));
            Possible(w, m) && Make(names, w, m).exited
  {
    assert forall n :: n in cluster ==> Object(n, cluster[n]) in Started(cluster).past;
    ClusterIsPast(names, Started(cluster), moves);
  }
}
