/** The factory of shared informers: one informer for each resource, each run at most once. */
module InformerFactory {
  datatype Resource = Resource(group: string, version: string, plural: string)

  class Informer {
    const resource: Resource
    var runs: nat

    constructor (resource: Resource)
      ensures this.resource == resource && runs == 0
    {
      this.resource, runs := resource, 0;
    }

    method Run()
      modifies this
      ensures runs == old(runs) + 1
    {
      runs := runs + 1;
    }
  }

  // ---- What the factory is meant to do ----

  /** The memo table, the resources whose informer was started, and how often each informer was run. */
  datatype Table = Table(informers: map<Resource, Informer>, started: set<Resource>, runs: map<Resource, nat>)

  const EMPTY_TABLE := Table(map[], {}, map[])

  /** The calls, in the order in which they take the lock. `made` is the informer that ForResource makes
      if it has to. */
  datatype Call = ForResource(resource: Resource, made: Informer) | Start | WaitForCacheSync

  predicate WellMade(c: Call) { c.ForResource? ==> c.made.resource == c.resource }

  function After(t: Table, c: Call): Table {
    match c
    case ForResource(r, made) =>
      if r in t.informers then t else t.(informers := t.informers[r := made], runs := t.runs[r := 0])
    case Start =>
      t.(started := t.started + t.informers.Keys,
         runs := map r | r in t.runs :: if r in t.started then t.runs[r] else t.runs[r] + 1)
    case WaitForCacheSync => t
  }

  function AfterAll(t: Table, calls: seq<Call>): Table {
    if calls == [] then t else After(AfterAll(t, calls[..|calls| - 1]), calls[|calls| - 1])
  }

  /** Started resources are known ones, their informers were run exactly once, the others never, and no
      two resources share an informer. */
  ghost predicate Sound(t: Table) {
    && t.started <= t.informers.Keys && t.runs.Keys == t.informers.Keys
    && (forall r :: r in t.informers ==> t.informers[r].resource == r)
    && (forall r :: r in t.runs ==> t.runs[r] == if r in t.started then 1 else 0)
  }

  /** What a later table keeps of an earlier one. */
  ghost predicate Keeps(early: Table, late: Table) {
    && (forall r :: r in early.informers ==> r in late.informers && late.informers[r] == early.informers[r])
    && early.started <= late.started
  }

  lemma CallKeeps(t: Table, c: Call)
    requires Sound(t) && WellMade(c)
    ensures Sound(After(t, c)) && Keeps(t, After(t, c))
    ensures c.Start? ==> After(t, c).started == t.informers.Keys
    ensures !c.Start? ==> After(t, c).started == t.started
  {
  }

  lemma KeepsTransitive(a: Table, b: Table, c: Table)
    requires Keeps(a, b) && Keeps(b, c)
    ensures Keeps(a, c)
  {
  }

  /** In every sequence of calls: a resource keeps the informer that it got first, no informer is run more
      than once, the started resources are among the known ones and are exactly those known at the last Start. */
  lemma {:induction false} EveryRun(calls: seq<Call>, cut: nat)
    requires cut <= |calls| && forall i :: 0 <= i < |calls| ==> WellMade(calls[i])
    ensures var early, late := AfterAll(EMPTY_TABLE, calls[..cut]), AfterAll(EMPTY_TABLE, calls);
            && Sound(early) && Sound(late) && Keeps(early, late)
            && (cut < |calls| && calls[cut].Start? && (forall i :: cut < i < |calls| ==> !calls[i].Start?)
                ==> late.started == early.informers.Keys)
    decreases |calls|, cut
  {
    if calls == [] {
    } else if cut == |calls| {
      assert calls[..cut] == calls;
      EveryRun(calls, cut - 1);
    } else {
      var before, last := calls[..|calls| - 1], calls[|calls| - 1];
      assert before[..cut] == calls[..cut];
      assert cut == |before| ==> calls[..cut] == before;
      EveryRun(before, cut);
      var early, middle := AfterAll(EMPTY_TABLE, calls[..cut]), AfterAll(EMPTY_TABLE, before);
      hide Sound, Keeps, After;
      CallKeeps(middle, last);
      KeepsTransitive(early, middle, After(middle, last));
    }
  }

  /** Two requests for one resource, at any two moments of a run, are answered with the same informer. */
  lemma SameInformer(calls: seq<Call>, i: nat, j: nat)
    requires i < j < |calls| && forall n :: 0 <= n < |calls| ==> WellMade(calls[n])
    requires calls[i].ForResource? && calls[j].ForResource? && calls[i].resource == calls[j].resource
    ensures var r := calls[i].resource;
            var first, second := AfterAll(EMPTY_TABLE, calls[..i + 1]), AfterAll(EMPTY_TABLE, calls[..j + 1]);
            r in first.informers && r in second.informers && first.informers[r] == second.informers[r]
  {
    EveryRun(calls[..j + 1], i + 1);
    assert calls[..j + 1][..i + 1] == calls[..i + 1];
    var r := calls[i].resource;
    assert calls[..i + 1][..i] == calls[..i];
    assert AfterAll(EMPTY_TABLE, calls[..i + 1]) == After(AfterAll(EMPTY_TABLE, calls[..i]), calls[i]);
  }

  // ---- Start, one informer at a time ----

  function AfterOne(t: Table, r: Resource): Table
    requires r in t.runs
  {
    if r in t.started then t else t.(started := t.started + {r}, runs := t.runs[r := t.runs[r] + 1])
  }

  function AfterSome(t: Table, done: set<Resource>): Table {
    t.(started := t.started + done,
       runs := map r | r in t.runs :: if r in done && r !in t.started then t.runs[r] + 1 else t.runs[r])
  }

  lemma AfterNone(t: Table)
    ensures AfterSome(t, {}) == t
  {
    assert t.started + {} == t.started;
    assert AfterSome(t, {}).runs == t.runs;
  }

  lemma AfterOneMore(t: Table, done: set<Resource>, r: Resource)
    requires r in t.runs && r !in done
    ensures AfterSome(t, done + {r}) == AfterOne(AfterSome(t, done), r)
  {
    var some := AfterSome(t, done);
    if r in t.started {
      assert some.started == t.started + (done + {r});
    } else {
      assert some.started + {r} == t.started + (done + {r});
    }
    assert AfterSome(t, done + {r}).runs == AfterOne(some, r).runs;
  }

  lemma AfterEvery(t: Table)
    requires Sound(t)
    ensures AfterSome(t, t.informers.Keys) == After(t, Start)
  {
    assert AfterSome(t, t.informers.Keys).runs == After(t, Start).runs;
  }

  // ---- The factory ----

  class Factory {
    var informers: map<Resource, Informer>
    var startedInformers: map<Resource, bool>

    /** A resource that is not in the map counts as not started. */
    predicate Started(r: Resource)
      reads this
    {
      r in startedInformers && startedInformers[r]
    }

    ghost function View(): Table
      reads this, informers.Values
    {
      Table(informers,
            set r | r in startedInformers && startedInformers[r],
            map r | r in informers :: informers[r].runs)
    }

    ghost predicate Valid()
      reads this, informers.Values
    {
      Sound(View())
    }

    constructor ()
      ensures Valid() && View() == EMPTY_TABLE
    {
      informers, startedInformers := map[], map[];
    }

    method ForResource(resource: Resource) returns (informer: Informer)
      requires Valid()
      modifies this`informers
      ensures Valid() && View() == After(old(View()), Call.ForResource(resource, informer))
      ensures informer.resource == resource && resource in informers && informers[resource] == informer
      ensures resource !in old(informers) ==> fresh(informer)
    {
      if resource in informers { return informers[resource]; }
      informer := new Informer(resource);
      informers := informers[resource := informer];
    }

    method StartOne(r: Resource)
      requires Valid() && r in informers
      modifies this`startedInformers, informers[r]
      ensures Valid() && View() == AfterOne(old(View()), r)
    {
      if !Started(r) {
        informers[r].Run();
        startedInformers := startedInformers[r := true];
      }
    }

    /** Runs every informer that was not run before. */
    method Start()
      requires Valid()
      modifies this`startedInformers, informers.Values
      ensures Valid() && View() == After(old(View()), Call.Start)
    {
      ghost var was := View();
      var todo := informers.Keys;
      assert informers.Keys - todo == {};
      AfterNone(was);
      hide AfterOne, AfterSome, After, Sound;
      while todo != {}
        invariant todo <= informers.Keys
        invariant Valid() && View() == AfterSome(was, informers.Keys - todo)
        decreases todo
      {
        var r :| r in todo;
        assert informers.Keys - (todo - {r}) == (informers.Keys - todo) + {r};
        AfterOneMore(was, informers.Keys - todo, r);
        todo := todo - {r};
        StartOne(r);
      }
      assert informers.Keys - todo == informers.Keys;
      AfterEvery(was);
    }

    /** Waits for the informers that are started at the moment of the call. `synced` are those whose cache
        fills before the stop signal. */
    method WaitForCacheSync(synced: set<Informer>) returns (res: map<Resource, bool>)
      requires Valid()
      ensures res.Keys == View().started
      ensures forall r :: r in res ==> r in informers && (res[r] <==> informers[r] in synced)
    {
      var snapshot: map<Resource, Informer> := map[];
      var todo := informers.Keys;
      while todo != {}
        invariant todo <= informers.Keys
        invariant forall r :: r in snapshot <==> r in informers.Keys - todo && Started(r)
        invariant forall r :: r in snapshot ==> snapshot[r] == informers[r]
        decreases todo
      {
        var r :| r in todo;
        todo := todo - {r};
        if Started(r) { snapshot := snapshot[r := informers[r]]; }
      }
      res := map[];
      todo := snapshot.Keys;
      while todo != {}
        invariant todo <= snapshot.Keys && res.Keys == snapshot.Keys - todo
        invariant forall r :: r in res ==> (res[r] <==> snapshot[r] in synced)
        decreases todo
      {
        var r :| r in todo;
        todo := todo - {r};
        res := res[r := snapshot[r] in synced];
      }
    }
  }
}
