/** The status of a Function as a value: its conditions and what each Mark call does to them. */
module Lifecycle {
  import opened Names

  datatype ConditionType = Ready | ConfigMapSynced | Addressable | RouteReady | ServiceReady
  datatype ConditionStatus = True | False | Unknown
  datatype Condition = Condition(ctype: ConditionType, status: ConditionStatus, reason: string, message: string)

  datatype Url = Url(scheme: string, host: string)
  /** A pointer to an addressable whose URL pointer may itself be nil. */
  datatype Address = NoAddress | NoUrl | At(url: Url)

  datatype Status = Status(
    conditions: seq<Condition>, address: Address, url: Option<Url>, observedGeneration: nat)

  const EMPTY_STATUS := Status([], NoAddress, None, 0)

  /** The conditions that Ready depends on. RouteReady and ServiceReady are not among them. */
  predicate Dependent(t: ConditionType) { t == ConfigMapSynced || t == Addressable }

  /** The first condition of a type. */
  function Lookup(cs: seq<Condition>, t: ConditionType): Option<Condition> {
    if cs == [] then None else if cs[0].ctype == t then Some(cs[0]) else Lookup(cs[1..], t)
  }

  predicate IsTrue(st: Status, t: ConditionType) {
    var c := Lookup(st.conditions, t);
    c.Some? && c.value.status.True?
  }

  function Remove(cs: seq<Condition>, t: ConditionType): seq<Condition> {
    if cs == [] then [] else if cs[0].ctype == t then Remove(cs[1..], t) else [cs[0]] + Remove(cs[1..], t)
  }

  ghost predicate Unique(cs: seq<Condition>) {
    forall i, j :: 0 <= i < j < |cs| ==> cs[i].ctype != cs[j].ctype
  }

  /** One condition per type; setting a condition that is already there changes nothing. */
  function SetCondition(cs: seq<Condition>, c: Condition): (r: seq<Condition>)
    ensures forall t :: Lookup(r, t) == if t == c.ctype then Some(c) else Lookup(cs, t)
    ensures Unique(cs) ==> Unique(r)
  {
    if Lookup(cs, c.ctype) == Some(c) then cs
    else
      var rest := Remove(cs, c.ctype);
      RemoveFacts(cs, c.ctype);
      LookupAppend(rest, c);
      rest + [c]
  }

  lemma {:induction false} LookupAppend(cs: seq<Condition>, c: Condition)
    ensures forall t :: Lookup(cs + [c], t) ==
                        if Lookup(cs, t).Some? then Lookup(cs, t) else if t == c.ctype then Some(c) else None
  {
    if cs == [] {
      assert cs + [c] == [c];
    } else {
      LookupAppend(cs[1..], c);
      assert (cs + [c])[1..] == cs[1..] + [c];
    }
  }

  lemma {:induction false} RemoveFacts(cs: seq<Condition>, t: ConditionType)
    ensures forall u :: Lookup(Remove(cs, t), u) == if u == t then None else Lookup(cs, u)
    ensures forall c :: c in Remove(cs, t) <==> c in cs && c.ctype != t
    ensures Unique(cs) ==> Unique(Remove(cs, t))
  {
    if cs != [] {
      RemoveFacts(cs[1..], t);
      var rest := Remove(cs[1..], t);
      assert cs[0].ctype != t ==> ([cs[0]] + rest)[1..] == rest;
      if Unique(cs) && cs[0].ctype != t {
        forall j | 0 <= j < |rest| ensures rest[j].ctype != cs[0].ctype {
          assert rest[j] in cs[1..];
        }
      }
    }
  }

  /** An unset Ready starts Unknown. Unset conditions that Ready is computed from start True if Ready is
      True already, which cannot be in a coherent status, and else Unknown. */
  function InitializeConditions(st: Status): (r: Status)
    ensures Coherent(st) ==> Coherent(r) && forall t :: IsTrue(r, t) == IsTrue(st, t)
    ensures forall t :: Lookup(r.conditions, t) ==
              if Lookup(st.conditions, t).Some? || !(Dependent(t) || t == Ready) then Lookup(st.conditions, t)
              else Some(Condition(t, if Dependent(t) && IsTrue(st, Ready) then True else Unknown, "", ""))
    ensures r == st.(conditions := r.conditions)
  {
    var c1 := InitializeOne(st.conditions, Ready, Unknown);
    var status := if IsTrue(st, Ready) then True else Unknown;
    st.(conditions := InitializeOne(InitializeOne(c1, ConfigMapSynced, status), Addressable, status))
  }

  function InitializeOne(cs: seq<Condition>, t: ConditionType, status: ConditionStatus): (r: seq<Condition>)
    ensures Unique(cs) ==> Unique(r)
    ensures forall u :: Lookup(r, u) == if u == t && Lookup(cs, t) == None then Some(Condition(t, status, "", ""))
                                        else Lookup(cs, u)
  {
    if Lookup(cs, t) == None then SetCondition(cs, Condition(t, status, "", "")) else cs
  }

  /** Marking True makes Ready True as soon as both dependents are True. */
  function MarkTrue(st: Status, t: ConditionType): (r: Status)
    requires t != Ready
    ensures Coherent(st) ==> Coherent(r)
    ensures Lookup(r.conditions, t) == Some(Condition(t, True, "", ""))
    ensures forall u :: u != t && u != Ready ==> Lookup(r.conditions, u) == Lookup(st.conditions, u)
    ensures Lookup(r.conditions, Ready) ==
              if IsTrue(r, ConfigMapSynced) && IsTrue(r, Addressable) then Some(Condition(Ready, True, "", ""))
              else Lookup(st.conditions, Ready)
    ensures r == st.(conditions := r.conditions)
  {
    var marked := st.(conditions := SetCondition(st.conditions, Condition(t, True, "", "")));
    if IsTrue(marked, ConfigMapSynced) && IsTrue(marked, Addressable)
    then marked.(conditions := SetCondition(marked.conditions, Condition(Ready, True, "", "")))
    else marked
  }

  /** Marking a dependent False makes Ready False; marking another condition leaves Ready alone. */
  function MarkFalse(st: Status, t: ConditionType, reason: string, message: string): (r: Status)
    requires t != Ready
    ensures Coherent(st) ==> Coherent(r)
    ensures Lookup(r.conditions, t) == Some(Condition(t, False, reason, message))
    ensures forall u :: u != t && u != Ready ==> Lookup(r.conditions, u) == Lookup(st.conditions, u)
    ensures Lookup(r.conditions, Ready) ==
              if Dependent(t) then Some(Condition(Ready, False, reason, message)) else Lookup(st.conditions, Ready)
    ensures r == st.(conditions := r.conditions)
  {
    var marked := st.(conditions := SetCondition(st.conditions, Condition(t, False, reason, message)));
    if Dependent(t)
    then marked.(conditions := SetCondition(marked.conditions, Condition(Ready, False, reason, message)))
    else marked
  }

  function SetAddress(st: Status, url: Option<Url>): (r: Status)
    ensures Coherent(st) ==> Coherent(r)
    ensures Lookup(r.conditions, Addressable) == Some(
              if url.Some? then Condition(Addressable, True, "", "")
              else Condition(Addressable, False, "emptyURL", "URL is the empty string"))
    ensures forall u :: u != Addressable && u != Ready ==> Lookup(r.conditions, u) == Lookup(st.conditions, u)
    ensures url.Some? && IsTrue(st, ConfigMapSynced) ==> Lookup(r.conditions, Ready) == Some(Condition(Ready, True, "", ""))
    ensures url.None? ==> Lookup(r.conditions, Ready) == Some(Condition(Ready, False, "emptyURL", "URL is the empty string"))
    ensures r == st.(conditions := r.conditions, address := if url.Some? then At(url.value) else NoUrl)
  {
    match url
    case None => MarkFalse(st.(address := NoUrl), Addressable, "emptyURL", "URL is the empty string")
    case Some(u) => MarkTrue(st.(address := At(u)), Addressable)
  }

  /** What every reachable status keeps: one condition per type, and Ready says exactly whether both
      of its dependents hold. */
  ghost predicate Coherent(st: Status) {
    && Unique(st.conditions)
    && (IsTrue(st, Ready) <==> IsTrue(st, ConfigMapSynced) && IsTrue(st, Addressable))
  }

  /** The calls that may change a status. */
  datatype Call =
    | Initialize
    | ConfigMapIsSynced | ConfigMapNotSynced(reason: string, message: string)
    | ServiceIsSynced | ServiceNotSynced(reason: string, message: string)
    | RouteIsReady | RouteNotReady(reason: string, message: string)
    | AddressableNotReady(reason: string, message: string)
    | AddressSet(url: Option<Url>)

  function Perform(st: Status, c: Call): Status {
    match c
    case Initialize => InitializeConditions(st)
    case ConfigMapIsSynced => MarkTrue(st, ConfigMapSynced)
    case ConfigMapNotSynced(r, m) => MarkFalse(st, ConfigMapSynced, r, m)
    case ServiceIsSynced => MarkTrue(st, ServiceReady)
    case ServiceNotSynced(r, m) => MarkFalse(st, ServiceReady, r, m)
    case RouteIsReady => MarkTrue(st, RouteReady)
    case RouteNotReady(r, m) => MarkFalse(st, RouteReady, r, m)
    case AddressableNotReady(r, m) => MarkFalse(st, Addressable, r, m)
    case AddressSet(u) => SetAddress(st, u)
  }

  function PerformAll(st: Status, calls: seq<Call>): Status {
    if calls == [] then st else Perform(PerformAll(st, calls[..|calls| - 1]), calls[|calls| - 1])
  }

  /** What a call says about a dependent condition, if it says anything. */
  function Verdict(c: Call, t: ConditionType): Option<bool> {
    match c
    case ConfigMapIsSynced => if t == ConfigMapSynced then Some(true) else None
    case ConfigMapNotSynced(_, _) => if t == ConfigMapSynced then Some(false) else None
    case AddressableNotReady(_, _) => if t == Addressable then Some(false) else None
    case AddressSet(u) => if t == Addressable then Some(u.Some?) else None
    case _ => None
  }

  /** The last verdict on a condition; without any it does not hold. */
  function LastVerdict(calls: seq<Call>, t: ConditionType): bool {
    if calls == [] then false
    else
      var now := Verdict(calls[|calls| - 1], t);
      if now.Some? then now.value else LastVerdict(calls[..|calls| - 1], t)
  }

  lemma OneVerdict(st: Status, c: Call)
    requires Coherent(st)
    ensures Coherent(Perform(st, c))
    ensures forall t :: Dependent(t) ==>
              IsTrue(Perform(st, c), t) == if Verdict(c, t).Some? then Verdict(c, t).value else IsTrue(st, t)
  {
    hide Coherent, InitializeConditions, MarkTrue, MarkFalse, SetAddress;
  }

  /** After any sequence of calls the conditions are unique by type, and the Function is Ready exactly
      when the last verdict on the ConfigMap and the last verdict on the address were both positive,
      whatever was said about the Route and the Service. */
  lemma {:induction false} ReadyMeansBothVerdicts(calls: seq<Call>)
    ensures Coherent(PerformAll(EMPTY_STATUS, calls))
    ensures IsTrue(PerformAll(EMPTY_STATUS, calls), Ready)
       <==> LastVerdict(calls, ConfigMapSynced) && LastVerdict(calls, Addressable)
    ensures forall t :: Dependent(t) ==> IsTrue(PerformAll(EMPTY_STATUS, calls), t) == LastVerdict(calls, t)
  {
    if calls != [] {
      hide Perform, Verdict, Unique, IsTrue;
      ReadyMeansBothVerdicts(calls[..|calls| - 1]);
      OneVerdict(PerformAll(EMPTY_STATUS, calls[..|calls| - 1]), calls[|calls| - 1]);
    }
  }

  /** A status in which a condition holds without any remark. */
  predicate Plain(st: Status, t: ConditionType) {
    Lookup(st.conditions, t) == Some(Condition(t, True, "", ""))
  }

  lemma RemarkingIsIdle(st: Status, t: ConditionType)
    requires t != Ready && Plain(st, t) && Plain(st, Ready)
    ensures MarkTrue(st, t) == st
  {
  }
}
