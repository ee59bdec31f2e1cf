/** The Function as the reconciler holds it: heap objects with pointers, their deep copies, and the calls
    that change a status in place. */
module Objects {
  import opened Names
  import L = Lifecycle
  import opened Cluster

  class UrlObject {
    var url: L.Url
    constructor (url: L.Url)
      ensures this.url == url
    {
      this.url := url;
    }
  }

  class AddressObject {
    var url: UrlObject?
    constructor (url: UrlObject?)
      ensures this.url == url
    {
      this.url := url;
    }
  }

  class RawExtension {
    var raw: Json
    constructor (raw: Json)
      ensures this.raw == raw
    {
      this.raw := raw;
    }
  }

  class StringMap {
    var values: map<string, string>
    constructor (values: map<string, string>)
      ensures this.values == values
    {
      this.values := values;
    }
  }

  datatype OwnerReference = OwnerReference(uid: Uid, name: string, controller: Option<bool>)

  /** What an object's metadata holds by reference; None stands for nil. */
  datatype Metadata = Metadata(
    labels: Option<map<string, string>>, annotations: Option<map<string, string>>,
    owners: Option<seq<OwnerReference>>, finalizers: Option<seq<string>>)

  const NO_METADATA := Metadata(None, None, None, None)

  ghost function NonNull(s: set<object?>): (r: set<object>)
  {
    set o: object | o in s
  }

  class ObjectMeta {
    var labels: StringMap?
    var annotations: StringMap?
    var owners: array?<OwnerReference>
    var finalizers: array?<string>

    ghost function Footprint(): (r: set<object>)
      reads this
    {
      NonNull({this, labels, annotations, owners, finalizers})
    }

    function View(): Metadata
      reads this, labels, annotations, owners, finalizers
    {
      Metadata(
        if labels == null then None else Some(labels.values),
        if annotations == null then None else Some(annotations.values),
        if owners == null then None else Some(owners[..]),
        if finalizers == null then None else Some(finalizers[..]))
    }

    constructor ()
      ensures View() == NO_METADATA && fresh(Footprint())
    {
      labels, annotations, owners, finalizers := null, null, null, null;
    }

    method DeepCopyInto(out: ObjectMeta)
      requires out != this
      modifies out
      ensures out.View() == old(View()) && View() == old(View())
      ensures fresh(out.Footprint() - {out})
    {
      out.labels, out.annotations, out.owners, out.finalizers := labels, annotations, owners, finalizers;
      out.labels := CopyMap(out.labels);
      out.annotations := CopyMap(out.annotations);
      out.owners := CopyArray(out.owners);
      out.finalizers := CopyArray(out.finalizers);
    }
  }

  method CopyMap(source: StringMap?) returns (copy: StringMap?)
    ensures copy == null <==> source == null
    ensures source != null ==> fresh(copy) && copy.values == source.values
  {
    copy := source;
    if source != null { copy := new StringMap(source.values); }
  }

  method CopyArray<T>(source: array?<T>) returns (copy: array?<T>)
    ensures copy == null <==> source == null
    ensures source != null ==> fresh(copy) && copy[..] == source[..]
  {
    copy := source;
    if source != null {
      var from: array<T> := source;
      copy := new T[from.Length](i requires 0 <= i < from.Length reads from => from[i]);
    }
  }

  class FunctionStatus {
    var conditions: array?<L.Condition>
    var address: AddressObject?
    var url: UrlObject?
    var observedGeneration: nat

    /** Everything that a change of this status could reach. */
    ghost function Footprint(): (r: set<object>)
      reads this, address
    {
      NonNull({this, conditions, address, url, if address == null then null else address.url})
    }

    /** The status as a value. A nil and an empty list of conditions are the same. */
    function View(): L.Status
      reads this, conditions, address, url, if address != null then {address.url} else {}
    {
      L.Status(
        if conditions == null then [] else conditions[..],
        if address == null then L.NoAddress else if address.url == null then L.NoUrl else L.At(address.url.url),
        if url == null then None else Some(url.url),
        observedGeneration)
    }

    constructor ()
      ensures View() == L.EMPTY_STATUS
      ensures conditions == null && address == null && url == null
    {
      conditions, address, url, observedGeneration := null, null, null, 0;
    }

    /** Decodes a status into fresh objects. */
    constructor FromValue(st: L.Status)
      ensures View() == st && fresh(Footprint())
    {
      var a := new L.Condition[|st.conditions|](i requires 0 <= i < |st.conditions| => st.conditions[i]);
      conditions := a;
      var target: AddressObject? := null;
      match st.address {
        case NoAddress =>
        case NoUrl => target := new AddressObject(null);
        case At(u) =>
          var inner := new UrlObject(u);
          target := new AddressObject(inner);
      }
      address := target;
      var copy: UrlObject? := null;
      if st.url.Some? { copy := new UrlObject(st.url.value); }
      url := copy;
      observedGeneration := st.observedGeneration;
      new;
      assert a[..] == st.conditions;
    }

    /** The shallow copy of all fields comes first; then every pointer is replaced by a copy of its target. */
    method DeepCopyInto(out: FunctionStatus)
      requires out != this
      modifies out
      ensures out.View() == old(View()) && View() == old(View())
      ensures fresh(out.Footprint() - {out})
    {
      out.conditions, out.address, out.url, out.observedGeneration := conditions, address, url, observedGeneration;
      out.conditions := CopyArray(out.conditions);
      out.address := CopyAddress(out.address);
      out.url := CopyUrl(out.url);
    }

    static method CopyAddress(source: AddressObject?) returns (copy: AddressObject?)
      ensures copy == null <==> source == null
      ensures source != null ==> fresh(copy) && (copy.url == null <==> source.url == null)
      ensures source != null && source.url != null ==> fresh(copy.url) && copy.url.url == source.url.url
    {
      copy := source;
      if source != null {
        var target := CopyUrl(source.url);
        copy := new AddressObject(target);
      }
    }

    static method CopyUrl(source: UrlObject?) returns (copy: UrlObject?)
      ensures copy == null <==> source == null
      ensures source != null ==> fresh(copy) && copy.url == source.url
    {
      copy := source;
      if source != null { copy := new UrlObject(source.url); }
    }

    method DeepCopy() returns (out: FunctionStatus)
      ensures fresh(out.Footprint()) && out.View() == View()
    {
      out := new FunctionStatus();
      hide View;
      DeepCopyInto(out);
    }

    /** Stores a new list of conditions; the old list, which others may hold, is left as it was. */
    method SetConditions(cs: seq<L.Condition>)
      modifies this`conditions
      ensures View() == old(View()).(conditions := cs)
      ensures conditions == old(conditions) || fresh(conditions)
    {
      if !(if conditions == null then cs == [] else conditions[..] == cs) {
        var a := new L.Condition[|cs|](i requires 0 <= i < |cs| => cs[i]);
        conditions := a;
        assert a[..] == cs;
      }
    }

    method InitializeConditions()
      modifies this`conditions
      ensures View() == L.InitializeConditions(old(View()))
      ensures conditions == old(conditions) || fresh(conditions)
    {
      SetConditions(L.InitializeConditions(View()).conditions);
    }

    method MarkTrue(t: L.ConditionType)
      requires t != L.Ready
      modifies this`conditions
      ensures View() == L.MarkTrue(old(View()), t)
      ensures conditions == old(conditions) || fresh(conditions)
    {
      SetConditions(L.MarkTrue(View(), t).conditions);
    }

    method MarkFalse(t: L.ConditionType, reason: string, message: string)
      requires t != L.Ready
      modifies this`conditions
      ensures View() == L.MarkFalse(old(View()), t, reason, message)
      ensures conditions == old(conditions) || fresh(conditions)
    {
      SetConditions(L.MarkFalse(View(), t, reason, message).conditions);
    }

    /** Publishes an address: a nil URL marks it missing. */
    method SetAddress(u: UrlObject?)
      modifies this`conditions, this`address
      ensures View() == L.SetAddress(old(View()), if u == null then None else Some(u.url))
      ensures conditions == old(conditions) || fresh(conditions)
      ensures address != null && fresh(address) && address.url == u
    {
      address := new AddressObject(u);
      if u == null {
        MarkFalse(L.Addressable, "emptyURL", "URL is the empty string");
        return;
      }
      MarkTrue(L.Addressable);
    }

    method SetUrl(u: UrlObject?, generation: nat)
      modifies this`url, this`observedGeneration
      ensures View() == old(View()).(url := if u == null then None else Some(u.url), observedGeneration := generation)
    {
      url, observedGeneration := u, generation;
    }

    /** One of the calls that may change a status. A published URL is a fresh object, as in the reconciler. */
    method Perform(c: L.Call)
      modifies this
      ensures View() == L.Perform(old(View()), c)
    {
      hide View;
      match c {
        case Initialize => InitializeConditions();
        case ConfigMapIsSynced => MarkTrue(L.ConfigMapSynced);
        case ConfigMapNotSynced(r, m) => MarkFalse(L.ConfigMapSynced, r, m);
        case ServiceIsSynced => MarkTrue(L.ServiceReady);
        case ServiceNotSynced(r, m) => MarkFalse(L.ServiceReady, r, m);
        case RouteIsReady => MarkTrue(L.RouteReady);
        case RouteNotReady(r, m) => MarkFalse(L.RouteReady, r, m);
        case AddressableNotReady(r, m) => MarkFalse(L.Addressable, r, m);
        case AddressSet(u) =>
          var target: UrlObject? := null;
          if u.Some? { target := new UrlObject(u.value); }
          SetAddress(target);
      }
    }
  }

  class FunctionObject {
    var uid: Uid
    var version: Version
    var generation: nat
    var deleting: bool
    var spec: RawExtension?
    const meta: ObjectMeta
    const status: FunctionStatus

    ghost function Footprint(): (r: set<object>)
      reads this, meta, status, status.address
    {
      NonNull({this, spec}) + meta.Footprint() + status.Footprint()
    }

    /** The spec as marshalled: a nil pointer gives null. */
    function SpecView(): Json
      reads this, spec
    {
      if spec == null then "null" else spec.raw
    }

    function View(): Function
      reads this, spec, status, status.conditions, status.address, status.url,
            if status.address != null then {status.address.url} else {}
    {
      Function(uid, version, generation, deleting, SpecView(), status.View())
    }

    /** An object without a spec, with empty metadata and an empty status. */
    constructor ()
      ensures fresh(Footprint()) && fresh(meta) && fresh(status)
      ensures meta.View() == NO_METADATA && status.View() == L.EMPTY_STATUS
      ensures spec == null && status.address == null && status.url == null && status.conditions == null
    {
      uid, version, generation, deleting, spec := 0, 0, 0, false, null;
      meta := new ObjectMeta();
      status := new FunctionStatus();
    }

    /** Decodes what the API server returned into fresh objects. */
    constructor FromValue(f: Function)
      ensures fresh(Footprint()) && fresh(meta) && fresh(status) && View() == f && meta.View() == NO_METADATA
    {
      uid, version, generation, deleting := f.uid, f.version, f.generation, f.deleting;
      var raw := new RawExtension(f.spec);
      spec := raw;
      meta := new ObjectMeta();
      status := new FunctionStatus.FromValue(f.status);
    }

    /** Metadata and status are copied in place, the spec by its pointer. */
    method DeepCopyInto(out: FunctionObject)
      requires out != this && out.meta != meta && out.status != status
      modifies out, out.meta, out.status
      ensures out.View() == old(View()) && out.meta.View() == old(meta.View())
      ensures View() == old(View()) && meta.View() == old(meta.View())
      ensures out.spec != null ==> fresh(out.spec)
      ensures fresh(out.meta.Footprint() - {out.meta}) && fresh(out.status.Footprint() - {out.status})
    {
      hide FunctionStatus.View, ObjectMeta.View, SpecView;
      ShallowCopyInto(out);
      meta.DeepCopyInto(out.meta);
      status.DeepCopyInto(out.status);
    }

    method ShallowCopyInto(out: FunctionObject)
      modifies out
      ensures out.uid == old(uid) && out.version == old(version) && out.generation == old(generation)
      ensures out.deleting == old(deleting) && out.SpecView() == old(SpecView())
      ensures out.spec != null ==> fresh(out.spec)
    {
      out.uid, out.version, out.generation, out.deleting, out.spec := uid, version, generation, deleting, spec;
      out.spec := CopySpec(out.spec);
    }

    static method CopySpec(source: RawExtension?) returns (copy: RawExtension?)
      ensures copy == null <==> source == null
      ensures source != null ==> fresh(copy) && copy.raw == source.raw
    {
      copy := source;
      if source != null { copy := new RawExtension(source.raw); }
    }

    /** The copy is equal to its source and made of fresh objects only. */
    method DeepCopy() returns (out: FunctionObject)
      ensures out.View() == View() && out.meta.View() == meta.View()
      ensures fresh(out.Footprint()) && fresh(out) && fresh(out.meta) && fresh(out.status)
    {
      hide FunctionStatus.View, ObjectMeta.View, View;
      out := new FunctionObject();
      DeepCopyInto(out);
    }
  }

  /** No sequence of status calls on a deep copy reaches the original; the copy gets exactly their effect. */
  method PerformOnCopy(original: FunctionObject, calls: seq<L.Call>) returns (copy: FunctionObject)
    ensures fresh(copy) && fresh(copy.status)
    ensures copy.View() == original.View().(status := L.PerformAll(original.View().status, calls))
  {
    hide FunctionStatus.View, FunctionObject.Footprint;
    copy := original.DeepCopy();
    PerformEach(copy.status, calls);
  }

  method PerformEach(st: FunctionStatus, calls: seq<L.Call>)
    modifies st
    ensures st.View() == L.PerformAll(old(st.View()), calls)
  {
    hide FunctionStatus.View, L.Perform;
    for i := 0 to |calls|
      invariant st.View() == L.PerformAll(old(st.View()), calls[..i])
    {
      st.Perform(calls[i]);
      assert calls[..i + 1][..i] == calls[..i];
    }
    assert calls[..|calls|] == calls;
  }

  class FunctionList {
    var items: array?<FunctionObject>

    constructor ()
      ensures items == null
    {
      items := null;
    }

    /** The copied list has as many items, each equal to its source and made of fresh objects that it shares
        with no other item. */
    method DeepCopyInto(out: FunctionList)
      requires out != this
      modifies out
      ensures items == old(items) && (out.items == null <==> items == null)
      ensures items != null ==> fresh(out.items) && out.items.Length == items.Length
      ensures items != null ==> forall i :: 0 <= i < items.Length ==> fresh(out.items[i].Footprint())
      ensures items != null ==> forall i :: 0 <= i < items.Length ==>
                out.items[i].View() == items[i].View() && out.items[i].meta.View() == items[i].meta.View()
      ensures items != null ==> forall i, j :: 0 <= i < j < items.Length ==>
                out.items[i].Footprint() !! out.items[j].Footprint()
    {
      hide FunctionObject.View, FunctionObject.Footprint, ObjectMeta.View;
      out.items := null;
      if items != null {
        var copies := CopyItems(items);
        out.items := copies;
      }
    }

    static method CopyItems(items: array<FunctionObject>) returns (copies: array<FunctionObject>)
      ensures fresh(copies) && copies.Length == items.Length
      ensures forall i :: 0 <= i < items.Length ==> fresh(copies[i].Footprint())
      ensures forall i :: 0 <= i < items.Length ==>
                copies[i].View() == items[i].View() && copies[i].meta.View() == items[i].meta.View()
      ensures forall i, j :: 0 <= i < j < items.Length ==> copies[i].Footprint() !! copies[j].Footprint()
    {
      hide FunctionObject.View, FunctionObject.Footprint, ObjectMeta.View, ObjectMeta.Footprint;
      var done: seq<FunctionObject> := [];
      ghost var taken: set<object> := {};
      for i := 0 to items.Length
        invariant |done| == i && fresh(taken)
        invariant forall j :: 0 <= j < i ==> done[j].Footprint() <= taken
        invariant forall j :: 0 <= j < i ==> done[j].View() == items[j].View() && done[j].meta.View() == items[j].meta.View()
        invariant forall j, l :: 0 <= j < l < i ==> done[j].Footprint() !! done[l].Footprint()
      {
        var c := items[i].DeepCopy();
        done, taken := done + [c], taken + c.Footprint();
      }
      copies := new FunctionObject[|done|](i requires 0 <= i < |done| => done[i]);
    }
  }
}
