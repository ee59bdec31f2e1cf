/** Route names and configuration keys: the strings by which a Function, its Route and its entry in
    the shared configuration are tied together. */
module Names {
  const ROUTE_NAMESPACE := "knative-functions"

  datatype Option<+T> = None | Some(value: T)

  /** The name of the Route of one Function: kind, namespace and name joined by hyphens. */
  function MakeRouteName(functionName: string, name: string, ns: string): string {
    functionName + "-" + ns + "-" + name
  }

  /** The host at which Knative serves a Route, and the host that a Function publishes. */
  function RouteHost(name: string, ns: string, domain: string): string {
    name + "." + ns + ".svc." + domain
  }

  /** Go's strings.Split for a one-character separator. */
  function Split(s: string, sep: char): (parts: seq<string>)
    ensures |parts| >= 1
    ensures forall i :: 0 <= i < |parts| ==> sep !in parts[i]
  {
    if s == "" then [""] else Extend(s[0], sep, Split(s[1..], sep))
  }

  /** The parts of a string that has one more character in front. */
  function Extend(c: char, sep: char, parts: seq<string>): seq<string>
    requires |parts| >= 1
  {
    if c == sep then [""] + parts else [[c] + parts[0]] + parts[1..]
  }

  /** The configuration key taken from a Route's host: its first two dot-separated parts.
      None stands for the index panic on a host without a dot. */
  function ConfigKey(host: string): Option<string> {
    var parts := Split(host, '.');
    if |parts| < 2 then None else Some(parts[0] + "." + parts[1])
  }

  lemma {:induction false} SplitWithout(a: string, sep: char)
    ensures Split(a, sep) == [a] <==> sep !in a
    ensures |Split(a, sep)| == 1 <==> sep !in a
  {
    if a != "" {
      SplitWithout(a[1..], sep);
      assert a == [a[0]] + a[1..];
    }
  }

  lemma ExtendFirst(c: char, sep: char, a: seq<string>, b: seq<string>)
    requires |a| >= 1
    ensures Extend(c, sep, a + b) == Extend(c, sep, a) + b
  {
    assert (a + b)[1..] == a[1..] + b;
  }

  /** Splitting a joined string splits each side; the parts that meet at the separator stay apart. */
  lemma {:induction false} SplitJoined(a: string, sep: char, b: string)
    ensures Split(a + [sep] + b, sep) == Split(a, sep) + Split(b, sep)
  {
    var s := a + [sep] + b;
    if a == "" {
      assert s[1..] == b && s[0] == sep;
    } else {
      assert s[1..] == a[1..] + [sep] + b && s[0] == a[0];
      SplitJoined(a[1..], sep, b);
      ExtendFirst(a[0], sep, Split(a[1..], sep), Split(b, sep));
      hide Extend;
    }
  }

  lemma SplitJoined3(a: string, b: string, c: string, sep: char)
    ensures Split(a + [sep] + (b + [sep] + c), sep) == Split(a, sep) + Split(b, sep) + Split(c, sep)
  {
    hide Split;
    SplitJoined(a, sep, b + [sep] + c);
    SplitJoined(b, sep, c);
    assert Split(a, sep) + (Split(b, sep) + Split(c, sep)) == Split(a, sep) + Split(b, sep) + Split(c, sep);
  }

  /** The host of a Route is its name, its namespace, "svc" and the cluster domain, dot by dot, for all strings. */
  lemma HostParts(name: string, ns: string, domain: string)
    ensures Split(RouteHost(name, ns, domain), '.') == Split(name, '.') + Split(ns, '.') + ["svc"] + Split(domain, '.')
    ensures RouteHost(name, ns, domain) == name + "." + ns + ".svc." + domain
  {
    hide Split;
    var rest := "svc" + ['.'] + domain;
    SplitJoined3(name, ns, rest, '.');
    SplitJoined("svc", '.', domain);
    SplitWithout("svc", '.');
    assert RouteHost(name, ns, domain) == name + ['.'] + (ns + ['.'] + rest);
  }

  /** The name of a Route is kind, namespace and name, hyphen by hyphen, in this order. */
  lemma RouteNameParts(kind: string, name: string, ns: string)
    ensures Split(MakeRouteName(kind, name, ns), '-') == Split(kind, '-') + Split(ns, '-') + Split(name, '-')
    ensures MakeRouteName("uppers", "f", "ns") == "uppers-ns-f"
  {
    SplitJoined3(kind, ns, name, '-');
    assert MakeRouteName(kind, name, ns) == kind + ['-'] + (ns + ['-'] + name);
  }

  /** Joining on a separator loses nothing when the left sides do not contain it. */
  lemma JoinInjective(a: string, b: string, a': string, b': string, sep: char)
    requires sep !in a && sep !in a'
    requires a + [sep] + b == a' + [sep] + b'
    ensures a == a' && b == b'
  {
    SplitJoined(a, sep, b);
    SplitJoined(a', sep, b');
    SplitWithout(a, sep);
    SplitWithout(a', sep);
    assert a == Split(a + [sep] + b, sep)[0] == a';
    assert b == (a + [sep] + b)[|a| + 1..] == b';
  }

  /** The key read back from a Route's host is name.namespace exactly when neither contains a dot,
      whatever the cluster domain. */
  lemma KeyMatchesAddress(name: string, ns: string, domain: string)
    ensures ConfigKey(RouteHost(name, ns, domain)) == Some(name + "." + ns)
       <==> '.' !in name && '.' !in ns
  {
    var rest := "svc." + domain;
    var host := name + ['.'] + (ns + ['.'] + rest);
    assert RouteHost(name, ns, domain) == host;
    SplitJoined(name, '.', ns + ['.'] + rest);
    SplitJoined(ns, '.', rest);
    SplitWithout(name, '.');
    SplitWithout(ns, '.');
    var parts := Split(host, '.');
    assert parts == Split(name, '.') + Split(ns, '.') + Split(rest, '.');
    if name + "." + ns == parts[0] + "." + parts[1] {
      SplitJoined(name, '.', ns);
      SplitJoined(parts[0], '.', parts[1]);
      SplitWithout(parts[0], '.');
      SplitWithout(parts[1], '.');
      assert |Split(name, '.')| + |Split(ns, '.')| == 2;
    }
  }

  /** Dot-free names and namespaces give different keys to different Routes. */
  lemma KeysDistinct(name: string, ns: string, name': string, ns': string)
    requires '.' !in name && '.' !in name'
    requires name + "." + ns == name' + "." + ns'
    ensures name == name' && ns == ns'
  {
    JoinInjective(name, ns, name', ns', '.');
  }

  /** A Route whose name has two or more dots is filed under a key that drops everything after the
      second part, so Routes that differ only there share one key. */
  lemma DottedNamesShareAKey(a: string, b: string, c: string, ns: string, c': string, ns': string, domain: string)
    requires '.' !in a && '.' !in b
    ensures ConfigKey(RouteHost(a + "." + b + "." + c, ns, domain))
         == ConfigKey(RouteHost(a + "." + b + "." + c', ns', domain))
         == Some(a + "." + b)
  {
    DottedKey(a, b, c + "." + ns + ".svc." + domain);
    DottedKey(a, b, c' + "." + ns' + ".svc." + domain);
    assert RouteHost(a + "." + b + "." + c, ns, domain) == a + ['.'] + (b + ['.'] + (c + "." + ns + ".svc." + domain));
    assert RouteHost(a + "." + b + "." + c', ns', domain) == a + ['.'] + (b + ['.'] + (c' + "." + ns' + ".svc." + domain));
  }

  lemma DottedKey(a: string, b: string, rest: string)
    requires '.' !in a && '.' !in b
    ensures ConfigKey(a + ['.'] + (b + ['.'] + rest)) == Some(a + "." + b)
  {
    SplitJoined(a, '.', b + ['.'] + rest);
    SplitJoined(b, '.', rest);
    SplitWithout(a, '.');
    SplitWithout(b, '.');
  }

  /** For one kind, hyphen-free namespaces make Route names injective; hyphen-free kinds extend this
      to Functions of different kinds, which share one Route namespace. */
  lemma RouteNameInjective(kind: string, ns: string, name: string, kind': string, ns': string, name': string)
    requires '-' !in ns && '-' !in ns'
    requires kind == kind' || ('-' !in kind && '-' !in kind')
    requires MakeRouteName(kind, name, ns) == MakeRouteName(kind', name', ns')
    ensures kind == kind' && ns == ns' && name == name'
  {
    assert MakeRouteName(kind, name, ns) == kind + ['-'] + (ns + ['-'] + name);
    assert MakeRouteName(kind', name', ns') == kind' + ['-'] + (ns' + ['-'] + name');
    if kind == kind' {
      assert ns + ['-'] + name == MakeRouteName(kind, name, ns)[|kind| + 1..] == ns' + ['-'] + name';
    } else {
      JoinInjective(kind, ns + ['-'] + name, kind', ns' + ['-'] + name', '-');
    }
    JoinInjective(ns, name, ns', name', '-');
  }

  // ---- Which Functions can collide ----

  predicate Alphanumeric(c: char) { 'a' <= c <= 'z' || '0' <= c <= '9' }

  /** A namespace that Kubernetes accepts: a label of RFC 1123. */
  predicate DnsLabel(s: string) {
    && 0 < |s| <= 63 && Alphanumeric(s[0]) && Alphanumeric(s[|s| - 1])
    && forall i :: 0 <= i < |s| ==> Alphanumeric(s[i]) || s[i] == '-'
  }

  /** A Function name that Kubernetes accepts: labels joined by dots. */
  predicate DnsSubdomain(s: string) {
    && 0 < |s| <= 253 && Alphanumeric(s[0]) && Alphanumeric(s[|s| - 1])
    && forall i :: 0 <= i < |s| ==> Alphanumeric(s[i]) || s[i] == '-' || InnerDot(s, i)
  }

  predicate InnerDot(s: string, i: int) {
    0 < i < |s| - 1 && s[i] == '.' && Alphanumeric(s[i - 1]) && Alphanumeric(s[i + 1])
  }

  predicate InnerHyphen(s: string, i: int) {
    0 < i < |s| - 1 && s[i] == '-' && Alphanumeric(s[i - 1]) && Alphanumeric(s[i + 1])
  }

  /** Another Function of the kind that the cluster can hold would get the same Route name. */
  ghost predicate Collides(kind: string, ns: string, name: string) {
    exists ns': string, name': string ::
      && DnsLabel(ns') && DnsSubdomain(name') && (ns' != ns || name' != name)
      && MakeRouteName(kind, name', ns') == MakeRouteName(kind, name, ns)
  }

  /** The joined name can be cut at another hyphen: one inside the namespace, or one inside the first label
      of the name, that stands alone between alphanumeric characters and leaves both sides short enough. */
  ghost predicate CutsElsewhere(ns: string, name: string) {
    || (exists i :: InnerHyphen(ns, i) && |ns| - i + |name| <= 253)
    || (exists i :: InnerHyphen(name, i) && '.' !in name[..i] && |ns| + 1 + i <= 63)
  }

  lemma CutInNamespace(kind: string, ns: string, name: string, i: int)
    requires DnsLabel(ns) && DnsSubdomain(name) && InnerHyphen(ns, i) && |ns| - i + |name| <= 253
    ensures Collides(kind, ns, name)
  {
    var ns', name' := ns[..i], ns[i + 1..] + "-" + name;
    assert ns' + "-" + name' == ns + "-" + name;
    assert MakeRouteName(kind, name', ns') == kind + "-" + (ns' + "-" + name');
    assert MakeRouteName(kind, name, ns) == kind + "-" + (ns + "-" + name);
    var shift := |ns| - i;
    forall j | 0 <= j < |name'| ensures Alphanumeric(name'[j]) || name'[j] == '-' || InnerDot(name', j) {
      if j >= shift {
        assert name'[j] == name[j - shift];
        if InnerDot(name, j - shift) { assert name'[j - 1] == name[j - shift - 1] && name'[j + 1] == name[j - shift + 1]; }
      }
    }
    assert DnsLabel(ns') && DnsSubdomain(name') && |ns'| != |ns|;
  }

  lemma CutInName(kind: string, ns: string, name: string, i: int)
    requires DnsLabel(ns) && DnsSubdomain(name) && InnerHyphen(name, i) && '.' !in name[..i] && |ns| + 1 + i <= 63
    ensures Collides(kind, ns, name)
  {
    var ns', name' := ns + "-" + name[..i], name[i + 1..];
    assert ns' + "-" + name' == ns + "-" + name;
    assert MakeRouteName(kind, name', ns') == kind + "-" + (ns' + "-" + name');
    assert MakeRouteName(kind, name, ns) == kind + "-" + (ns + "-" + name);
    forall j | 0 <= j < |ns'| ensures Alphanumeric(ns'[j]) || ns'[j] == '-' {
      if j > |ns| { assert ns'[j] == name[..i][j - |ns| - 1]; }
    }
    forall j | 0 <= j < |name'| ensures Alphanumeric(name'[j]) || name'[j] == '-' || InnerDot(name', j) {
      assert name'[j] == name[j + i + 1];
      if InnerDot(name, j + i + 1) { assert j > 0 && name'[j - 1] == name[j + i] && name'[j + 1] == name[j + i + 2]; }
    }
    assert DnsLabel(ns') && DnsSubdomain(name') && |ns'| != |ns|;
  }

  lemma SameCut(a: string, b: string, a': string, b': string)
    requires a + "-" + b == a' + "-" + b'
    ensures |a| == |a'| ==> a == a' && b == b'
  {
    if |a| == |a'| {
      assert a == (a + "-" + b)[..|a|] && a' == (a' + "-" + b')[..|a|];
      assert b == (a + "-" + b)[|a| + 1..] && b' == (a' + "-" + b')[|a| + 1..];
    }
  }

  lemma CollisionCuts(kind: string, ns: string, name: string, ns': string, name': string)
    requires DnsLabel(ns) && DnsSubdomain(name) && DnsLabel(ns') && DnsSubdomain(name') && (ns' != ns || name' != name)
    requires MakeRouteName(kind, name', ns') == MakeRouteName(kind, name, ns)
    ensures CutsElsewhere(ns, name)
  {
    var joined, joined' := ns + "-" + name, ns' + "-" + name';
    assert MakeRouteName(kind, name', ns') == kind + "-" + joined' && MakeRouteName(kind, name, ns) == kind + "-" + joined;
    assert joined == (kind + "-" + joined)[|kind| + 1..] == joined';
    SameCut(ns, name, ns', name');
    if |ns'| < |ns| {
      var i := |ns'|;
      assert ns[i] == joined'[i] && ns[i - 1] == joined'[i - 1] && joined[i + 1] == name'[0];
      assert InnerHyphen(ns, i);
    } else {
      var i := |ns'| - |ns| - 1;
      assert joined[|ns'|] == '-' && joined[|ns'| + 1] == name'[0] && joined[|ns'| - 1] == ns'[|ns'| - 1];
      assert name[i] == joined[|ns'|];
      assert InnerHyphen(name, i);
      forall j | 0 <= j < i ensures name[..i][j] != '.' { assert name[j] == joined'[|ns| + 1 + j] == ns'[|ns| + 1 + j]; }
    }
  }

  /** Among the Functions that a cluster can hold, those that another one can collide with are exactly those
      whose joined name can be cut elsewhere. */
  lemma CollidesExactlyWhenCut(kind: string, ns: string, name: string)
    requires DnsLabel(ns) && DnsSubdomain(name)
    ensures Collides(kind, ns, name) <==> CutsElsewhere(ns, name)
  {
    hide DnsLabel, DnsSubdomain, MakeRouteName;
    if Collides(kind, ns, name) {
      var ns': string, name': string :|
        && DnsLabel(ns') && DnsSubdomain(name') && (ns' != ns || name' != name)
        && MakeRouteName(kind, name', ns') == MakeRouteName(kind, name, ns);
      CollisionCuts(kind, ns, name, ns', name');
    }
    if i :| InnerHyphen(ns, i) && |ns| - i + |name| <= 253 {
      CutInNamespace(kind, ns, name, i);
    } else if i :| InnerHyphen(name, i) && '.' !in name[..i] && |ns| + 1 + i <= 63 {
      CutInName(kind, ns, name, i);
    }
  }
}
