/**
  The two encodings of a policy identity into one name: the current `kw.<kind>.` encoding, which is unambiguous because
  a namespace has no dot (section 2.1 of RFC 1123), and the legacy encoding, which is not.
 */
module PolicyNames {
  import opened Options

  datatype PolicyId =
    | AdmissionPolicy(namespace: string, name: string)
    | AdmissionPolicyGroup(namespace: string, name: string)
    | ClusterAdmissionPolicy(name: string)
    | ClusterAdmissionPolicyGroup(name: string)
  {
    predicate Namespaced() {
      AdmissionPolicy? || AdmissionPolicyGroup?
    }

    /** What the API server accepts: a namespace is a DNS label. The name of a policy may contain dots. */
    predicate Valid() {
      Namespaced() ==> '.' !in namespace
    }

    function Namespace(): string {
      if Namespaced() then namespace else ""
    }
  }

  function UniqueName(p: PolicyId): string {
    match p
    case AdmissionPolicy(ns, name) => "kw.ap." + ns + "." + name
    case AdmissionPolicyGroup(ns, name) => "kw.apg." + ns + "." + name
    case ClusterAdmissionPolicy(name) => "kw.cap." + name
    case ClusterAdmissionPolicyGroup(name) => "kw.capg." + name
  }

  function LegacyName(p: PolicyId): string {
    match p
    case AdmissionPolicy(ns, name) => "namespaced-" + ns + "-" + name
    case AdmissionPolicyGroup(ns, name) => "namespaced-group-" + ns + "-" + name
    case ClusterAdmissionPolicy(name) => "clusterwide-" + name
    case ClusterAdmissionPolicyGroup(name) => "clusterwide-group-" + name
  }

  // ---- a decoder for unique names ----

  /** The text before and after the first dot, if there is one. */
  function CutDot(s: string): (r: Option<(string, string)>)
    ensures r.Some? <==> '.' in s
    ensures r.Some? ==> s == r.value.0 + "." + r.value.1 && '.' !in r.value.0
  {
    if s == [] then None
    else if s[0] == '.' then Some(("", s[1..]))
    else
      var rest := CutDot(s[1..]);
      if rest.None? then None else Some(([s[0]] + rest.value.0, rest.value.1))
  }

  lemma {:induction false} CutDotUnique(a: string, b: string)
    requires '.' !in a
    ensures CutDot(a + "." + b) == Some((a, b))
  {
    var s := a + "." + b;
    if a == [] {
      assert s[1..] == b;
    } else {
      CutDotUnique(a[1..], b);
      assert s[0] == a[0] != '.' && s[1..] == a[1..] + "." + b;
      assert [a[0]] + a[1..] == a;
    }
  }

  function DecodeNamespaced(group: bool, rest: string): Option<PolicyId> {
    match CutDot(rest)
    case Some((ns, name)) => Some(if group then AdmissionPolicyGroup(ns, name) else AdmissionPolicy(ns, name))
    case None => None
  }

  function DecodeKind(kind: string, rest: string): Option<PolicyId> {
    if kind == "ap" then DecodeNamespaced(false, rest)
    else if kind == "apg" then DecodeNamespaced(true, rest)
    else if kind == "cap" then Some(ClusterAdmissionPolicy(rest))
    else if kind == "capg" then Some(ClusterAdmissionPolicyGroup(rest))
    else None
  }

  function Decode(s: string): Option<PolicyId> {
    match CutDot(s)
    case Some(("kw", tail)) =>
      (match CutDot(tail)
       case Some((kind, rest)) => DecodeKind(kind, rest)
       case None => None)
    case _ => None
  }

  function KindToken(p: PolicyId): string {
    match p
    case AdmissionPolicy(_, _) => "ap"
    case AdmissionPolicyGroup(_, _) => "apg"
    case ClusterAdmissionPolicy(_) => "cap"
    case ClusterAdmissionPolicyGroup(_) => "capg"
  }

  function Suffix(p: PolicyId): string {
    if p.Namespaced() then p.namespace + "." + p.name else p.name
  }

  lemma UniqueNameShape(p: PolicyId)
    ensures UniqueName(p) == "kw" + "." + (KindToken(p) + "." + Suffix(p))
    ensures '.' !in KindToken(p)
  {
  }

  /** Decoding inverts the encoding of every policy the API server accepts ... */
  lemma DecodeUniqueName(p: PolicyId)
    requires p.Valid()
    ensures Decode(UniqueName(p)) == Some(p)
  {
    UniqueNameShape(p);
    CutDotUnique("kw", KindToken(p) + "." + Suffix(p));
    CutDotUnique(KindToken(p), Suffix(p));
    if p.Namespaced() {
      CutDotUnique(p.namespace, p.name);
    }
  }

  /** ... and a name decodes to nothing but a valid policy that has it. */
  lemma DecodeSound(s: string)
    requires Decode(s).Some?
    ensures Decode(s).value.Valid() && UniqueName(Decode(s).value) == s
  {
    var p := Decode(s).value;
    var tail := CutDot(s).value.1;
    UniqueNameShape(p);
    assert tail == CutDot(tail).value.0 + "." + CutDot(tail).value.1;
  }

  lemma UniqueNameInjective(p: PolicyId, q: PolicyId)
    requires p.Valid() && q.Valid()
    ensures UniqueName(p) == UniqueName(q) <==> p == q
  {
    DecodeUniqueName(p);
    DecodeUniqueName(q);
  }

  /** A unique name is never the legacy name of any policy. */
  lemma UniqueNeverLegacy(p: PolicyId, q: PolicyId)
    ensures UniqueName(p) != LegacyName(q)
  {
    assert UniqueName(p)[0] == 'k';
    assert LegacyName(q)[0] != 'k';
  }

  // ---- when the legacy encoding collides ----

  /** Two splits of the same text at different dashes: the part between them moves from the name to the namespace. */
  ghost predicate DashShift(ns: string, name: string, ns': string, name': string) {
    exists x: string :: ns' == ns + "-" + x && name == x + "-" + name'
  }

  ghost predicate SameSplit(ns: string, name: string, ns': string, name': string) {
    (ns == ns' && name == name') || DashShift(ns, name, ns', name') || DashShift(ns', name', ns, name)
  }

  lemma SplitAgrees(ns: string, name: string, ns': string, name': string)
    ensures ns + "-" + name == ns' + "-" + name' <==> SameSplit(ns, name, ns', name')
  {
    var a, b := ns + "-" + name, ns' + "-" + name';
    if a == b {
      if |ns| < |ns'| { ShiftFound(ns, name, ns', name'); }
      else if |ns'| < |ns| { ShiftFound(ns', name', ns, name); }
      else {
        assert ns == a[..|ns|] == ns';
        assert name == a[|ns| + 1..] == name';
      }
    }
  }

  lemma ShiftFound(ns: string, name: string, ns': string, name': string)
    requires ns + "-" + name == ns' + "-" + name' && |ns| < |ns'|
    ensures DashShift(ns, name, ns', name')
  {
    var a := ns + "-" + name;
    var x := ns'[|ns| + 1..];
    assert ns' == a[..|ns'|] == ns + "-" + x;
    assert name == a[|ns| + 1..] == x + "-" + name';
  }

  /** The namespace that the legacy encoding of a policy group pretends to have. */
  function LegacyNamespace(p: PolicyId): string
    requires p.Namespaced()
  {
    if p.AdmissionPolicyGroup? then "group-" + p.namespace else p.namespace
  }

  function LegacyClusterName(p: PolicyId): string
    requires !p.Namespaced()
  {
    if p.ClusterAdmissionPolicyGroup? then "group-" + p.name else p.name
  }

  ghost predicate LegacyClash(p: PolicyId, q: PolicyId) {
    && p.Namespaced() == q.Namespaced()
    && if p.Namespaced() then SameSplit(LegacyNamespace(p), p.name, LegacyNamespace(q), q.name)
       else LegacyClusterName(p) == LegacyClusterName(q)
  }

  /** Exactly when two policies share a legacy name. */
  lemma LegacyCollision(p: PolicyId, q: PolicyId)
    ensures LegacyName(p) == LegacyName(q) <==> LegacyClash(p, q)
  {
    LegacyShape(p);
    LegacyShape(q);
    if p.Namespaced() && q.Namespaced() {
      var a, b := LegacyNamespace(p) + "-" + p.name, LegacyNamespace(q) + "-" + q.name;
      assert LegacyName(p)[11..] == a && LegacyName(q)[11..] == b;
      SplitAgrees(LegacyNamespace(p), p.name, LegacyNamespace(q), q.name);
    } else if !p.Namespaced() && !q.Namespaced() {
      assert LegacyName(p)[12..] == LegacyClusterName(p) && LegacyName(q)[12..] == LegacyClusterName(q);
    } else {
      assert LegacyName(p)[0] != LegacyName(q)[0];
    }
  }

  lemma LegacyShape(p: PolicyId)
    ensures p.Namespaced() ==> LegacyName(p) == "namespaced-" + (LegacyNamespace(p) + "-" + p.name)
    ensures !p.Namespaced() ==> LegacyName(p) == "clusterwide-" + LegacyClusterName(p)
  {
    match p
    case AdmissionPolicy(ns, name) => assert "namespaced-" + ns + "-" + name == "namespaced-" + (ns + "-" + name);
    case AdmissionPolicyGroup(ns, name) =>
      assert "namespaced-group-" == "namespaced-" + "group-";
      assert ("namespaced-" + "group-") + ns + "-" + name == "namespaced-" + (("group-" + ns) + "-" + name);
    case ClusterAdmissionPolicy(_) =>
    case ClusterAdmissionPolicyGroup(name) =>
      assert "clusterwide-group-" == "clusterwide-" + "group-";
      assert ("clusterwide-" + "group-") + name == "clusterwide-" + ("group-" + name);
  }

  /** Two valid policies in different namespaces, and two of different kinds, that collide. */
  lemma LegacyCollides()
    ensures LegacyName(AdmissionPolicy("team-a", "prod")) == LegacyName(AdmissionPolicy("team", "a-prod"))
    ensures LegacyName(AdmissionPolicyGroup("team", "prod")) == LegacyName(AdmissionPolicy("group", "team-prod"))
    ensures LegacyName(ClusterAdmissionPolicyGroup("prod")) == LegacyName(ClusterAdmissionPolicy("group-prod"))
  {
    LegacyShape(AdmissionPolicy("team-a", "prod"));
    LegacyShape(AdmissionPolicy("team", "a-prod"));
    LegacyShape(AdmissionPolicyGroup("team", "prod"));
    LegacyShape(AdmissionPolicy("group", "team-prod"));
    LegacyShape(ClusterAdmissionPolicyGroup("prod"));
    LegacyShape(ClusterAdmissionPolicy("group-prod"));
    hide LegacyName;
    assert "team-a" + "-" + "prod" == "team" + "-" + "a-prod";
    assert "group-" + "team" + "-" + "prod" == "group" + "-" + "team-prod";
    assert "group-" + "prod" == "group-prod";
  }
}
