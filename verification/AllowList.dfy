/**
  The allow list of resources for namespaced policies, and why it is sound: a policy that the controller deploys never
  intercepts a request for a resource that no entry of the list names.
 */
module AllowList {
  import opened Options

  /** The fields of an admission rule that matter here. */
  datatype Rule = Rule(apiGroups: seq<string>, resources: seq<string>)

  /** A request as the API server matches it; `subresource` is empty for the resource itself. */
  datatype Request = Request(group: string, resource: string, subresource: string)

  // ---- strings ----

  /** strings.Cut(s, "/"): the text before the first slash and the text after it. */
  function Cut(s: string): (r: (string, string))
    ensures '/' !in r.0
    ensures '/' !in s ==> r == (s, "")
    ensures '/' in s ==> s == r.0 + "/" + r.1
  {
    if s == "" then ("", "")
    else if s[0] == '/' then ("", s[1..])
    else
      var rest := Cut(s[1..]);
      assert [s[0]] + s[1..] == s;
      ([s[0]] + rest.0, rest.1)
  }

  function Parent(resource: string): string {
    Cut(resource).0
  }

  // ---- validating the list ----

  predicate ValidGroup(apiGroup: string) {
    '*' !in apiGroup
  }

  predicate ValidResource(resource: string) {
    resource != "" && '*' !in resource && '/' !in resource
  }

  function Filter(items: seq<string>, keep: string -> bool): (r: seq<string>)
    ensures forall x :: x in r <==> x in items && keep(x)
  {
    if items == [] then []
    else
      var rest := Filter(items[..|items| - 1], keep);
      var last := items[|items| - 1];
      if keep(last) then rest + [last] else rest
  }

  /** The usable part of one entry, or None when no apiGroup or no resource is left. */
  function Usable(entry: Rule): Option<Rule> {
    var groups := Filter(entry.apiGroups, ValidGroup);
    var resources := Filter(entry.resources, ValidResource);
    if groups == [] || resources == [] then None else Some(Rule(groups, resources))
  }

  function UsableEntries(entries: seq<Rule>): seq<Rule> {
    if entries == [] then []
    else
      var rest := UsableEntries(entries[..|entries| - 1]);
      match Usable(entries[|entries| - 1])
      case Some(r) => rest + [r]
      case None => rest
  }

  method ValidateAllowedResources(entries: seq<Rule>) returns (allowed: seq<Rule>)
    ensures allowed == UsableEntries(entries)
  {
    allowed := [];
    for i := 0 to |entries|
      invariant allowed == UsableEntries(entries[..i])
    {
      var entry := entries[i];
      assert entries[..i + 1][..i] == entries[..i];
      var groups: seq<string> := [];
      for j := 0 to |entry.apiGroups|
        invariant groups == Filter(entry.apiGroups[..j], ValidGroup)
      {
        assert entry.apiGroups[..j + 1][..j] == entry.apiGroups[..j];
        if '*' in entry.apiGroups[j] { continue; }
        groups := groups + [entry.apiGroups[j]];
      }
      assert entry.apiGroups[..|entry.apiGroups|] == entry.apiGroups;
      var resources: seq<string> := [];
      for j := 0 to |entry.resources|
        invariant resources == Filter(entry.resources[..j], ValidResource)
      {
        assert entry.resources[..j + 1][..j] == entry.resources[..j];
        if entry.resources[j] == "" || '*' in entry.resources[j] || '/' in entry.resources[j] { continue; }
        resources := resources + [entry.resources[j]];
      }
      assert entry.resources[..|entry.resources|] == entry.resources;
      if |groups| == 0 || |resources| == 0 { continue; }
      allowed := allowed + [Rule(groups, resources)];
    }
    assert entries[..|entries|] == entries;
  }

  // ---- judging a policy ----

  predicate Lists(allowed: seq<Rule>, group: string, resource: string) {
    exists i :: 0 <= i < |allowed| && group in allowed[i].apiGroups && resource in allowed[i].resources
  }

  predicate Allows(allowed: seq<Rule>, group: string, resource: string) {
    '*' !in group && Parent(resource) != "" && '*' !in Parent(resource) && Lists(allowed, group, Parent(resource))
  }

  /** The name that kubectl gives to a resource: "resource.group", or plain "resource" in the core group. */
  function Render(group: string, resource: string): string {
    if group == "" then resource else resource + "." + group
  }

  /** A pair that some rule selects and the list does not allow. */
  ghost predicate Offends(allowed: seq<Rule>, rules: seq<Rule>, group: string, resource: string) {
    (exists i :: 0 <= i < |rules| && group in rules[i].apiGroups && resource in rules[i].resources)
    && !Allows(allowed, group, resource)
  }

  // ---- sorting ----

  /** The order of strings in Go: byte by byte, here code point by code point. */
  predicate Less(a: string, b: string) {
    if b == "" then false
    else if a == "" then true
    else if a[0] != b[0] then a[0] < b[0]
    else Less(a[1..], b[1..])
  }

  lemma {:induction false} LessTrans(a: string, b: string, c: string)
    requires Less(a, b) && Less(b, c)
    ensures Less(a, c)
  {
    if a != "" && a[0] == b[0] && b[0] == c[0] { LessTrans(a[1..], b[1..], c[1..]); }
  }

  /** The first place at which two strings differ. */
  ghost predicate FirstDiffers(a: string, b: string, i: int) {
    0 <= i < |a| && i < |b| && a[i] != b[i] && forall j :: 0 <= j < i ==> a[j] == b[j]
  }

  lemma DiffersLater(a: string, b: string, i: nat)
    requires a != "" && b != "" && a[0] == b[0]
    ensures FirstDiffers(a, b, i + 1) <==> FirstDiffers(a[1..], b[1..], i)
  {
    if FirstDiffers(a[1..], b[1..], i) {
      forall j | 0 <= j < i + 1 ensures a[j] == b[j] {
        if j > 0 { assert a[j] == a[1..][j - 1] && b[j] == b[1..][j - 1]; }
      }
    }
    if FirstDiffers(a, b, i + 1) {
      forall j | 0 <= j < i ensures a[1..][j] == b[1..][j] { assert a[j + 1] == b[j + 1]; }
    }
  }

  /** One string comes before another if it is a proper prefix, or has the smaller character where they first differ. */
  lemma {:induction false} LessMeans(a: string, b: string)
    ensures Less(a, b) <==> a < b || exists i :: FirstDiffers(a, b, i) && a[i] < b[i]
  {
    if a != "" && b != "" {
      if a[0] == b[0] {
        LessMeans(a[1..], b[1..]);
        PrefixLater(a, b);
        hide FirstDiffers;
        if i :| FirstDiffers(a[1..], b[1..], i) && a[1..][i] < b[1..][i] { DiffersAt(a[1..], b[1..], i); DiffersLater(a,
            b, i); }
        if i :| FirstDiffers(a, b, i) && a[i] < b[i] { DiffersAt(a, b, i); DiffersLater(a, b, i - 1); }
      } else {
        assert FirstDiffers(a, b, 0);
      }
    }
  }

  lemma DiffersAt(a: string, b: string, i: int)
    requires FirstDiffers(a, b, i)
    ensures 0 <= i < |a| && i < |b| && a[i] != b[i]
  {
  }

  lemma PrefixLater(a: string, b: string)
    requires a != "" && b != "" && a[0] == b[0]
    ensures a < b <==> a[1..] < b[1..]
  {
    assert a == [a[0]] + a[1..] && b == [b[0]] + b[1..];
  }

  lemma {:induction false} LessTotal(a: string, b: string)
    ensures Less(a, b) || a == b || Less(b, a)
  {
    if a != "" && b != "" && a[0] == b[0] {
      LessTotal(a[1..], b[1..]);
      assert a == [a[0]] + a[1..] && b == [b[0]] + b[1..];
    }
  }

  lemma {:induction false} LessIrreflexive(a: string)
    ensures !Less(a, a)
  {
    if a != "" { LessIrreflexive(a[1..]); }
  }

  predicate StrictlySorted(q: seq<string>) {
    forall i, j :: 0 <= i < j < |q| ==> Less(q[i], q[j])
  }

  /** Put `x` in its place, unless it is there already. */
  function Insert(q: seq<string>, x: string): seq<string> {
    if q == [] then [x]
    else if x == q[0] then q
    else if Less(x, q[0]) then [x] + q
    else [q[0]] + Insert(q[1..], x)
  }

  lemma {:induction false} InsertSorted(q: seq<string>, x: string)
    requires StrictlySorted(q)
    ensures StrictlySorted(Insert(q, x))
    ensures forall y :: y in Insert(q, x) <==> y in q || y == x
  {
    if q != [] && x != q[0] {
      if Less(x, q[0]) {
        forall j | 0 <= j < |q| ensures Less(x, q[j]) {
          if j > 0 { LessTrans(x, q[0], q[j]); }
        }
      } else {
        LessTotal(x, q[0]);
        InsertSorted(q[1..], x);
        var rest := Insert(q[1..], x);
        forall j | 0 <= j < |rest| ensures Less(q[0], rest[j]) {
          assert rest[j] in rest;
          if rest[j] != x {
            var k :| 0 <= k < |q[1..]| && q[1..][k] == rest[j];
            assert q[k + 1] == rest[j];
          }
        }
      }
    }
  }

  /** slices.Sort followed by slices.Compact: the one strictly sorted list of these elements. */
  method SortCompact(q: seq<string>) returns (r: seq<string>)
    ensures StrictlySorted(r)
    ensures forall x :: x in r <==> x in q
    ensures forall p :: StrictlySorted(p) && (forall x :: x in p <==> x in q) ==> p == r
  {
    r := [];
    for i := 0 to |q|
      invariant StrictlySorted(r)
      invariant forall x :: x in r <==> x in q[..i]
    {
      InsertSorted(r, q[i]);
      r := Insert(r, q[i]);
      assert q[..i + 1] == q[..i] + [q[i]];
    }
    assert q[..|q|] == q;
    forall p | StrictlySorted(p) && forall x :: x in p <==> x in q ensures p == r { SortedUnique(p, r); }
  }

  /** A strictly sorted list is determined by its elements. */
  lemma {:induction false} SortedUnique(a: seq<string>, b: seq<string>)
    requires StrictlySorted(a) && StrictlySorted(b) && forall x :: x in a <==> x in b
    ensures a == b
  {
    assert (a != [] ==> a[0] in b) && (b != [] ==> b[0] in a);
    if a != [] && b != [] {
      HeadLeast(a, b);
      HeadLeast(b, a);
      assert a[0] == b[0] by {
        if a[0] != b[0] { LessTrans(a[0], b[0], a[0]); LessIrreflexive(a[0]); }
      }
      LessIrreflexive(a[0]);
      forall x ensures x in a[1..] <==> x in b[1..] {
        TailElements(a, x);
        TailElements(b, x);
      }
      SortedUnique(a[1..], b[1..]);
      assert a == [a[0]] + a[1..] && b == [b[0]] + b[1..];
    }
  }

  lemma HeadLeast(a: seq<string>, b: seq<string>)
    requires a != [] && b != [] && StrictlySorted(a) && forall x :: x in b ==> x in a
    ensures a[0] == b[0] || Less(a[0], b[0])
  {
    assert b[0] in a;
  }

  lemma TailElements(a: seq<string>, x: string)
    requires a != [] && StrictlySorted(a) && !Less(a[0], a[0])
    ensures x in a[1..] <==> x in a && x != a[0]
  {
    if x in a[1..] {
      var k :| 0 <= k < |a[1..]| && a[1..][k] == x;
      assert a[k + 1] == x;
    }
    if x in a && x != a[0] {
      var k :| 0 <= k < |a| && a[k] == x;
      assert a[1..][k - 1] == x;
    }
  }

  // ---- disallowedTargets ----

  /** The renderings of the offending pairs of one rule. */
  ghost function RuleTargets(allowed: seq<Rule>, rule: Rule): set<string> {
    set g, r | g in rule.apiGroups && r in rule.resources && !Allows(allowed, g, r) :: Render(g, r)
  }

  ghost function Targets(allowed: seq<Rule>, rules: seq<Rule>): set<string> {
    if rules == [] then {} else Targets(allowed, rules[..|rules| - 1]) + RuleTargets(allowed, rules[|rules| - 1])
  }

  method CollectRule(allowed: seq<Rule>, rule: Rule) returns (found: seq<string>)
    ensures (set x | x in found) == RuleTargets(allowed, rule)
  {
    hide Allows, Render;
    found := [];
    var groups, resources := rule.apiGroups, rule.resources;
    for i := 0 to |groups|
      invariant (set x | x in found) == RuleTargets(allowed, Rule(groups[..i], resources))
    {
      ghost var before := RuleTargets(allowed, Rule(groups[..i], resources));
      for j := 0 to |resources|
        invariant (set x | x in found) == before + RuleTargets(allowed, Rule([groups[i]], resources[..j]))
      {
        assert resources[..j + 1] == resources[..j] + [resources[j]];
        RuleSplit(allowed, [groups[i]], resources[..j], resources[j]);
        if Allows(allowed, groups[i], resources[j]) { continue; }
        ghost var sofar := found;
        found := found + [Render(groups[i], resources[j])];
        assert (set x | x in found) == (set x | x in sofar) + {Render(groups[i], resources[j])};
      }
      assert resources[..|resources|] == resources;
      assert groups[..i + 1] == groups[..i] + [groups[i]];
      assert RuleTargets(allowed, Rule(groups[..i + 1], resources)) ==
             before + RuleTargets(allowed, Rule([groups[i]], resources));
    }
    assert groups[..|groups|] == groups;
  }

  lemma RuleSplit(allowed: seq<Rule>, group: seq<string>, resources: seq<string>, r: string)
    requires |group| == 1
    ensures RuleTargets(allowed, Rule(group, resources + [r])) ==
            RuleTargets(allowed, Rule(group, resources)) +
            if Allows(allowed, group[0], r) then {} else {Render(group[0], r)}
  {
    hide Allows, Render;
  }

  ghost predicate ListsOffenders(p: seq<string>, allowed: seq<Rule>, rules: seq<Rule>) {
    StrictlySorted(p) && forall x :: x in p <==> exists g, r :: Offends(allowed, rules, g, r) && Render(g, r) == x
  }

  /** The result is determined by the offending pairs: the order of rules, groups and resources does not matter. */
  method DisallowedTargets(allowed: seq<Rule>, rules: seq<Rule>) returns (disallowed: seq<string>)
    ensures StrictlySorted(disallowed)
    ensures forall x :: x in disallowed <==> exists g, r :: Offends(allowed, rules, g, r) && Render(g, r) == x
    ensures forall p :: ListsOffenders(p, allowed, rules) ==> p == disallowed
  {
    hide Allows, Render, Less;
    var found: seq<string> := [];
    for i := 0 to |rules|
      invariant (set x | x in found) == Targets(allowed, rules[..i])
    {
      var more := CollectRule(allowed, rules[i]);
      found := found + more;
      assert rules[..i + 1][..i] == rules[..i];
    }
    assert rules[..|rules|] == rules;
    disallowed := SortCompact(found);
    forall x ensures x in disallowed <==> exists g, r :: Offends(allowed, rules, g, r) && Render(g, r) == x {
      TargetsExact(allowed, rules, x);
    }
    forall p | ListsOffenders(p, allowed, rules) ensures p == disallowed {
      SortedUnique(p, disallowed);
    }
  }

  lemma {:induction false} TargetsExact(allowed: seq<Rule>, rules: seq<Rule>, x: string)
    ensures x in Targets(allowed, rules) <==> exists g, r :: Offends(allowed, rules, g, r) && Render(g, r) == x
  {
    hide Allows, Render;
    if rules != [] {
      var init, last := rules[..|rules| - 1], rules[|rules| - 1];
      TargetsExact(allowed, init, x);
      if x in Targets(allowed, init) {
        var g, r :| Offends(allowed, init, g, r) && Render(g, r) == x;
        var i :| 0 <= i < |init| && g in init[i].apiGroups && r in init[i].resources;
        assert rules[i] == init[i];
        assert Offends(allowed, rules, g, r);
      } else if x in RuleTargets(allowed, last) {
        var g, r :| g in last.apiGroups && r in last.resources && !Allows(allowed, g, r) && Render(g, r) == x;
        assert Offends(allowed, rules, g, r);
      }
      if g, r :| Offends(allowed, rules, g, r) && Render(g, r) == x {
        var i :| 0 <= i < |rules| && g in rules[i].apiGroups && r in rules[i].resources;
        if i < |init| {
          assert init[i] == rules[i];
          assert Offends(allowed, init, g, r);
        }
      }
    }
  }

  // ---- soundness ----

  /** Kubernetes matches a rule: the group and the resource are equal or "*", and so is the subresource, which is empty
      in a rule without a slash. */
  predicate Matches(rule: Rule, req: Request) {
    && (exists g :: g in rule.apiGroups && (g == "*" || g == req.group))
    && exists r :: r in rule.resources && MatchesResource(r, req)
  }

  predicate MatchesResource(resource: string, req: Request) {
    && (Cut(resource).0 == "*" || Cut(resource).0 == req.resource)
    && (Cut(resource).1 == "*" || Cut(resource).1 == req.subresource)
  }

  ghost predicate SomeMatch(rules: seq<Rule>, req: Request) {
    exists i :: 0 <= i < |rules| && Matches(rules[i], req)
  }

  /** What survives validation: literal groups and literal resources of one raw entry. */
  lemma {:induction false} UsableLists(raw: seq<Rule>, group: string, resource: string)
    ensures Lists(UsableEntries(raw), group, resource) <==>
            && Lists(raw, group, resource) && '*' !in group
            && resource != "" && '*' !in resource && '/' !in resource
  {
    assert forall g :: ValidGroup(g) <==> '*' !in g;
    assert forall r :: ValidResource(r) <==> r != "" && '*' !in r && '/' !in r;
    hide ValidGroup, ValidResource;
    if raw != [] {
      var init, last := raw[..|raw| - 1], raw[|raw| - 1];
      UsableLists(init, group, resource);
      ListsLast(raw, group, resource);
      if Usable(last).Some? {
        ListsLast(UsableEntries(init) + [Usable(last).value], group, resource);
        assert (UsableEntries(init) + [Usable(last).value])[..|UsableEntries(init)|] == UsableEntries(init);
      }
    }
  }

  lemma ListsLast(entries: seq<Rule>, group: string, resource: string)
    requires entries != []
    ensures Lists(entries, group, resource) <==>
            || Lists(entries[..|entries| - 1], group, resource)
            || (group in entries[|entries| - 1].apiGroups && resource in entries[|entries| - 1].resources)
  {
    var init := entries[..|entries| - 1];
    if i :| 0 <= i < |init| && group in init[i].apiGroups && resource in init[i].resources {
      assert entries[i] == init[i];
    }
    if i :| 0 <= i < |entries| && group in entries[i].apiGroups && resource in entries[i].resources {
      if i < |init| { assert init[i] == entries[i]; }
    }
  }

  /** A rule without offending pairs matches only requests that the raw list names literally. */
  lemma RuleSound(raw: seq<Rule>, rule: Rule, req: Request)
    requires forall g, r :: g in rule.apiGroups && r in rule.resources ==> Allows(UsableEntries(raw), g, r)
    requires Matches(rule, req)
    ensures Lists(raw, req.group, req.resource)
  {
    var g :| g in rule.apiGroups && (g == "*" || g == req.group);
    var r :| r in rule.resources && MatchesResource(r, req);
    assert Allows(UsableEntries(raw), g, r);
    UsableLists(raw, g, Parent(r));
  }

  /** One raw entry names this group and this resource without a wildcard; a subresource goes with its resource. */
  ghost predicate NamedIn(raw: seq<Rule>, group: string, resource: string) {
    && '*' !in group
    && exists parent, i ::
         && 0 <= i < |raw| && group in raw[i].apiGroups && parent in raw[i].resources
         && parent != "" && '*' !in parent && '/' !in parent && (resource == parent || parent + "/" <= resource)
  }

  lemma AllowsIsNamed(raw: seq<Rule>, group: string, resource: string)
    ensures Allows(UsableEntries(raw), group, resource) <==> NamedIn(raw, group, resource)
  {
    hide UsableEntries;
    var parent := Parent(resource);
    UsableLists(raw, group, parent);
    if Allows(UsableEntries(raw), group, resource) {
      var i :| 0 <= i < |raw| && group in raw[i].apiGroups && parent in raw[i].resources;
      assert resource == parent || parent + "/" <= resource;
    }
    if p, i :| 0 <= i < |raw| && group in raw[i].apiGroups && p in raw[i].resources &&
               p != "" && '*' !in p && '/' !in p && (resource == p || p + "/" <= resource) {
      SameParent(resource, p);
    }
  }

  /** Some rule selects this pair. */
  ghost predicate Selects(rules: seq<Rule>, i: int, group: string, resource: string) {
    0 <= i < |rules| && group in rules[i].apiGroups && resource in rules[i].resources
  }

  /** The pair is not named, and this is how it is reported: a resource of the core group by its plain name. */
  ghost predicate Rejected(raw: seq<Rule>, group: string, resource: string, x: string) {
    !NamedIn(raw, group, resource) && x == if group == "" then resource else resource + "." + group
  }

  lemma OffendersAreRejected(raw: seq<Rule>, rules: seq<Rule>, x: string)
    ensures (exists g, r :: Offends(UsableEntries(raw), rules, g, r) && Render(g, r) == x) <==>
            exists i, g, r :: Selects(rules, i, g, r) && Rejected(raw, g, r, x)
  {
    hide UsableEntries, Allows, NamedIn;
    if g, r :| Offends(UsableEntries(raw), rules, g, r) && Render(g, r) == x {
      AllowsIsNamed(raw, g, r);
      var i :| 0 <= i < |rules| && g in rules[i].apiGroups && r in rules[i].resources;
      assert Selects(rules, i, g, r) && Rejected(raw, g, r, x);
    }
    if i, g, r :| Selects(rules, i, g, r) && Rejected(raw, g, r, x) {
      AllowsIsNamed(raw, g, r);
      assert Offends(UsableEntries(raw), rules, g, r) && Render(g, r) == x;
    }
  }

  lemma NoneOffends(raw: seq<Rule>, rules: seq<Rule>)
    ensures (forall g, r :: !Offends(UsableEntries(raw), rules, g, r)) <==>
            forall i, g, r :: Selects(rules, i, g, r) ==> NamedIn(raw, g, r)
  {
    hide UsableEntries, Allows, NamedIn;
    if i, g, r :| Selects(rules, i, g, r) && !NamedIn(raw, g, r) {
      AllowsIsNamed(raw, g, r);
      assert Offends(UsableEntries(raw), rules, g, r);
    }
    if g, r :| Offends(UsableEntries(raw), rules, g, r) {
      AllowsIsNamed(raw, g, r);
      var i :| 0 <= i < |rules| && g in rules[i].apiGroups && r in rules[i].resources;
      assert Selects(rules, i, g, r);
    }
  }

  lemma {:induction false} SameParent(resource: string, p: string)
    requires '/' !in p && (resource == p || p + "/" <= resource)
    ensures Parent(resource) == p
  {
    if p != "" {
      assert resource[0] == p[0];
      assert (p + "/")[1..] == p[1..] + "/";
      SameParent(resource[1..], p[1..]);
      assert p == [p[0]] + p[1..];
    }
  }

  /** isNamespacedPolicyAllowed. `raw` is the list as the administrator wrote it; `namespace` is empty for a
      cluster-wide policy. */
  method IsNamespacedPolicyAllowed(namespace: string, rules: seq<Rule>, raw: seq<Rule>)
    returns (ok: bool, disallowed: seq<string>)
    ensures ok <==> namespace == "" || forall g, r :: !Offends(UsableEntries(raw), rules, g, r)
    ensures ok <==> namespace == "" || forall i, g, r :: Selects(rules, i, g, r) ==> NamedIn(raw, g, r)
    // sound: every request that an allowed namespaced policy intercepts is for a resource that the list names
    ensures ok && namespace != "" ==> forall req :: SomeMatch(rules, req) ==> Lists(raw, req.group, req.resource)
    // the rejected targets are exactly the offending pairs, in order and without duplicates
    ensures StrictlySorted(disallowed)
    ensures namespace != "" ==>
              forall x :: x in disallowed <==>
                            exists g, r :: Offends(UsableEntries(raw), rules, g, r) && Render(g, r) == x
    ensures namespace != "" ==>
              forall x :: x in disallowed <==> exists i, g, r :: Selects(rules, i, g, r) && Rejected(raw, g, r, x)
  {
    if namespace == "" { return true, []; }
    var allowed := ValidateAllowedResources(raw);
    disallowed := DisallowedTargets(allowed, rules);
    ok := |disallowed| == 0;
    forall x ensures x in disallowed <==> exists i, g, r :: Selects(rules, i, g, r) && Rejected(raw, g, r, x) {
      OffendersAreRejected(raw, rules, x);
    }
    NoneOffends(raw, rules);
    if !ok {
      assert disallowed[0] in disallowed;
    } else {
      forall g, r ensures !Offends(allowed, rules, g, r) {
        assert Render(g, r) !in disallowed;
      }
      forall req | SomeMatch(rules, req) ensures Lists(raw, req.group, req.resource) {
        var i :| 0 <= i < |rules| && Matches(rules[i], req);
        forall g, r | g in rules[i].apiGroups && r in rules[i].resources ensures Allows(allowed, g, r) {
          assert !Offends(allowed, rules, g, r);
        }
        RuleSound(raw, rules[i], req);
      }
    }
  }
}
