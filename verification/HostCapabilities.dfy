/**
  The policy server's allow list of host capabilities, built from the same patterns that the Go validator admits. The
  builder is laxer than the validator, yet on every list it accepts, matching by string prefix allows exactly the
  capabilities that some pattern denotes.
 */
module HostCapabilities {
  import opened Options
  import opened Text
  import opened CapabilityPatterns

  // ---- strings ----

  /** The characters that str::trim removes: those with the Unicode property White_Space. */
  predicate IsSpace(c: char) {
    var n := c as int;
    || 0x9 <= n <= 0xD || n == 0x20 || n == 0x85 || n == 0xA0 || n == 0x1680
    || 0x2000 <= n <= 0x200A || n == 0x2028 || n == 0x2029 || n == 0x202F || n == 0x205F || n == 0x3000
  }

  /** All 25 of them. */
  lemma SpacesAre(c: char)
    ensures IsSpace(c) <==>
              c as int in [0x9, 0xA, 0xB, 0xC, 0xD, 0x20, 0x85, 0xA0, 0x1680, 0x2000, 0x2001, 0x2002, 0x2003, 0x2004,
                           0x2005, 0x2006, 0x2007, 0x2008, 0x2009, 0x200A, 0x2028, 0x2029, 0x202F, 0x205F, 0x3000]
  {
  }

  /** No segment of the tree holds white space. */
  predicate NoBlanks(node: Node) {
    node.Interior? ==>
      forall k :: k in node.children ==> (forall c :: c in k ==> !IsSpace(c)) && NoBlanks(node.children[k])
  }

  lemma {:induction false} WalkNoBlanks(node: Node, path: seq<string>)
    requires NoBlanks(node) && Walk(node, path).Some?
    ensures forall i, c :: 0 <= i < |path| && c in path[i] ==> !IsSpace(c)
  {
    hide IsSpace;
    if path != [] {
      WalkNoBlanks(node.children[path[0]], path[1..]);
      forall i, c | 0 <= i < |path| && c in path[i] ensures !IsSpace(c) {
        if i > 0 { assert path[i] == path[1..][i - 1]; }
      }
    }
  }

  function TrimLeft(s: string): (t: string)
    ensures |t| <= |s|
  {
    if s != "" && IsSpace(s[0]) then TrimLeft(s[1..]) else s
  }

  function TrimRight(s: string): (t: string)
    ensures |t| <= |s|
  {
    if s != "" && IsSpace(s[|s| - 1]) then TrimRight(s[..|s| - 1]) else s
  }

  function Trim(s: string): string {
    TrimRight(TrimLeft(s))
  }

  ghost predicate Blank(s: string) {
    forall c :: c in s ==> IsSpace(c)
  }

  lemma {:induction false} TrimLeftMeans(s: string) returns (before: string)
    ensures s == before + TrimLeft(s) && Blank(before) && (TrimLeft(s) != "" ==> !IsSpace(TrimLeft(s)[0]))
  {
    hide IsSpace;
    before := "";
    if s != "" && IsSpace(s[0]) {
      before := TrimLeftMeans(s[1..]);
      before := [s[0]] + before;
      assert s == [s[0]] + s[1..];
    }
  }

  lemma {:induction false} TrimRightMeans(s: string) returns (after: string)
    ensures s == TrimRight(s) + after && Blank(after)
    ensures TrimRight(s) != "" ==> !IsSpace(TrimRight(s)[|TrimRight(s)| - 1])
  {
    hide IsSpace;
    after := "";
    if s != "" && IsSpace(s[|s| - 1]) {
      after := TrimRightMeans(s[..|s| - 1]);
      after := after + [s[|s| - 1]];
      assert s == s[..|s| - 1] + [s[|s| - 1]];
    }
  }

  /** Trimming takes all white space off both ends, and nothing else. */
  lemma TrimMeans(s: string) returns (before: string, after: string)
    ensures s == before + Trim(s) + after && Blank(before) && Blank(after)
    ensures Trim(s) != "" ==> !IsSpace(Trim(s)[0]) && !IsSpace(Trim(s)[|Trim(s)| - 1])
  {
    hide IsSpace, TrimLeft, TrimRight;
    before := TrimLeftMeans(s);
    after := TrimRightMeans(TrimLeft(s));
    assert Trim(s) != "" ==> Trim(s)[0] == TrimLeft(s)[0];
  }

  predicate EndsWithWildcard(s: string) {
    |s| >= 2 && s[|s| - 2] == '/' && s[|s| - 1] == '*'
  }

  lemma {:induction false} JoinPlain(path: seq<string>)
    requires path != [] && forall i :: 0 <= i < |path| ==> GoodSegment(path[i])
    ensures Join('/', path) != "" && '*' !in Join('/', path)
  {
    if |path| > 1 { JoinPlain(path[1..]); }
  }

  lemma {:induction false} JoinNoBlanks(path: seq<string>)
    requires path != [] && forall i, c :: 0 <= i < |path| && c in path[i] ==> !IsSpace(c)
    ensures forall c :: c in Join('/', path) ==> !IsSpace(c)
  {
    assert !IsSpace('/');
    hide IsSpace;
    if |path| > 1 { JoinNoBlanks(path[1..]); }
  }

  // ---- what a pattern denotes ----

  /** `*` denotes every capability, a path denotes itself, and a group followed by a wildcard every capability
      below it. */
  ghost predicate Covers(pattern: string, path: seq<string>) {
    path != [] && (pattern == "*" || pattern == Join('/', path) || exists group :: Below(pattern, group, path))
  }

  ghost predicate Below(pattern: string, group: seq<string>, path: seq<string>) {
    group != [] && group < path && pattern == Join('/', group) + "/*"
  }

  /** Matching by string prefix is containment in the tree: no capability is caught by a shared beginning of a name. */
  lemma WildcardCovers(root: Node, stem: string, path: seq<string>)
    requires GoodTree(root) && IsCapability(root, path)
    ensures stem + "/" <= Join('/', path) <==> Covers(stem + "/*", path)
  {
    hide Walk, Split, Join;
    WalkGood(root, path);
    JoinPlain(path);
    SplitJoin('/', path);
    var pattern := stem + "/*";
    assert pattern[|stem| + 1] == '*' && pattern[..|stem|] == stem;
    if stem + "/" <= Join('/', path) {
      var rest := Join('/', path)[|stem| + 1..];
      assert Join('/', path) == stem + "/" + rest;
      SplitConcat('/', stem, rest);
      JoinSplit('/', stem);
      assert Below(pattern, Split('/', stem), path);
    }
    if group :| Below(pattern, group, path) {
      assert stem == Join('/', group) by { assert (Join('/', group) + "/*")[..|Join('/', group)|] == Join('/', group); }
      var rest := path[|group|..];
      assert path == group + rest;
      JoinConcat('/', group, rest);
    }
  }

  lemma ExactCovers(pattern: string, path: seq<string>)
    requires path != [] && '*' !in pattern
    ensures Covers(pattern, path) <==> pattern == Join('/', path)
  {
    hide Join;
    forall group: seq<string> | group != [] ensures '*' in Join('/', group) + "/*" {
      assert (Join('/', group) + "/*")[|Join('/', group)| + 1] == '*';
    }
  }

  // ---- validate_against_tree ----

  /** A wildcard part right below an interior node, at the end of the pattern or not. */
  ghost predicate WildcardAt(root: Node, parts: seq<string>, i: int) {
    && 0 <= i < |parts| && parts[i] == "*"
    && Walk(root, parts[..i]).Some? && Walk(root, parts[..i]).value.Interior?
  }

  ghost predicate LaxlyValid(root: Node, parts: seq<string>) {
    IsCapability(root, parts) || exists i :: WildcardAt(root, parts, i)
  }

  /** Up to its first wildcard, a laxly valid pattern follows the tree. */
  lemma LaxForced(root: Node, parts: seq<string>, i: nat)
    requires GoodTree(root) && LaxlyValid(root, parts) && i < |parts|
    requires forall j :: 0 <= j <= i ==> parts[j] != "*"
    ensures Walk(root, parts[..i + 1]).Some?
    ensures i < |parts| - 1 ==> Walk(root, parts[..i + 1]).value.Interior?
    ensures i == |parts| - 1 ==> Walk(root, parts[..i + 1]).value.Leaf?
  {
    if IsCapability(root, parts) {
      WalkPrefix(root, parts, i + 1);
      assert parts[..|parts|] == parts;
    } else {
      var k :| WildcardAt(root, parts, k);
      WalkPrefix(root, parts[..k], i + 1);
      assert parts[..k][..i + 1] == parts[..i + 1];
    }
  }

  method ValidateAgainstTree(root: Node, pattern: string) returns (ok: bool)
    requires GoodTree(root) && root.Interior?
    ensures ok <==> LaxlyValid(root, Split('/', pattern))
  {
    hide Walk, GoodTree, Split;
    var parts := Split('/', pattern);
    var node := root;
    WalkEmpty(root);
    for i := 0 to |parts|
      invariant Walk(root, parts[..i]) == Some(node) && node.Interior? && i < |parts|
      invariant forall j :: 0 <= j < i ==> parts[j] != "*"
    {
      var part := parts[i];
      if part == "*" {
        assert WildcardAt(root, parts, i);
        return true;
      }
      assert parts[..i + 1] == parts[..i] + [part];
      WalkAppend(root, parts[..i], part);
      if LaxlyValid(root, parts) { LaxForced(root, parts, i); }
      if part !in node.children { return false; }
      assert i == |parts| - 1 ==> parts[..i + 1] == parts;
      match node.children[part]
      case Leaf => return i == |parts| - 1;
      case Interior(_) =>
        if i == |parts| - 1 { return false; }
        node := node.children[part];
    }
    assert false;
  }

  /** Every pattern the Go validator admits is valid here; a laxly valid one that it rejects goes on after a
      wildcard. */
  lemma LaxerThanValidator(root: Node, parts: seq<string>)
    requires GoodTree(root) && parts != ["*"]
    ensures PartsName(root, parts) ==> LaxlyValid(root, parts)
    ensures LaxlyValid(root, parts) && !PartsName(root, parts) <==>
            exists i :: WildcardAt(root, parts, i) && i < |parts| - 1
  {
    hide Walk, GoodTree;
    if PartsName(root, parts) && !IsCapability(root, parts) {
      assert WildcardAt(root, parts, |parts| - 1);
    }
    if i :| WildcardAt(root, parts, i) && i < |parts| - 1 && PartsName(root, parts) {
      PartsForced(root, parts, i);
    }
  }

  // ---- the allow list ----

  datatype HostCapabilities = DenyAll | AllowAll | Patterns(prefixes: set<string>, exact: set<string>)

  datatype Parsed = Ok(list: HostCapabilities) | Err(index: nat)

  predicate IsAllowed(list: HostCapabilities, capability: string) {
    match list
    case AllowAll => true
    case DenyAll => false
    case Patterns(prefixes, exact) => capability in exact || exists p :: p in prefixes && p <= capability
  }

  /** What HostCapabilities::new demands of one trimmed pattern. */
  ghost predicate Parsable(root: Node, pattern: string) {
    || pattern == "*"
    || (pattern != "" && ('*' in pattern ==> EndsWithWildcard(pattern)) && LaxlyValid(root, Split('/', pattern)))
  }

  ghost predicate Means(list: HostCapabilities, patterns: seq<string>, path: seq<string>) {
    && path != []
    && (IsAllowed(list, Join('/', path)) <==> exists i :: 0 <= i < |patterns| && Covers(Trim(patterns[i]), path))
  }

  /** One more pattern adds what it denotes. */
  lemma AddPattern(root: Node, prefixes: set<string>, exact: set<string>, done: seq<string>, next: string,
                   path: seq<string>)
    requires GoodTree(root) && IsCapability(root, path)
    requires var t := Trim(next); t != "*" && ('*' in t ==> EndsWithWildcard(t))
    requires Means(Patterns(prefixes, exact), done, path)
    ensures var t := Trim(next);
            Means(if '*' in t then Patterns(prefixes + {t[..|t| - 1]}, exact) else Patterns(prefixes, exact + {t}),
                  done + [next], path)
  {
    hide GoodTree, IsCapability, Trim, Covers, Join;
    var t := Trim(next);
    var all := done + [next];
    var grown := if '*' in t then Patterns(prefixes + {t[..|t| - 1]}, exact) else Patterns(prefixes, exact + {t});
    assert IsAllowed(grown, Join('/', path)) <==>
             IsAllowed(Patterns(prefixes, exact), Join('/', path)) || Covers(t, path) by {
      if '*' in t {
        assert t == t[..|t| - 2] + "/*" && t[..|t| - 1] == t[..|t| - 2] + "/";
        WildcardCovers(root, t[..|t| - 2], path);
      } else {
        ExactCovers(t, path);
      }
    }
    assert all[|done|] == next && forall i :: 0 <= i < |done| ==> all[i] == done[i];
  }

  /**
    Parsing stops with AllowAll at the first `*`, and otherwise succeeds exactly when every pattern is parsable. A
    parsed list allows exactly the capabilities its patterns denote.
   */
  method New(root: Node, patterns: seq<string>) returns (r: Parsed)
    requires GoodTree(root) && root.Interior?
    ensures r.Ok? ==> forall path :: IsCapability(root, path) ==> Means(r.list, patterns, path)
    ensures r.Err? ==> r.index < |patterns| && !Parsable(root, Trim(patterns[r.index]))
    ensures forall j :: 0 <= j < |patterns| && (r.Ok? ==> !r.list.AllowAll?) && (r.Err? ==> j < r.index) ==>
              Trim(patterns[j]) != "*" && Parsable(root, Trim(patterns[j]))
    ensures r.Ok? && r.list.DenyAll? <==> patterns == []
    ensures r.Ok? && r.list.AllowAll? <==>
            exists i :: 0 <= i < |patterns| && Trim(patterns[i]) == "*" &&
                        forall j :: 0 <= j < i ==> Parsable(root, Trim(patterns[j]))
  {
    hide Trim, GoodTree, IsCapability, Covers, Join, LaxlyValid, Split, Means;
    var prefixes, exact := {}, {};
    NothingDenoted(root);
    for i := 0 to |patterns|
      invariant forall path :: IsCapability(root, path) ==> Means(Patterns(prefixes, exact), patterns[..i], path)
      invariant forall j :: 0 <= j < i ==> Trim(patterns[j]) != "*" && Parsable(root, Trim(patterns[j]))
      invariant i > 0 <==> prefixes != {} || exact != {}
    {
      var trimmed := Trim(patterns[i]);
      if trimmed == "" { return Err(i); }
      if trimmed == "*" {
        StarCovers(root, patterns, i);
        return Ok(AllowAll);
      }
      if '*' in trimmed && !EndsWithWildcard(trimmed) { return Err(i); }
      var valid := ValidateAgainstTree(root, trimmed);
      if !valid { return Err(i); }
      assert patterns[..i + 1] == patterns[..i] + [patterns[i]];
      forall path | IsCapability(root, path)
        ensures Means(if '*' in trimmed then Patterns(prefixes + {trimmed[..|trimmed| - 1]}, exact)
                      else Patterns(prefixes, exact + {trimmed}), patterns[..i + 1], path)
      {
        AddPattern(root, prefixes, exact, patterns[..i], patterns[i], path);
      }
      if '*' in trimmed {
        prefixes := prefixes + {trimmed[..|trimmed| - 1]};
      } else {
        exact := exact + {trimmed};
      }
    }
    assert patterns[..|patterns|] == patterns;
    if prefixes == {} && exact == {} {
      return Ok(DenyAll);
    }
    return Ok(Patterns(prefixes, exact));
  }

  lemma NothingDenoted(root: Node)
    ensures forall path :: IsCapability(root, path) ==> Means(Patterns({}, {}), [], path) && Means(DenyAll, [], path)
  {
  }

  lemma StarCovers(root: Node, patterns: seq<string>, i: nat)
    requires i < |patterns| && Trim(patterns[i]) == "*"
    ensures forall path :: IsCapability(root, path) ==> Means(AllowAll, patterns, path)
  {
    hide Trim, Join;
    forall path | IsCapability(root, path) ensures Means(AllowAll, patterns, path) {
      assert Covers(Trim(patterns[i]), path);
    }
  }

  // ---- patterns that the Go validator admits ----

  lemma TrimPlain(s: string)
    requires s != "" && !IsSpace(s[0]) && !IsSpace(s[|s| - 1])
    ensures Trim(s) == s
  {
  }

  /** An admitted pattern is its own trimmed form and parses, so the two validators never disagree on it. */
  lemma AdmittedParses(root: Node, pattern: string)
    requires GoodTree(root) && NoBlanks(root) && Names(root, pattern)
    ensures Trim(pattern) == pattern && Parsable(root, pattern)
  {
    assert !IsSpace('*');
    hide NoBlanks, IsSpace, Walk, GoodTree, Split, Join, Trim;
    if pattern == "*" {
      TrimPlain(pattern);
    } else {
      NamesParts(root, pattern);
      AdmittedShape(root, pattern);
      TrimPlain(pattern);
      assert Split('/', pattern) != ["*"] by { JoinSplit('/', pattern); JoinSingle('/', "*"); }
      LaxerThanValidator(root, Split('/', pattern));
    }
  }

  lemma AdmittedShape(root: Node, pattern: string)
    requires GoodTree(root) && NoBlanks(root) && Names(root, pattern) && pattern != "*"
    ensures pattern != "" && !IsSpace(pattern[0]) && !IsSpace(pattern[|pattern| - 1])
    ensures '*' in pattern ==> EndsWithWildcard(pattern)
  {
    hide Walk, GoodTree, Split, Join;
    assert !IsSpace('*');
    hide NoBlanks, IsSpace;
    if path :| IsCapability(root, path) && pattern == Join('/', path) {
      WalkGood(root, path);
      WalkNoBlanks(root, path);
      JoinPlain(path);
      JoinNoBlanks(path);
    } else {
      var group :| IsGroup(root, group) && pattern == Join('/', group) + "/*";
      WalkGood(root, group);
      WalkNoBlanks(root, group);
      JoinPlain(group);
      JoinNoBlanks(group);
    }
  }

  /** For a PolicyServer the webhook admitted, the server allows a capability exactly when a pattern denotes it. */
  method NewFromAdmitted(root: Node, patterns: seq<string>) returns (list: HostCapabilities)
    requires GoodTree(root) && NoBlanks(root) && root.Interior?
    requires forall i :: 0 <= i < |patterns| ==> Names(root, patterns[i])
    ensures forall path :: IsCapability(root, path) ==>
              (IsAllowed(list, Join('/', path)) <==> exists i :: 0 <= i < |patterns| && Covers(patterns[i], path))
  {
    hide NoBlanks, Names, GoodTree, Walk, Covers, Join, Trim, Parsable;
    forall i | 0 <= i < |patterns| ensures Trim(patterns[i]) == patterns[i] && Parsable(root, patterns[i]) {
      AdmittedParses(root, patterns[i]);
    }
    var r := New(root, patterns);
    list := r.list;
    assert forall path :: IsCapability(root, path) ==> Means(list, patterns, path);
  }
}
