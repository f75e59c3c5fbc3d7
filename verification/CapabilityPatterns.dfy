/**
  Host-capability patterns: the Go validator of `spec.namespacedPoliciesCapabilities`, and the Rust allow list that the
  policy server builds from the same patterns. Both walk the same tree of capability paths.
 */
module CapabilityPatterns {
  import opened Options
  import opened Text

  /** A leaf is a complete capability path; an interior node has named children. */
  datatype Node = Leaf | Interior(children: map<string, Node>)

  predicate GoodSegment(s: string) {
    s != "" && '/' !in s && '*' !in s
  }

  predicate GoodTree(node: Node) {
    node.Interior? ==> forall k :: k in node.children ==> GoodSegment(k) && GoodTree(node.children[k])
  }

  // ---- paths in the tree ----

  function Walk(node: Node, path: seq<string>): Option<Node> {
    if path == [] then Some(node)
    else if node.Interior? && path[0] in node.children then Walk(node.children[path[0]], path[1..])
    else None
  }

  lemma {:induction false} WalkAppend(node: Node, path: seq<string>, segment: string)
    ensures Walk(node, path + [segment]) ==
            match Walk(node, path)
            case Some(Interior(children)) => if segment in children then Some(children[segment]) else None
            case _ => None
  {
    if path == [] {
      assert (path + [segment])[1..] == [];
    } else {
      assert (path + [segment])[1..] == path[1..] + [segment];
      if node.Interior? && path[0] in node.children { WalkAppend(node.children[path[0]], path[1..], segment); }
    }
  }

  lemma {:induction false} WalkGood(node: Node, path: seq<string>)
    requires GoodTree(node) && Walk(node, path).Some?
    ensures GoodTree(Walk(node, path).value) && forall i :: 0 <= i < |path| ==> GoodSegment(path[i])
  {
    if path != [] {
      WalkGood(node.children[path[0]], path[1..]);
      forall i | 0 <= i < |path| ensures GoodSegment(path[i]) {
        if i > 0 { assert path[i] == path[1..][i - 1]; }
      }
    }
  }

  lemma {:induction false} WalkPrefix(node: Node, path: seq<string>, n: nat)
    requires n <= |path| && Walk(node, path).Some?
    ensures Walk(node, path[..n]).Some?
    ensures n < |path| ==> Walk(node, path[..n]).value.Interior?
  {
    if n > 0 {
      WalkPrefix(node.children[path[0]], path[1..], n - 1);
      assert path[..n][1..] == path[1..][..n - 1];
    }
  }

  ghost predicate IsCapability(root: Node, path: seq<string>) {
    path != [] && Walk(root, path) == Some(Leaf)
  }

  ghost predicate IsGroup(root: Node, path: seq<string>) {
    path != [] && Walk(root, path).Some? && Walk(root, path).value.Interior?
  }

  /** The three forms of a valid pattern. */
  ghost predicate Names(root: Node, pattern: string) {
    || pattern == "*"
    || (exists path :: IsCapability(root, path) && pattern == Join('/', path))
    || (exists path :: IsGroup(root, path) && pattern == Join('/', path) + "/*")
  }

  // ---- the Go validator ----

  datatype Verdict = Accepted | Empty | BadWildcard | UnknownSegment | PastLeaf | Incomplete

  /** What the parts of a pattern look like when it is a path, or a path and a wildcard. */
  ghost predicate PartsName(root: Node, parts: seq<string>) {
    || IsCapability(root, parts)
    || (parts != [] && parts[|parts| - 1] == "*" && IsGroup(root, parts[..|parts| - 1]))
  }

  lemma SplitCapability(root: Node, path: seq<string>)
    requires GoodTree(root) && path != [] && Walk(root, path).Some?
    ensures Split('/', Join('/', path)) == path
    ensures Split('/', Join('/', path) + "/*") == path + ["*"]
  {
    hide Walk, Split, Join;
    WalkGood(root, path);
    SplitJoin('/', path);
    JoinConcat('/', path, ["*"]);
    JoinSingle('/', "*");
    assert Join('/', path) + "/" + "*" == Join('/', path) + "/*";
    SplitJoin('/', path + ["*"]);
  }

  lemma NamesParts(root: Node, pattern: string)
    requires GoodTree(root) && pattern != "*"
    ensures Names(root, pattern) <==> PartsName(root, Split('/', pattern))
  {
    hide Walk, Split, Join, GoodTree;
    var parts := Split('/', pattern);
    JoinSplit('/', pattern);
    if path :| IsCapability(root, path) && pattern == Join('/', path) {
      SplitCapability(root, path);
    }
    if path :| IsGroup(root, path) && pattern == Join('/', path) + "/*" {
      SplitCapability(root, path);
      assert (path + ["*"])[..|path|] == path;
    }
    if PartsName(root, parts) && !IsCapability(root, parts) {
      var init := parts[..|parts| - 1];
      assert parts == init + ["*"];
      JoinConcat('/', init, ["*"]);
      JoinSingle('/', "*");
      assert pattern == Join('/', init) + "/*";
    }
  }

  /** Why each rejection is right: a part that no valid pattern has at this place. */
  lemma PartsForced(root: Node, parts: seq<string>, i: nat)
    requires GoodTree(root) && PartsName(root, parts) && i < |parts|
    ensures '*' in parts[i] ==> parts[i] == "*" && i == |parts| - 1
    ensures '*' !in parts[i] ==> Walk(root, parts[..i + 1]).Some?
    ensures '*' !in parts[i] && i < |parts| - 1 ==> Walk(root, parts[..i + 1]).value.Interior?
    ensures '*' !in parts[i] && i == |parts| - 1 ==> Walk(root, parts).value.Leaf?
  {
    if IsCapability(root, parts) {
      WalkGood(root, parts);
      WalkPrefix(root, parts, i + 1);
      assert parts[..|parts|] == parts;
    } else {
      var init := parts[..|parts| - 1];
      if i < |init| {
        WalkGood(root, init);
        WalkPrefix(root, init, i + 1);
        assert init[..i + 1] == parts[..i + 1] && init[i] == parts[i];
      }
    }
  }

  lemma GroupForced(root: Node, parts: seq<string>, i: nat)
    requires GoodTree(root) && IsGroup(root, parts) && i < |parts|
    ensures '*' !in parts[i] && Walk(root, parts[..i + 1]).Some? && Walk(root, parts[..i + 1]).value.Interior?
  {
    WalkGood(root, parts);
    WalkPrefix(root, parts, i + 1);
    assert parts[..|parts|] == parts;
  }

  ghost predicate StrayWildcard(parts: seq<string>, i: int) {
    0 <= i < |parts| && '*' in parts[i] && (parts[i] != "*" || i != |parts| - 1)
  }

  /** The path leads to an interior node that has no child with the next name. */
  ghost predicate LeavesTree(root: Node, parts: seq<string>, i: int) {
    && 0 <= i < |parts| && '*' !in parts[i]
    && Walk(root, parts[..i]).Some? && Walk(root, parts[..i]).value.Interior? && Walk(root, parts[..i + 1]).None?
  }

  ghost predicate LeafInside(root: Node, parts: seq<string>, i: int) {
    0 <= i < |parts| - 1 && Walk(root, parts[..i + 1]) == Some(Leaf)
  }

  /** The reason for a rejection names what is wrong with the parts. */
  ghost predicate Reason(root: Node, parts: seq<string>, verdict: Verdict) {
    match verdict
    case BadWildcard => exists i :: StrayWildcard(parts, i)
    case UnknownSegment => exists i :: LeavesTree(root, parts, i)
    case PastLeaf => exists i :: LeafInside(root, parts, i)
    case Incomplete => IsGroup(root, parts)
    case _ => true
  }

  /** The loop over the parts. */
  method ValidateParts(root: Node, parts: seq<string>) returns (verdict: Verdict)
    requires GoodTree(root) && root.Interior? && parts != [] && parts != ["*"]
    ensures verdict.Accepted? <==> PartsName(root, parts)
    ensures verdict.Incomplete? <==> IsGroup(root, parts)
    ensures Reason(root, parts, verdict) && !verdict.Empty?
  {
    hide Walk, GoodTree;
    var node := root;
    assert Walk(root, []) == Some(root) by { WalkEmpty(root); }
    for i := 0 to |parts|
      invariant Walk(root, parts[..i]) == Some(node) && node.Interior?
    {
      var part := parts[i];
      assert parts[..i + 1] == parts[..i] + [part];
      WalkAppend(root, parts[..i], part);
      if PartsName(root, parts) { PartsForced(root, parts, i); }
      if IsGroup(root, parts) { GroupForced(root, parts, i); }
      if '*' in part {
        if part != "*" || i != |parts| - 1 {
          assert StrayWildcard(parts, i);
          return BadWildcard;
        }
        assert parts[..|parts| - 1] == parts[..i];
        return Accepted;
      }
      if part !in node.children {
        assert LeavesTree(root, parts, i);
        return UnknownSegment;
      }
      if node.children[part].Leaf? {
        if i != |parts| - 1 {
          assert LeafInside(root, parts, i);
          return PastLeaf;
        }
        assert parts[..i + 1] == parts;
        return Accepted;
      }
      node := node.children[part];
    }
    assert parts[..|parts|] == parts;
    GroupForced(root, parts, |parts| - 1);
    if PartsName(root, parts) { PartsForced(root, parts, |parts| - 1); }
    return Incomplete;
  }

  lemma WalkEmpty(node: Node)
    ensures Walk(node, []) == Some(node)
  {
  }

  lemma EmptyNamesNothing(root: Node)
    requires GoodTree(root)
    ensures !Names(root, "")
  {
    NamesParts(root, "");
    if PartsName(root, [""]) { PartsForced(root, [""], 0); WalkGood(root, [""]); }
  }

  /** Accepts exactly "*", the path of a capability, and the path of an interior node followed by a wildcard. */
  method ValidateSingleCapability(root: Node, pattern: string) returns (verdict: Verdict)
    requires GoodTree(root) && root.Interior?
    ensures verdict.Accepted? <==> Names(root, pattern)
    ensures verdict.Empty? <==> pattern == ""
    ensures Reason(root, Split('/', pattern), verdict)
  {
    hide Walk, GoodTree, PartsName, IsGroup;
    if pattern == "" {
      EmptyNamesNothing(root);
      return Empty;
    }
    if pattern == "*" { return Accepted; }
    NamesParts(root, pattern);
    JoinSplit('/', pattern);
    verdict := ValidateParts(root, Split('/', pattern));
  }

  /** validateNamespacedPoliciesCapabilities: one error for each pattern that is not accepted, at its index. */
  method ValidateCapabilities(root: Node, patterns: seq<string>) returns (errors: seq<(nat, Verdict)>)
    requires GoodTree(root) && root.Interior?
    ensures errors == [] <==> forall i :: 0 <= i < |patterns| ==> Names(root, patterns[i])
    ensures forall i :: 0 <= i < |patterns| ==> (!Names(root, patterns[i]) <==> exists e :: e in errors && e.0 == i)
  {
    errors := [];
    for i := 0 to |patterns|
      invariant forall e :: e in errors ==> e.0 < i
      invariant forall j :: 0 <= j < i ==> (!Names(root, patterns[j]) <==> exists e :: e in errors && e.0 == j)
      invariant errors == [] <==> forall j :: 0 <= j < i ==> Names(root, patterns[j])
    {
      hide Names, GoodTree;
      var verdict := ValidateSingleCapability(root, patterns[i]);
      if !verdict.Accepted? {
        ghost var before := errors;
        errors := errors + [(i, verdict)];
        assert (i, verdict) in errors && forall e :: e in errors <==> e in before || e == (i, verdict);
      }
    }
  }
}
