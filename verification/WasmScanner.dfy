/**
  The scanner of `kwctl` that finds the host capabilities a Wasm module may use by searching its data segments for the
  names of the operations.
 */
module WasmScanner {
  import opened Options

  type Byte = b: int | 0 <= b < 256
  type Bytes = seq<Byte>

  const SEPARATOR: Byte := 0xFF

  /** A name is valid UTF-8, so the byte 0xFF never occurs in it (section 3 of RFC 3629). */
  predicate IsName(name: Bytes) {
    name != [] && 0xFF !in name
  }

  predicate StartsWith(data: Bytes, prefix: Bytes) {
    |prefix| <= |data| && data[..|prefix|] == prefix
  }

  predicate OccursAt(data: Bytes, needle: Bytes, i: int) {
    0 <= i <= |data| && StartsWith(data[i..], needle)
  }

  ghost predicate Occurs(data: Bytes, needle: Bytes) {
    exists i :: OccursAt(data, needle, i)
  }

  /** memmem::find: the position of the first occurrence. */
  method Find(data: Bytes, needle: Bytes) returns (pos: Option<nat>)
    ensures pos.Some? ==>
              OccursAt(data, needle, pos.value) && forall i :: 0 <= i < pos.value ==> !OccursAt(data, needle, i)
    ensures pos.None? <==> !Occurs(data, needle)
  {
    for i := 0 to |data| + 1
      invariant forall j :: 0 <= j < i ==> !OccursAt(data, needle, j)
    {
      if StartsWith(data[i..], needle) { return Some(i); }
    }
    return None;
  }

  /** `needle` starts at `i` and `longer` does not. */
  predicate StandaloneAt(data: Bytes, needle: Bytes, longer: Bytes, i: int) {
    OccursAt(data, needle, i) && !OccursAt(data, longer, i)
  }

  ghost predicate HasStandalone(data: Bytes, needle: Bytes, longer: Bytes) {
    exists i :: StandaloneAt(data, needle, longer, i)
  }

  /** The loop slices `data` at `offset`: it never leaves the data, because `longer` is not empty. */
  method HasStandaloneMatch(data: Bytes, needle: Bytes, longer: Bytes) returns (r: bool)
    requires longer != []
    ensures r <==> HasStandalone(data, needle, longer)
  {
    var offset := 0;
    while true
      invariant 0 <= offset <= |data|
      invariant forall i :: 0 <= i < offset ==> !StandaloneAt(data, needle, longer, i)
      decreases |data| - offset
    {
      var pos := Find(data[offset..], needle);
      if pos.None? {
        forall i | offset <= i <= |data| ensures !OccursAt(data, needle, i) {
          assert data[offset..][i - offset..] == data[i..];
          assert !OccursAt(data[offset..], needle, i - offset);
        }
        return false;
      }
      var absPos := offset + pos.value;
      assert data[offset..][pos.value..] == data[absPos..];
      if !StartsWith(data[absPos..], longer) {
        assert StandaloneAt(data, needle, longer, absPos);
        return true;
      }
      forall i | offset <= i < absPos ensures !OccursAt(data, needle, i) {
        assert data[offset..][i - offset..] == data[i..];
        assert !OccursAt(data[offset..], needle, i - offset);
      }
      offset := absPos + 1;
    }
  }

  method IsOperationPresent(data: Bytes, namespace: Bytes, operation: Bytes, siblings: seq<Bytes>) returns (r: bool)
    requires forall k :: 0 <= k < |siblings| ==> siblings[k] != []
    ensures r <==> Reported(data, namespace, operation, siblings)
  {
    var pos := Find(data, namespace);
    if pos.None? { return false; }
    if |siblings| == 0 {
      pos := Find(data, operation);
      return pos.Some?;
    }
    for i := 0 to |siblings|
      invariant forall k :: 0 <= k < i ==> HasStandalone(data, operation, siblings[k])
    {
      var standalone := HasStandaloneMatch(data, operation, siblings[i]);
      if !standalone { return false; }
    }
    return true;
  }

  /** What the scanner reports: for each longer sibling, some occurrence of the operation that is not its start. */
  ghost predicate Reported(data: Bytes, namespace: Bytes, operation: Bytes, siblings: seq<Bytes>) {
    && Occurs(data, namespace)
    && if siblings == [] then Occurs(data, operation)
       else forall k :: 0 <= k < |siblings| ==> HasStandalone(data, operation, siblings[k])
  }

  /** What it is meant to report: one occurrence of the operation where no longer sibling starts. */
  ghost predicate Used(data: Bytes, namespace: Bytes, operation: Bytes, siblings: seq<Bytes>) {
    Occurs(data, namespace) && exists i :: AloneAt(data, operation, siblings, i)
  }

  ghost predicate RightOnAllData(namespace: Bytes, operation: Bytes, siblings: seq<Bytes>) {
    forall data :: Reported(data, namespace, operation, siblings) <==> Used(data, namespace, operation, siblings)
  }

  ghost predicate AloneAt(data: Bytes, operation: Bytes, siblings: seq<Bytes>, i: int) {
    OccursAt(data, operation, i) && forall k :: 0 <= k < |siblings| ==> !OccursAt(data, siblings[k], i)
  }

  /** Some sibling is a prefix of every other one, as in every prefix chain. */
  ghost predicate HasLeastSibling(siblings: seq<Bytes>) {
    siblings != [] ==> exists least :: IsLeast(siblings, least)
  }

  ghost predicate PrefixChain(siblings: seq<Bytes>) {
    forall i, j :: 0 <= i < |siblings| && 0 <= j < |siblings| ==>
                     StartsWith(siblings[i], siblings[j]) || StartsWith(siblings[j], siblings[i])
  }

  ghost predicate IsLeast(siblings: seq<Bytes>, least: Bytes) {
    least in siblings && forall k :: 0 <= k < |siblings| ==> StartsWith(siblings[k], least)
  }

  lemma {:induction false} ChainHasLeast(siblings: seq<Bytes>) returns (least: Bytes)
    requires PrefixChain(siblings) && siblings != []
    ensures IsLeast(siblings, least)
  {
    var last, init := siblings[|siblings| - 1], siblings[..|siblings| - 1];
    least := last;
    assert StartsWith(last, last);
    hide StartsWith;
    if init != [] {
      assert forall i :: 0 <= i < |init| ==> init[i] == siblings[i];
      var m := ChainHasLeast(init);
      if StartsWith(last, m) {
        least := m;
      } else {
        forall k | 0 <= k < |init| ensures StartsWith(siblings[k], last) {
          assert StartsWith(init[k], m);
          PrefixTrans(siblings[k], m, last);
        }
      }
    }
  }

  lemma PrefixTrans(a: Bytes, b: Bytes, c: Bytes)
    requires StartsWith(a, b) && StartsWith(b, c)
    ensures StartsWith(a, c)
  {
    assert a[..|c|] == a[..|b|][..|c|];
  }

  /** With a least sibling, checking the siblings one by one is the same as finding one position that avoids
      them all. */
  lemma ReportedIffUsed(data: Bytes, namespace: Bytes, operation: Bytes, siblings: seq<Bytes>)
    requires HasLeastSibling(siblings)
    ensures Reported(data, namespace, operation, siblings) <==> Used(data, namespace, operation, siblings)
  {
    if siblings == [] {
      if i :| OccursAt(data, operation, i) { assert AloneAt(data, operation, siblings, i); }
    } else {
      var least :| IsLeast(siblings, least);
      var m :| 0 <= m < |siblings| && siblings[m] == least;
      if Reported(data, namespace, operation, siblings) {
        assert HasStandalone(data, operation, siblings[m]);
        var i :| StandaloneAt(data, operation, siblings[m], i);
        forall k | 0 <= k < |siblings| ensures !OccursAt(data, siblings[k], i) {
          if OccursAt(data, siblings[k], i) { PrefixTrans(data[i..], siblings[k], least); }
        }
        assert AloneAt(data, operation, siblings, i);
      }
      if Used(data, namespace, operation, siblings) {
        var i :| AloneAt(data, operation, siblings, i);
        forall k | 0 <= k < |siblings| ensures HasStandalone(data, operation, siblings[k]) {
          assert StandaloneAt(data, operation, siblings[k], i);
        }
      }
    }
  }

  // ---- the concatenation of the segments ----

  function Concatenate(segments: seq<Bytes>): Bytes {
    if segments == [] then [] else Concatenate(segments[..|segments| - 1]) + segments[|segments| - 1] + [SEPARATOR]
  }

  /** Where the bytes of segment `k` start. */
  function Offset(segments: seq<Bytes>, k: nat): nat
    requires k <= |segments|
  {
    |Concatenate(segments[..k])|
  }

  /** Segment `k` is in place, and the separator follows it. */
  lemma {:induction false} SegmentInPlace(segments: seq<Bytes>, k: nat)
    requires k < |segments|
    ensures var data := Concatenate(segments); var start := Offset(segments, k); var end := start + |segments[k]|;
            && end < |data| && data[start..end] == segments[k] && data[end] == SEPARATOR
            && Offset(segments, k + 1) == end + 1
  {
    var init := segments[..|segments| - 1];
    assert segments[..k + 1][..k] == segments[..k];
    if k < |segments| - 1 {
      SegmentInPlace(init, k);
      assert init[..k] == segments[..k] && init[..k + 1] == segments[..k + 1];
    } else {
      assert segments[..k + 1] == segments;
    }
  }

  /** Every position of the concatenation lies in one segment or on its separator. */
  lemma {:induction false} Locate(segments: seq<Bytes>, i: nat) returns (k: nat)
    requires i < |Concatenate(segments)|
    ensures k < |segments| && Offset(segments, k) <= i <= Offset(segments, k) + |segments[k]|
  {
    var init := segments[..|segments| - 1];
    if i < |Concatenate(init)| {
      k := Locate(init, i);
      assert init[..k] == segments[..k];
    } else {
      k := |segments| - 1;
    }
  }

  /** A name that starts inside a segment occurs in the concatenation exactly when it occurs in that segment. */
  lemma OccursInSegment(segments: seq<Bytes>, k: nat, name: Bytes, i: nat)
    requires k < |segments| && i <= |segments[k]| && IsName(name)
    ensures OccursAt(Concatenate(segments), name, Offset(segments, k) + i) <==> OccursAt(segments[k], name, i)
  {
    SegmentInPlace(segments, k);
    var data, start := Concatenate(segments), Offset(segments, k);
    var segment := segments[k];
    var here := data[start + i..];
    assert here[..|segment| - i] == data[start..start + |segment|][i..] == segment[i..];
    assert here[|segment| - i] == SEPARATOR;
    if |name| <= |segment| - i {
      assert here[..|name|] == segment[i..][..|name|];
    } else {
      assert name[|segment| - i] in name;
    }
  }

  /** An occurrence in the concatenation, with the segment it lies in. */
  lemma SegmentOf(segments: seq<Bytes>, name: Bytes, i: int) returns (k: nat, j: nat)
    requires IsName(name) && OccursAt(Concatenate(segments), name, i)
    ensures k < |segments| && j <= |segments[k]| && i == Offset(segments, k) + j && OccursAt(segments[k], name, j)
  {
    k := Locate(segments, i);
    j := i - Offset(segments, k);
    OccursInSegment(segments, k, name, j);
  }

  ghost predicate InSomeSegment(segments: seq<Bytes>, name: Bytes) {
    exists k :: 0 <= k < |segments| && Occurs(segments[k], name)
  }

  /** Searching the concatenation is searching each segment alone. */
  lemma SegmentSearch(segments: seq<Bytes>, name: Bytes)
    requires IsName(name)
    ensures Occurs(Concatenate(segments), name) <==> InSomeSegment(segments, name)
  {
    if i :| OccursAt(Concatenate(segments), name, i) {
      var k, j := SegmentOf(segments, name, i);
    }
    if k :| 0 <= k < |segments| && Occurs(segments[k], name) {
      var j :| OccursAt(segments[k], name, j);
      OccursInSegment(segments, k, name, j);
    }
  }

  ghost predicate AloneInSomeSegment(segments: seq<Bytes>, operation: Bytes, siblings: seq<Bytes>) {
    exists k, j :: 0 <= k < |segments| && AloneAt(segments[k], operation, siblings, j)
  }

  lemma AloneSearch(segments: seq<Bytes>, operation: Bytes, siblings: seq<Bytes>)
    requires IsName(operation) && forall s :: s in siblings ==> IsName(s)
    ensures (exists i :: AloneAt(Concatenate(segments), operation, siblings, i)) <==>
            AloneInSomeSegment(segments, operation, siblings)
  {
    if i :| AloneAt(Concatenate(segments), operation, siblings, i) {
      var k, j := SegmentOf(segments, operation, i);
      forall s | 0 <= s < |siblings| ensures !OccursAt(segments[k], siblings[s], j) {
        OccursInSegment(segments, k, siblings[s], j);
      }
      assert AloneAt(segments[k], operation, siblings, j);
    }
    if k, j :| 0 <= k < |segments| && AloneAt(segments[k], operation, siblings, j) {
      OccursInSegment(segments, k, operation, j);
      forall s | 0 <= s < |siblings| ensures !OccursAt(Concatenate(segments), siblings[s], Offset(segments, k) + j) {
        OccursInSegment(segments, k, siblings[s], j);
      }
      assert AloneAt(Concatenate(segments), operation, siblings, Offset(segments, k) + j);
    }
  }

  // ---- without a least sibling ----

  /** No sibling is a proper prefix of this one. */
  ghost predicate IsMinimal(siblings: seq<Bytes>, m: Bytes) {
    m in siblings && forall s :: s in siblings && StartsWith(m, s) ==> s == m
  }

  lemma {:induction false} MinimalBelow(siblings: seq<Bytes>, s: Bytes) returns (m: Bytes)
    requires s in siblings
    ensures IsMinimal(siblings, m) && StartsWith(s, m)
    decreases |s|
  {
    if t :| t in siblings && StartsWith(s, t) && t != s {
      assert s[..|s|] == s;
      m := MinimalBelow(siblings, t);
      PrefixTrans(s, t, m);
    } else {
      m := s;
      assert StartsWith(s, s);
    }
  }

  lemma StartsItself(data: Bytes)
    ensures StartsWith(data, data) && OccursAt(data, data, 0)
  {
    assert data[0..] == data;
  }

  lemma AtStart(data: Bytes, name: Bytes)
    ensures OccursAt(data, name, 0) <==> StartsWith(data, name)
  {
    assert data[0..] == data;
  }

  ghost predicate NeverAlone(data: Bytes, operation: Bytes, siblings: seq<Bytes>) {
    forall i :: !AloneAt(data, operation, siblings, i)
  }

  /** Data can begin with this word although the operation never stands alone in it. */
  ghost predicate CanHide(word: Bytes, operation: Bytes, siblings: seq<Bytes>) {
    exists rest: Bytes :: NeverAlone(word + rest, operation, siblings)
  }

  /** Two siblings, neither of which extends any other, that can both occur in such data. */
  ghost predicate Forks(operation: Bytes, siblings: seq<Bytes>, a: Bytes, b: Bytes) {
    && a != b && IsMinimal(siblings, a) && IsMinimal(siblings, b)
    && CanHide(a, operation, siblings) && CanHide(b, operation, siblings)
  }

  lemma OccursLater(data: Bytes, name: Bytes, from: nat, j: nat)
    requires from <= |data| && j <= |data| - from
    ensures OccursAt(data[from..], name, j) <==> OccursAt(data, name, from + j)
  {
    assert data[from..][j..] == data[from + j..];
  }

  /** What follows an occurrence continues it. */
  lemma TailHides(data: Bytes, operation: Bytes, siblings: seq<Bytes>, word: Bytes, i: nat)
    requires NeverAlone(data, operation, siblings) && OccursAt(data, word, i)
    ensures CanHide(word, operation, siblings)
  {
    var rest := data[i + |word|..];
    assert data[i..] == word + rest;
    forall j ensures !AloneAt(data[i..], operation, siblings, j) {
      if 0 <= j <= |data| - i { AloneLater(data, operation, siblings, i, j); }
    }
  }

  lemma AloneLater(data: Bytes, operation: Bytes, siblings: seq<Bytes>, from: nat, j: nat)
    requires from <= |data| && j <= |data| - from
    ensures AloneAt(data[from..], operation, siblings, j) <==> AloneAt(data, operation, siblings, from + j)
  {
    hide OccursAt;
    OccursLater(data, operation, from, j);
    forall k | 0 <= k < |siblings|
      ensures OccursAt(data[from..], siblings[k], j) <==> OccursAt(data, siblings[k], from + j)
    {
      OccursLater(data, siblings[k], from, j);
    }
  }

  /** Where the operation starts and does not stand alone, a minimal sibling starts. */
  lemma MinimalThere(data: Bytes, operation: Bytes, siblings: seq<Bytes>, i: nat) returns (m: Bytes)
    requires NeverAlone(data, operation, siblings) && OccursAt(data, operation, i)
    ensures IsMinimal(siblings, m) && OccursAt(data, m, i) && CanHide(m, operation, siblings)
  {
    hide StartsWith, NeverAlone, CanHide, IsMinimal;
    assert !AloneAt(data, operation, siblings, i) by { NotAlone(data, operation, siblings, i); }
    var k :| 0 <= k < |siblings| && OccursAt(data, siblings[k], i);
    m := MinimalBelow(siblings, siblings[k]);
    PrefixTrans(data[i..], siblings[k], m);
    TailHides(data, operation, siblings, m, i);
  }

  lemma NotAlone(data: Bytes, operation: Bytes, siblings: seq<Bytes>, i: nat)
    requires NeverAlone(data, operation, siblings)
    ensures !AloneAt(data, operation, siblings, i)
  {
  }

  /** A report on data in which the operation never stands alone comes from a fork. */
  lemma MisledByFork(data: Bytes, namespace: Bytes, operation: Bytes, siblings: seq<Bytes>) returns (a: Bytes, b: Bytes)
    requires Reported(data, namespace, operation, siblings) && !Used(data, namespace, operation, siblings)
    ensures CanHide(namespace, operation, siblings) && Forks(operation, siblings, a, b)
  {
    hide StartsWith, CanHide, IsMinimal;
    assert NeverAlone(data, operation, siblings);
    var n :| OccursAt(data, namespace, n);
    TailHides(data, operation, siblings, namespace, n);
    NothingMisleads(data, namespace, operation);
    assert HasStandalone(data, operation, siblings[0]);
    var i :| StandaloneAt(data, operation, siblings[0], i);
    a := MinimalThere(data, operation, siblings, i);
    MinimalIn(siblings, a);
    var k :| 0 <= k < |siblings| && siblings[k] == a;
    assert HasStandalone(data, operation, siblings[k]);
    var j :| StandaloneAt(data, operation, siblings[k], j);
    b := MinimalThere(data, operation, siblings, j);
  }

  lemma NothingMisleads(data: Bytes, namespace: Bytes, operation: Bytes)
    ensures Reported(data, namespace, operation, []) ==> Used(data, namespace, operation, [])
  {
    if i :| OccursAt(data, operation, i) { assert AloneAt(data, operation, [], i); }
  }

  lemma MinimalIn(siblings: seq<Bytes>, m: Bytes)
    requires IsMinimal(siblings, m)
    ensures m in siblings
  {
  }

  /** No sibling starts both where one branch of a fork starts and where the other does. */
  lemma ForkedStarts(siblings: seq<Bytes>, a: Bytes, b: Bytes, x: Bytes, y: Bytes, s: Bytes)
    requires a != b && IsMinimal(siblings, a) && IsMinimal(siblings, b) && s in siblings
    requires StartsWith(x, a) && StartsWith(y, b)
    ensures !StartsWith(x, s) || !StartsWith(y, s)
  {
    hide StartsWith;
    if StartsWith(x, s) && StartsWith(y, s) {
      Comparable(x, a, s);
      Comparable(y, b, s);
      StartsItself(s);
      Comparable(s, a, b);
    }
  }

  lemma Comparable(x: Bytes, a: Bytes, b: Bytes)
    requires StartsWith(x, a) && StartsWith(x, b)
    ensures StartsWith(a, b) || StartsWith(b, a)
  {
    if |a| <= |b| { assert b[..|a|] == x[..|b|][..|a|]; } else { assert a[..|b|] == x[..|a|][..|b|]; }
  }

  lemma StartsLonger(word: Bytes, rest: Bytes, prefix: Bytes)
    requires StartsWith(word, prefix)
    ensures StartsWith(word + rest, prefix)
  {
    assert (word + rest)[..|prefix|] == word[..|prefix|];
  }

  ghost predicate AllExtend(operation: Bytes, siblings: seq<Bytes>) {
    IsName(operation) && forall s :: s in siblings ==> IsName(s) && StartsWith(s, operation)
  }

  /** Data that holds both branches of a fork and the namespace: reported, though the operation never stands alone. */
  lemma ForkMisleads(namespace: Bytes, operation: Bytes, siblings: seq<Bytes>, a: Bytes, b: Bytes) returns (data: Bytes)
    requires IsName(namespace) && AllExtend(operation, siblings)
    requires CanHide(namespace, operation, siblings) && Forks(operation, siblings, a, b)
    ensures Reported(data, namespace, operation, siblings) && !Used(data, namespace, operation, siblings)
  {
    hide Concatenate, StartsWith, IsMinimal, IsName;
    var n: Bytes :| NeverAlone(namespace + n, operation, siblings);
    var restA: Bytes :| NeverAlone(a + restA, operation, siblings);
    var restB: Bytes :| NeverAlone(b + restB, operation, siblings);
    var segments := [a + restA, b + restB, namespace + n];
    data := Concatenate(segments);
    NamespaceOccurs(segments, namespace, n);
    MinimalIn(siblings, a);
    MinimalIn(siblings, b);
    forall k | 0 <= k < |siblings| ensures HasStandalone(data, operation, siblings[k]) {
      BranchWithout(segments, operation, siblings, a, restA, b, restB, siblings[k]);
    }
    AloneSearch(segments, operation, siblings);
    forall k | 0 <= k < |segments| ensures NeverAlone(segments[k], operation, siblings) {
    }
  }

  lemma NamespaceOccurs(segments: seq<Bytes>, namespace: Bytes, rest: Bytes)
    requires |segments| == 3 && IsName(namespace) && segments[2] == namespace + rest
    ensures Occurs(Concatenate(segments), namespace)
  {
    hide Concatenate, StartsWith;
    StartsItself(namespace);
    StartsLonger(namespace, rest, namespace);
    AtStart(segments[2], namespace);
    assert Occurs(segments[2], namespace);
    SegmentSearch(segments, namespace);
  }

  lemma BranchWithout(segments: seq<Bytes>, operation: Bytes, siblings: seq<Bytes>, a: Bytes, restA: Bytes,
                      b: Bytes, restB: Bytes, s: Bytes)
    requires AllExtend(operation, siblings) && s in siblings
    requires a in siblings && b in siblings && a != b && IsMinimal(siblings, a) && IsMinimal(siblings, b)
    requires |segments| == 3 && segments[0] == a + restA && segments[1] == b + restB
    ensures HasStandalone(Concatenate(segments), operation, s)
  {
    hide Concatenate, StartsWith, IsMinimal;
    var j := if StartsWith(segments[0], s) then 1 else 0;
    StartsItself(a);
    StartsItself(b);
    StartsLonger(a, restA, a);
    StartsLonger(b, restB, b);
    ForkedStarts(siblings, a, b, segments[0], segments[1], s);
    StartsLonger(a, restA, operation);
    StartsLonger(b, restB, operation);
    AtStart(segments[j], operation);
    AtStart(segments[j], s);
    OccursInSegment(segments, j, operation, 0);
    OccursInSegment(segments, j, s, 0);
    assert StandaloneAt(Concatenate(segments), operation, s, Offset(segments, j));
  }

  /**
    The exact condition, for all names: the scanner reports what it is meant to report on all data unless the namespace
    can occur in data in which the operation never stands alone, and so can two different minimal siblings.
   */
  lemma ScannerExact(namespace: Bytes, operation: Bytes, siblings: seq<Bytes>)
    requires IsName(namespace) && AllExtend(operation, siblings)
    ensures RightOnAllData(namespace, operation, siblings) <==>
            !(CanHide(namespace, operation, siblings) && exists a, b :: Forks(operation, siblings, a, b))
  {
    hide Reported, Used, CanHide, Forks, AllExtend;
    forall data | Used(data, namespace, operation, siblings) ensures Reported(data, namespace, operation, siblings) {
      UsedIsReported(data, namespace, operation, siblings);
    }
    if CanHide(namespace, operation, siblings) && exists a, b :: Forks(operation, siblings, a, b) {
      var a, b :| Forks(operation, siblings, a, b);
      var data := ForkMisleads(namespace, operation, siblings, a, b);
    } else {
      forall data | Reported(data, namespace, operation, siblings) ensures Used(data, namespace, operation, siblings) {
        if !Used(data, namespace, operation, siblings) {
          var a, b := MisledByFork(data, namespace, operation, siblings);
        }
      }
    }
  }

  lemma UsedIsReported(data: Bytes, namespace: Bytes, operation: Bytes, siblings: seq<Bytes>)
    requires Used(data, namespace, operation, siblings)
    ensures Reported(data, namespace, operation, siblings)
  {
    hide OccursAt;
    var i :| AloneAt(data, operation, siblings, i);
    forall k | 0 <= k < |siblings| ensures HasStandalone(data, operation, siblings[k]) {
      assert StandaloneAt(data, operation, siblings[k], i);
    }
  }

  // ---- names that do not overlap ----

  ghost predicate OnlyAtStart(data: Bytes, name: Bytes) {
    forall i :: OccursAt(data, name, i) ==> i == 0
  }

  lemma NamespaceHides(namespace: Bytes, operation: Bytes, siblings: seq<Bytes>)
    requires !Occurs(namespace, operation)
    ensures CanHide(namespace, operation, siblings)
  {
    hide OccursAt;
    assert namespace + [] == namespace;
    assert NeverAlone(namespace + [], operation, siblings);
  }

  lemma SiblingHides(sibling: Bytes, operation: Bytes, siblings: seq<Bytes>)
    requires sibling in siblings && OnlyAtStart(sibling, operation)
    ensures CanHide(sibling, operation, siblings)
  {
    StartsItself(sibling);
    hide StartsWith;
    assert sibling + [] == sibling;
    forall i ensures !AloneAt(sibling, operation, siblings, i) {
      if OccursAt(sibling, operation, i) {
        var k :| 0 <= k < |siblings| && siblings[k] == sibling;
      }
    }
    assert NeverAlone(sibling + [], operation, siblings);
  }

  /** A least sibling is the only minimal one; without one there are two. */
  lemma LeastIsOnlyMinimal(siblings: seq<Bytes>)
    ensures HasLeastSibling(siblings) <==>
            forall a, b :: IsMinimal(siblings, a) && IsMinimal(siblings, b) ==> a == b
  {
    if siblings != [] && !HasLeastSibling(siblings) {
      var a := MinimalBelow(siblings, siblings[0]);
      assert !IsLeast(siblings, a);
      var k :| 0 <= k < |siblings| && !StartsWith(siblings[k], a);
      var b := MinimalBelow(siblings, siblings[k]);
    }
  }

  /** For names that occur in their longer siblings at the start only and not in the namespace, the condition is that
      one sibling is a prefix of all others. */
  lemma LeastSiblingExact(namespace: Bytes, operation: Bytes, siblings: seq<Bytes>)
    requires IsName(namespace) && AllExtend(operation, siblings) && !Occurs(namespace, operation)
    requires forall s :: s in siblings ==> OnlyAtStart(s, operation)
    ensures HasLeastSibling(siblings) <==>
            RightOnAllData(namespace, operation, siblings)
  {
    hide Reported, Used, OnlyAtStart, CanHide, AllExtend, HasLeastSibling, Occurs;
    ScannerExact(namespace, operation, siblings);
    NamespaceHides(namespace, operation, siblings);
    LeastIsOnlyMinimal(siblings);
    forall a | IsMinimal(siblings, a) ensures CanHide(a, operation, siblings) {
      SiblingHides(a, operation, siblings);
    }
    hide IsMinimal;
    if a, b :| IsMinimal(siblings, a) && IsMinimal(siblings, b) && a != b {
      assert Forks(operation, siblings, a, b);
    }
  }

  // ---- scan ----

  datatype Operation = Operation(namespace: Bytes, name: Bytes)

  predicate IsSibling(operation: Bytes, other: Bytes) {
    other != operation && StartsWith(other, operation)
  }

  /** The names of the other operations that are longer and start with this name, in order. */
  function Siblings(operations: seq<Operation>, name: Bytes): (r: seq<Bytes>)
    ensures forall s :: s in r <==> IsSibling(name, s) && exists o :: o in operations && o.name == s
  {
    if operations == [] then []
    else
      var rest := Siblings(operations[..|operations| - 1], name);
      var last := operations[|operations| - 1];
      if IsSibling(name, last.name) then rest + [last.name] else rest
  }

  predicate AllNames(operations: seq<Operation>) {
    forall o :: o in operations ==> IsName(o.namespace) && IsName(o.name)
  }

  ghost predicate ReportedIn(segments: seq<Bytes>, operations: seq<Operation>, o: Operation) {
    Reported(Concatenate(segments), o.namespace, o.name, Siblings(operations, o.name))
  }

  /** The name starts at this position of the segment, and no longer name of an operation that begins with it does. */
  ghost predicate StandsAt(segment: Bytes, operations: seq<Operation>, name: Bytes, j: int) {
    && 0 <= j <= |segment| && name <= segment[j..]
    && forall p :: p in operations && name < p.name ==> !(p.name <= segment[j..])
  }

  /** What a report means for the module: in terms of single segments and single positions. */
  ghost predicate Detected(segments: seq<Bytes>, operations: seq<Operation>, o: Operation) {
    && (exists k, j :: 0 <= k < |segments| && 0 <= j <= |segments[k]| && o.namespace <= segments[k][j..])
    && (exists k, j :: 0 <= k < |segments| && StandsAt(segments[k], operations, o.name, j))
  }

  /** The names that are longer than this one and begin with it, if any, begin with one of them. */
  ghost predicate Nested(operations: seq<Operation>, name: Bytes) {
    || (forall p :: p in operations ==> !(name < p.name))
    || exists m :: m in operations && BeginsAll(operations, name, m.name)
  }

  ghost predicate BeginsAll(operations: seq<Operation>, name: Bytes, least: Bytes) {
    name < least && forall p :: p in operations && name < p.name ==> least <= p.name
  }

  lemma BeginsOne(operations: seq<Operation>, name: Bytes, least: Bytes, p: Operation)
    requires BeginsAll(operations, name, least) && p in operations && name < p.name
    ensures StartsWith(p.name, least)
  {
    PrefixMeans(p.name, least);
  }

  lemma PrefixMeans(data: Bytes, name: Bytes)
    ensures StartsWith(data, name) <==> name <= data
    ensures IsSibling(name, data) <==> name < data
  {
  }

  lemma StandsAlone(segment: Bytes, operations: seq<Operation>, name: Bytes, j: int)
    ensures AloneAt(segment, name, Siblings(operations, name), j) <==> StandsAt(segment, operations, name, j)
  {
    hide StartsWith, IsSibling, Siblings;
    var siblings := Siblings(operations, name);
    if 0 <= j <= |segment| {
      PrefixMeans(segment[j..], name);
      forall p | p in operations
        ensures p.name in siblings <==> name < p.name
        ensures StartsWith(segment[j..], p.name) <==> p.name <= segment[j..]
      {
        PrefixMeans(p.name, name);
        PrefixMeans(segment[j..], p.name);
      }
      forall k | 0 <= k < |siblings| ensures exists p :: p in operations && p.name == siblings[k] && name < p.name {
        assert siblings[k] in siblings;
        var p :| p in operations && p.name == siblings[k];
      }
      if AloneAt(segment, name, siblings, j) {
        forall p | p in operations && name < p.name ensures !(p.name <= segment[j..]) {
          var k :| 0 <= k < |siblings| && siblings[k] == p.name;
        }
      }
    }
  }

  lemma IsSiblingOf(operations: seq<Operation>, name: Bytes, p: Operation)
    requires p in operations
    ensures p.name in Siblings(operations, name) <==> name < p.name
  {
    hide Siblings;
    PrefixMeans(p.name, name);
  }

  lemma SiblingOf(operations: seq<Operation>, name: Bytes, s: Bytes) returns (p: Operation)
    requires s in Siblings(operations, name)
    ensures p in operations && p.name == s && name < s
  {
    hide Siblings;
    PrefixMeans(s, name);
    p :| p in operations && p.name == s;
  }

  lemma LeastNests(operations: seq<Operation>, name: Bytes)
    requires HasLeastSibling(Siblings(operations, name))
    ensures Nested(operations, name)
  {
    hide StartsWith, Siblings;
    var siblings := Siblings(operations, name);
    if siblings == [] {
      forall p | p in operations ensures !(name < p.name) { IsSiblingOf(operations, name, p); }
    } else {
      var least :| IsLeast(siblings, least);
      var m := SiblingOf(operations, name, least);
      forall p | p in operations && name < p.name ensures m.name <= p.name {
        IsSiblingOf(operations, name, p);
        var k :| 0 <= k < |siblings| && siblings[k] == p.name;
        PrefixMeans(p.name, least);
      }
    }
  }

  lemma Longer(operations: seq<Operation>, name: Bytes, least: Bytes)
    requires BeginsAll(operations, name, least)
    ensures name < least
  {
  }

  lemma NestsLeast(operations: seq<Operation>, name: Bytes)
    requires Nested(operations, name) && Siblings(operations, name) != []
    ensures HasLeastSibling(Siblings(operations, name))
  {
    hide StartsWith, Siblings, BeginsAll;
    var siblings := Siblings(operations, name);
    var q := SiblingOf(operations, name, siblings[0]);
    var m :| m in operations && BeginsAll(operations, name, m.name);
    assert name < m.name by { Longer(operations, name, m.name); }
    IsSiblingOf(operations, name, m);
    forall k | 0 <= k < |siblings| ensures StartsWith(siblings[k], m.name) {
      var p := SiblingOf(operations, name, siblings[k]);
      BeginsOne(operations, name, m.name, p);
    }
    assert IsLeast(siblings, m.name);
  }

  lemma NestedIsLeast(operations: seq<Operation>, name: Bytes)
    ensures HasLeastSibling(Siblings(operations, name)) <==> Nested(operations, name)
  {
    hide Siblings, IsLeast, Nested;
    if HasLeastSibling(Siblings(operations, name)) { LeastNests(operations, name); }
    if Nested(operations, name) && Siblings(operations, name) != [] { NestsLeast(operations, name); }
  }

  lemma NamespaceThere(segments: seq<Bytes>, namespace: Bytes)
    ensures InSomeSegment(segments, namespace) <==>
            exists k, j :: 0 <= k < |segments| && 0 <= j <= |segments[k]| && namespace <= segments[k][j..]
  {
    hide StartsWith;
    forall s, t ensures StartsWith(s, t) <==> t <= s { PrefixMeans(s, t); }
    if InSomeSegment(segments, namespace) {
      var k :| 0 <= k < |segments| && Occurs(segments[k], namespace);
      var j :| OccursAt(segments[k], namespace, j);
      assert namespace <= segments[k][j..];
    }
    if k, j :| 0 <= k < |segments| && 0 <= j <= |segments[k]| && namespace <= segments[k][j..] {
      assert OccursAt(segments[k], namespace, j);
    }
  }

  lemma ReportedIffDetected(segments: seq<Bytes>, operations: seq<Operation>, o: Operation)
    requires AllNames(operations) && o in operations && Nested(operations, o.name)
    ensures ReportedIn(segments, operations, o) <==> Detected(segments, operations, o)
  {
    hide IsName, IsSibling, Concatenate, Siblings, Nested, HasLeastSibling, AloneAt, StandsAt;
    var siblings := Siblings(operations, o.name);
    forall s | s in siblings ensures IsName(s) {
      var p :| p in operations && p.name == s;
    }
    NestedIsLeast(operations, o.name);
    ReportedIffUsed(Concatenate(segments), o.namespace, o.name, siblings);
    SegmentSearch(segments, o.namespace);
    NamespaceThere(segments, o.namespace);
    AloneSearch(segments, o.name, siblings);
    forall k, j | 0 <= k < |segments|
      ensures AloneAt(segments[k], o.name, siblings, j) <==> StandsAt(segments[k], operations, o.name, j)
    {
      StandsAlone(segments[k], operations, o.name, j);
    }
  }

  method Scan(segments: seq<Bytes>, operations: seq<Operation>) returns (found: seq<Operation>)
    requires AllNames(operations)
    ensures forall o :: o in found <==> o in operations && ReportedIn(segments, operations, o)
    ensures (forall o :: o in operations ==> Nested(operations, o.name)) ==>
              forall o :: o in found <==> o in operations && Detected(segments, operations, o)
  {
    var allData: Bytes := [];
    for i := 0 to |segments|
      invariant allData == Concatenate(segments[..i])
    {
      assert segments[..i + 1][..i] == segments[..i];
      allData := allData + segments[i] + [SEPARATOR];
    }
    assert segments[..|segments|] == segments;
    found := [];
    for i := 0 to |operations|
      invariant forall o :: o in found <==> o in operations[..i] && ReportedIn(segments, operations, o)
    {
      hide Reported, Concatenate, StartsWith;
      var o := operations[i];
      assert operations[..i + 1] == operations[..i] + [o];
      var siblings := CollectSiblings(operations, o.name);
      forall k | 0 <= k < |siblings| ensures siblings[k] != [] {
        assert siblings[k] in siblings;
        var p :| p in operations && p.name == siblings[k];
      }
      var present := IsOperationPresent(allData, o.namespace, o.name, siblings);
      if present { found := found + [o]; }
    }
    assert operations[..|operations|] == operations;
    if forall o :: o in operations ==> Nested(operations, o.name) {
      forall o | o in operations ensures ReportedIn(segments, operations, o) <==> Detected(segments, operations, o) {
        ReportedIffDetected(segments, operations, o);
      }
    }
  }

  method CollectSiblings(operations: seq<Operation>, name: Bytes) returns (r: seq<Bytes>)
    ensures r == Siblings(operations, name)
  {
    r := [];
    for i := 0 to |operations|
      invariant r == Siblings(operations[..i], name)
    {
      assert operations[..i + 1][..i] == operations[..i];
      if operations[i].name != name && StartsWith(operations[i].name, name) { r := r + [operations[i].name]; }
    }
    assert operations[..|operations|] == operations;
  }
}
