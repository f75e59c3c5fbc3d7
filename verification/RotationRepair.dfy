/**
  How gaps are closed. Whatever stale writes came before, a pass that signs every certificate ends without a gap, and a
  pass that nothing disturbs gets that far from every state.
 */
module RotationRepair {
  import opened Options
  import opened Collections
  import opened Certs
  import opened WebhookConfigs
  import opened RotationProtocol
  import opened RotationProof
  import opened RotationNecessity

  // ---- a pass that signs every certificate ----

  lemma SignedOrSound(s: State, step: Step, rest: seq<Step>, service: string)
    requires BaseInv(s) && PhaseInv(s) && Enabled(s, step) && CreateSafe(s, step)
    requires NoGapFor(s, service) || PassSign(service) in [step] + rest
    ensures NoGapFor(Do(s, step), service) || PassSign(service) in rest
  {
    assert ShapeInv(s);
    hide BaseInv, ShapeInv, PhaseInv, NoGapFor, Do, Enabled, CreateSafe;
    if NoGapFor(s, service) {
      GapStep(s, step, service);
    } else if step == PassSign(service) {
      SignCloses(s, service);
    }
  }

  lemma {:induction false} SigningClosesGaps(s: State, steps: seq<Step>)
    requires BaseInv(s) && PhaseInv(s) && AfterSafely(s, steps).Some?
    requires forall service :: NoGapFor(s, service) || PassSign(service) in steps
    ensures NoTrustGap(AfterSafely(s, steps).value)
    decreases |steps|
  {
    assert ShapeInv(s);
    hide BaseInv, ShapeInv, PhaseInv, NoGapFor, Do, Enabled, CreateSafe, NoTrustGap;
    if steps == [] {
      GapsByServer(s);
    } else {
      assert steps == [steps[0]] + steps[1..];
      BaseStep(s, steps[0]);
      PhaseStep(s, steps[0]);
      forall service ensures NoGapFor(Do(s, steps[0]), service) || PassSign(service) in steps[1..] {
        SignedOrSound(s, steps[0], steps[1..], service);
      }
      SigningClosesGaps(Do(s, steps[0]), steps[1..]);
    }
  }

  /**
    From every state that the invariants allow, with gaps or without, in which no pass is past its lists: steps of any
    kind and in any order, with safe writes only, that sign the certificate of every server there is, end without a gap.
   */
  lemma PassClosesGaps(s: State, steps: seq<Step>)
    requires BaseInv(s) && !AfterLists(s.pass) && AfterSafely(s, steps).Some?
    requires forall service :: service in s.leaves ==> PassSign(service) in steps
    ensures NoTrustGap(AfterSafely(s, steps).value)
  {
    assert ShapeInv(s);
    forall service | service !in s.leaves ensures NoGapFor(s, service) {
      NoServerNoGap(s, service);
    }
    hide BaseInv, ShapeInv, AfterSafely, NoTrustGap, NoGapFor;
    SigningClosesGaps(s, steps);
  }

  // ---- a pass that nothing disturbs ----

  lemma {:induction false} Then(s: State, first: seq<Step>, t: State, rest: seq<Step>)
    requires AfterSafely(s, first) == Some(t)
    ensures AfterSafely(s, first + rest) == AfterSafely(t, rest)
    decreases |first|
  {
    hide Enabled, Do, CreateSafe;
    if first == [] {
      assert first + rest == rest;
    } else {
      Then(Do(s, first[0]), first[1..], t, rest);
      assert (first + rest)[1..] == first[1..] + rest;
    }
  }

  /** The pass alone, from its first call on. */
  ghost predicate OfThePass(step: Step) {
    match step
    case EnsureCA => true
    case PassStart => true
    case PassCheckRoot => true
    case PassStoreRoot => true
    case PassPrune => true
    case PassListValidating(_) => true
    case PassListMutating(_) => true
    case PassInject => true
    case PassTrusted => true
    case PassSign(_) => true
    case _ => false
  }

  ghost predicate AllOfThePass(steps: seq<Step>) {
    forall i :: 0 <= i < |steps| ==> OfThePass(steps[i])
  }

  /** One more step of the pass. */
  lemma Go(s: State, steps: seq<Step>, t: State, step: Step) returns (steps': seq<Step>, t': State)
    requires AllOfThePass(steps) && AfterSafely(s, steps) == Some(t) && Enabled(t, step) && OfThePass(step)
    ensures steps' == steps + [step] && t' == Do(t, step)
    ensures AllOfThePass(steps') && AfterSafely(s, steps') == Some(t')
  {
    steps', t' := steps + [step], Do(t, step);
    assert CreateSafe(t, step);
    hide Do, Enabled, CreateSafe;
    Then(s, steps, t, [step]);
    FirstStep(t, step, []);
    assert [step] + [] == [step];
    Nothing(t');
  }

  /** Every listed configuration is as it was listed, and is listed once. */
  ghost predicate Fresh(s: State, work: seq<Listed>) {
    && (forall l :: l in work ==> l.key in s.configs && s.configs[l.key].rv == l.config.rv)
    && (forall i, j :: 0 <= i < j < |work| ==> work[i].key != work[j].key)
  }

  lemma {:induction false} ListInOrder(s: State, order: seq<ConfigKey>)
    requires forall k :: k in order ==> k in s.configs
    ensures |ListWork(s, order)| == |order| && forall i :: 0 <= i < |order| ==> ListWork(s, order)[i].key == order[i]
    decreases |order|
  {
    if order != [] { ListInOrder(s, order[1..]); }
  }

  lemma ListIsFresh(s: State, order: seq<ConfigKey>)
    requires (forall k :: k in order ==> k in s.configs) && NoDuplicates(order)
    ensures Fresh(s, ListWork(s, order))
  {
    hide ListWork;
    ListInOrder(s, order);
  }

  lemma InjectGoesOn(s: State)
    requires Enabled(s, PassInject) && Fresh(s, s.pass.work)
    ensures var s' := Do(s, PassInject);
            s'.pass == Injecting(s.pass.mem, s.pass.work[1..]) && Fresh(s', s'.pass.work)
  {
    hide UpToDate, CABundle, InjectEntries;
  }

  lemma {:induction false} InjectAll(s: State, steps: seq<Step>, t: State) returns (steps': seq<Step>, t': State)
    requires AllOfThePass(steps) && AfterSafely(s, steps) == Some(t)
    requires t.pass.Injecting? && Fresh(t, t.pass.work)
    ensures AllOfThePass(steps') && AfterSafely(s, steps') == Some(t') && t'.pass == Signing(t.pass.mem)
    decreases |t.pass.work|
  {
    hide AfterSafely, AllOfThePass, Fresh, UpToDate;
    if t.pass.work == [] {
      steps', t' := Go(s, steps, t, PassTrusted);
    } else {
      InjectGoesOn(t);
      steps', t' := Go(s, steps, t, PassInject);
      steps', t' := InjectAll(s, steps', t');
    }
  }

  lemma {:induction false} SignAll(s: State, steps: seq<Step>, t: State, services: seq<string>)
    returns (steps': seq<Step>, t': State)
    requires AllOfThePass(steps) && AfterSafely(s, steps) == Some(t) && t.pass.Signing?
    ensures AllOfThePass(steps') && AfterSafely(s, steps') == Some(t')
    ensures forall service :: service in services || PassSign(service) in steps ==> PassSign(service) in steps'
    decreases |services|
  {
    hide AfterSafely, AllOfThePass, VerifyLeaf;
    steps', t' := steps, t;
    if services != [] {
      steps', t' := Go(s, steps, t, PassSign(services[0]));
      assert t'.pass == t.pass;
      hide Do, Enabled;
      ghost var mid := steps';
      assert PassSign(services[0]) in mid;
      steps', t' := SignAll(s, steps', t', services[1..]);
    }
  }

  /** Up to the lists. */
  lemma Prepare(s: State) returns (steps: seq<Step>, t: State)
    requires s.pass.Idle?
    ensures AllOfThePass(steps) && AfterSafely(s, steps) == Some(t) && t.pass.Pruned?
  {
    Nothing(s);
    assert AllOfThePass([]);
    hide AfterSafely, AllOfThePass, MustRotate, MustDropOld;
    steps, t := Go(s, [], s, EnsureCA);
    steps, t := Go(s, steps, t, PassStart);
    steps, t := RenewRoot(s, steps, t);
    steps, t := Go(s, steps, t, PassPrune);
  }

  lemma RenewRoot(s: State, steps: seq<Step>, t: State) returns (steps': seq<Step>, t': State)
    requires AllOfThePass(steps) && AfterSafely(s, steps) == Some(t) && t.pass.Ensured?
    ensures AllOfThePass(steps') && AfterSafely(s, steps') == Some(t') && t'.pass.Rotated?
  {
    hide AfterSafely, AllOfThePass, MustRotate;
    steps', t' := Go(s, steps, t, PassCheckRoot);
    if t'.pass.Rotating? { steps', t' := Go(s, steps', t', PassStoreRoot); }
  }

  lemma ListKind(s: State, kind: Kind) returns (order: seq<ConfigKey>)
    ensures ListsKind(s, kind, order) && Fresh(s, ListWork(s, order))
    ensures forall l :: l in ListWork(s, order) ==> l.key.kind == kind
  {
    order := ListOf(set k | k in s.configs && k.kind == kind && s.configs[k].labelled);
    ListIsFresh(s, order);
  }

  lemma BothFresh(s: State, work: seq<Listed>, more: seq<Listed>)
    requires Fresh(s, work) && Fresh(s, more)
    requires forall l, m :: l in work && m in more ==> l.key != m.key
    ensures Fresh(s, work + more)
  {
    forall i, j | 0 <= i < j < |work + more| ensures (work + more)[i].key != (work + more)[j].key {
      if i < |work| <= j { assert work[i] in work && more[j - |work|] in more; }
    }
  }

  lemma FreshFrame(s: State, s': State, work: seq<Listed>)
    requires s'.configs == s.configs && Fresh(s, work)
    ensures Fresh(s', work)
  {
  }

  lemma ListBoth(s: State, steps: seq<Step>, t: State) returns (steps': seq<Step>, t': State)
    requires AllOfThePass(steps) && AfterSafely(s, steps) == Some(t) && t.pass.Pruned?
    ensures AllOfThePass(steps') && AfterSafely(s, steps') == Some(t') && t'.pass.Injecting? && Fresh(t', t'.pass.work)
  {
    hide AfterSafely, AllOfThePass, Fresh, ListsKind, ListWork;
    var validating := ListKind(t, Validating);
    var work := ListWork(t, validating);
    steps', t' := Go(s, steps, t, PassListValidating(validating));
    var t1 := t';
    var mutating := ListKind(t1, Mutating);
    var more := ListWork(t1, mutating);
    steps', t' := Go(s, steps', t1, PassListMutating(mutating));
    assert t'.pass.work == work + more;
    FreshFrame(t, t1, work);
    BothFresh(t1, work, more);
    FreshFrame(t1, t', work + more);
  }

  /** Every state from which a pass starts has a continuation by the pass alone that signs every certificate. */
  lemma UndisturbedPass(s: State) returns (steps: seq<Step>)
    requires BaseInv(s) && s.pass.Idle?
    ensures AllOfThePass(steps) && AfterSafely(s, steps).Some? && NoTrustGap(AfterSafely(s, steps).value)
  {
    hide AfterSafely, AllOfThePass, BaseInv, NoTrustGap, Fresh;
    var services := ListOf(s.leaves.Keys);
    var t;
    steps, t := Prepare(s);
    steps, t := ListBoth(s, steps, t);
    steps, t := InjectAll(s, steps, t);
    steps, t := SignAll(s, steps, t, services);
    PassClosesGaps(s, steps);
  }
}
