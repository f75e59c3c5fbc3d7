/**
  The policies that a policy server serves: `buildPoliciesMap`, then `addLegacyPolicyEntries`, which also serves each
  policy under its legacy name unless another policy has the same one.
 */
module LegacyMigration {
  import opened Options
  import opened Collections
  import opened PolicyNames
  import opened PolicyServerConfig

  /** A Go map of entries: callers share it and it is updated in place. */
  class EntryMap {
    var entries: map<string, Entry>

    constructor ()
      ensures entries == map[]
    {
      entries := map[];
    }
  }

  predicate DistinctIds(policies: seq<Policy>) {
    forall i, j :: 0 <= i < j < |policies| ==> policies[i].id != policies[j].id
  }

  predicate ValidIds(policies: seq<Policy>) {
    forall i :: 0 <= i < |policies| ==> policies[i].id.Valid()
  }

  // ---- buildPoliciesMap ----

  /** Every policy is there under its unique name, and nothing else is. */
  ghost predicate Built(entries: map<string, Entry>, policies: seq<Policy>, configured: Option<seq<string>>) {
    && (forall i :: 0 <= i < |policies| ==>
          && UniqueName(policies[i].id) in entries
          && entries[UniqueName(policies[i].id)] == EntryOf(policies[i], configured))
    && forall n :: n in entries ==> exists i :: 0 <= i < |policies| && UniqueName(policies[i].id) == n
  }

  lemma BuiltStep(entries: map<string, Entry>, policies: seq<Policy>, i: nat, configured: Option<seq<string>>)
    requires i < |policies| && ValidIds(policies) && DistinctIds(policies)
    requires Built(entries, policies[..i], configured)
    ensures Built(entries[UniqueName(policies[i].id) := EntryOf(policies[i], configured)], policies[..i + 1],
                  configured)
  {
    hide UniqueName, EntryOf;
    var name := UniqueName(policies[i].id);
    var upto := policies[..i + 1];
    forall j | 0 <= j < i ensures UniqueName(policies[j].id) != name {
      UniqueNameInjective(policies[j].id, policies[i].id);
    }
    forall j | 0 <= j < i ensures policies[..i][j] == upto[j] {}
    assert upto[i] == policies[i];
    var after := entries[name := EntryOf(policies[i], configured)];
    forall j | 0 <= j < |upto|
      ensures UniqueName(upto[j].id) in after && after[UniqueName(upto[j].id)] == EntryOf(upto[j], configured)
    {
      if j < i { assert policies[..i][j] == upto[j]; }
    }
  }

  method BuildPoliciesMap(policies: seq<Policy>, configured: Option<seq<string>>) returns (m: EntryMap)
    requires ValidIds(policies) && DistinctIds(policies)
    ensures fresh(m) && Built(m.entries, policies, configured)
    ensures forall i :: 0 <= i < |policies| ==> Describes(m.entries[UniqueName(policies[i].id)], policies[i],
                                                          configured)
  {
    m := new EntryMap();
    for i := 0 to |policies|
      invariant fresh(m)
      invariant Built(m.entries, policies[..i], configured)
    {
      hide *;
      BuiltStep(m.entries, policies, i, configured);
      m.entries := m.entries[UniqueName(policies[i].id) := EntryOf(policies[i], configured)];
    }
    assert policies[..|policies|] == policies;
    hide UniqueName, EntryOf, Describes;
    forall i | 0 <= i < |policies| ensures Describes(m.entries[UniqueName(policies[i].id)], policies[i], configured) {
      EntryDescribes(policies[i], configured);
    }
  }

  // ---- addLegacyPolicyEntries ----

  /** The policies whose legacy name is `n`, in order. */
  function Owners(policies: seq<Policy>, n: string): (r: seq<Policy>)
    ensures forall p :: p in r <==> p in policies && LegacyName(p.id) == n
  {
    if policies == [] then []
    else
      var rest := Owners(policies[..|policies| - 1], n);
      var last := policies[|policies| - 1];
      if LegacyName(last.id) == n then rest + [last] else rest
  }

  function LegacyNames(policies: seq<Policy>): set<string> {
    set p | p in policies :: LegacyName(p.id)
  }

  /** What addLegacyPolicyEntries adds for the legacy names in `names`. */
  ghost predicate Aliased(before: map<string, Entry>, after: map<string, Entry>, policies: seq<Policy>,
                          names: set<string>) {
    && (forall n :: n in after ==> n in before || n in names)
    && (forall n :: n in before && n !in names ==> n in after && after[n] == before[n])
    && forall n :: n in names ==>
         var owners := Owners(policies, n);
         if |owners| == 1 && UniqueName(owners[0].id) in before
         then n in after && after[n] == before[UniqueName(owners[0].id)]
         else (n in after <==> n in before) && (n in before ==> after[n] == before[n])
  }

  /** The first loop: group the policies by legacy name. */
  method CollectOwners(policies: seq<Policy>) returns (owners: map<string, seq<Policy>>)
    ensures forall n :: n in owners <==> Owners(policies, n) != []
    ensures forall n :: n in owners ==> owners[n] == Owners(policies, n)
  {
    hide LegacyName;
    owners := map[];
    for i := 0 to |policies|
      invariant forall n :: n in owners <==> Owners(policies[..i], n) != []
      invariant forall n :: n in owners ==> owners[n] == Owners(policies[..i], n)
    {
      assert policies[..i + 1][..i] == policies[..i];
      var n := LegacyName(policies[i].id);
      var others := if n in owners then owners[n] else [];
      owners := owners[n := others + [policies[i]]];
    }
    assert policies[..|policies|] == policies;
  }

  /** One round of the second loop. */
  function ServeLegacy(entries: map<string, Entry>, n: string, owners: seq<Policy>): map<string, Entry> {
    if |owners| == 1 && UniqueName(owners[0].id) in entries then entries[n := entries[UniqueName(owners[0].id)]]
    else entries
  }

  lemma AliasStep(before: map<string, Entry>, after: map<string, Entry>, policies: seq<Policy>, done: set<string>,
                  n: string)
    requires Aliased(before, after, policies, done) && n !in done
    requires forall p: Policy :: UniqueName(p.id) !in done
    ensures Aliased(before, ServeLegacy(after, n, Owners(policies, n)), policies, done + {n})
  {
    hide UniqueName, LegacyName, Owners;
  }

  method AddLegacyPolicyEntries(m: EntryMap, policies: seq<Policy>)
    modifies m
    ensures Aliased(old(m.entries), m.entries, policies, LegacyNames(policies))
  {
    hide LegacyName, UniqueName, Owners, Aliased;
    var owners := CollectOwners(policies);
    ghost var before := m.entries;
    var order := Enumerate(owners.Keys);
    ghost var done: set<string> := {};
    NothingAliased(before, policies);
    for i := 0 to |order|
      invariant done == set n | n in order[..i]
      invariant Aliased(before, m.entries, policies, done)
    {
      var n := order[i];
      assert n in order && n !in done;
      assert order[..i + 1] == order[..i] + [n];
      forall d | d in done ensures Owners(policies, d) != [] { assert d in order; }
      UniqueUnserved(policies, done);
      AliasStep(before, m.entries, policies, done, n);
      if |owners[n]| == 1 {
        var name := UniqueName(owners[n][0].id);
        if name in m.entries {
          m.entries := m.entries[n := m.entries[name]];
        }
      }
      done := done + {n};
    }
    assert order[..|order|] == order;
    OwnedNames(policies);
    assert done == LegacyNames(policies);
  }

  lemma NothingAliased(entries: map<string, Entry>, policies: seq<Policy>)
    ensures Aliased(entries, entries, policies, {})
  {
  }

  /** A unique name is not among the legacy names served so far, so its entry is the original one. */
  lemma UniqueUnserved(policies: seq<Policy>, done: set<string>)
    requires forall d :: d in done ==> Owners(policies, d) != []
    ensures forall p: Policy :: UniqueName(p.id) !in done
  {
    forall p: Policy ensures UniqueName(p.id) !in done {
      if UniqueName(p.id) in done {
        var q := Owners(policies, UniqueName(p.id))[0];
        assert q in Owners(policies, UniqueName(p.id));
        UniqueNeverLegacy(p.id, q.id);
      }
    }
  }

  lemma OwnedNames(policies: seq<Policy>)
    ensures forall n :: Owners(policies, n) != [] <==> n in LegacyNames(policies)
  {
    hide LegacyName;
    forall n ensures Owners(policies, n) != [] <==> n in LegacyNames(policies) {
      if Owners(policies, n) != [] { assert Owners(policies, n)[0] in Owners(policies, n); }
      if n in LegacyNames(policies) {
        var p :| p in policies && LegacyName(p.id) == n;
        assert p in Owners(policies, n);
      }
    }
  }

  // ---- what is served ----

  /** `p` is the only policy of the list with this legacy name. */
  ghost predicate OwnsAlone(policies: seq<Policy>, p: Policy, n: string) {
    LegacyName(p.id) == n && forall q :: q in policies && LegacyName(q.id) == n ==> q == p
  }

  ghost predicate ServedAs(policies: seq<Policy>, p: Policy, n: string) {
    p in policies && (UniqueName(p.id) == n || OwnsAlone(policies, p, n))
  }

  /** Exactly the unique names and the uncontended legacy names are served, each with the entry of its own policy. */
  ghost predicate Serves(served: map<string, Entry>, policies: seq<Policy>, entryOf: Policy -> Entry) {
    && (forall n :: n in served <==> exists p :: ServedAs(policies, p, n))
    && forall n, p :: n in served && p in policies && (UniqueName(p.id) == n || LegacyName(p.id) == n) ==>
                        served[n] == entryOf(p)
  }

  lemma {:induction false} OwnersDistinct(policies: seq<Policy>, n: string)
    requires DistinctIds(policies)
    ensures DistinctIds(Owners(policies, n))
  {
    hide LegacyName;
    if policies != [] {
      var init := policies[..|policies| - 1];
      OwnersDistinct(init, n);
      assert forall q :: q in Owners(init, n) ==> q in init;
      assert forall i :: 0 <= i < |Owners(init, n)| ==> Owners(init, n)[i] in Owners(init, n);
    }
  }

  /** With distinct policies, a legacy name has a sole owner exactly when its list of owners has one element. */
  lemma OneOwner(policies: seq<Policy>, n: string)
    requires DistinctIds(policies)
    ensures |Owners(policies, n)| == 1 <==> exists p :: p in policies && OwnsAlone(policies, p, n)
    ensures forall p :: p in policies && OwnsAlone(policies, p, n) ==> Owners(policies, n) == [p]
  {
    hide LegacyName, Owners;
    OwnersDistinct(policies, n);
    var owners := Owners(policies, n);
    if |owners| == 1 {
      assert owners[0] in owners && OwnsAlone(policies, owners[0], n);
    }
    assert |owners| > 1 ==> owners[0] in owners && owners[1] in owners && owners[0] != owners[1];
    forall p | p in policies && OwnsAlone(policies, p, n) ensures owners == [p] {
      assert p in owners;
    }
  }

  lemma BuiltAt(built: map<string, Entry>, policies: seq<Policy>, configured: Option<seq<string>>, p: Policy)
    requires Built(built, policies, configured) && p in policies
    ensures UniqueName(p.id) in built && built[UniqueName(p.id)] == EntryOf(p, configured)
  {
    hide UniqueName, EntryOf;
    var i :| 0 <= i < |policies| && policies[i] == p;
  }

  lemma BuiltOnly(built: map<string, Entry>, policies: seq<Policy>, configured: Option<seq<string>>, n: string)
    requires Built(built, policies, configured)
    ensures n in built <==> exists p :: p in policies && UniqueName(p.id) == n
  {
    hide UniqueName, EntryOf;
    if n in built {
      var i :| 0 <= i < |policies| && UniqueName(policies[i].id) == n;
      assert policies[i] in policies;
    }
    if p :| p in policies && UniqueName(p.id) == n { BuiltAt(built, policies, configured, p); }
  }

  /** A legacy name is not a unique name of the list. */
  lemma LegacyNotBuilt(built: map<string, Entry>, policies: seq<Policy>, configured: Option<seq<string>>, n: string)
    requires Built(built, policies, configured) && n in built
    ensures n !in LegacyNames(policies)
  {
    hide UniqueName, LegacyName, EntryOf, Built;
    BuiltOnly(built, policies, configured, n);
    var p :| p in policies && UniqueName(p.id) == n;
    forall q | q in policies ensures LegacyName(q.id) != n { UniqueNeverLegacy(p.id, q.id); }
  }

  lemma ServedIff(built: map<string, Entry>, served: map<string, Entry>, policies: seq<Policy>,
                  configured: Option<seq<string>>, n: string)
    requires DistinctIds(policies) && Built(built, policies, configured)
    requires Aliased(built, served, policies, LegacyNames(policies))
    ensures n in served <==> exists p :: ServedAs(policies, p, n)
  {
    hide LegacyName, UniqueName, EntryOf, Owners, Built, DistinctIds;
    OneOwner(policies, n);
    BuiltOnly(built, policies, configured, n);
    var owners := Owners(policies, n);
    if n in built {
      LegacyNotBuilt(built, policies, configured, n);
      var p :| p in policies && UniqueName(p.id) == n;
      assert ServedAs(policies, p, n);
    } else {
      OwnedNames(policies);
      if n in served {
        var p :| p in policies && OwnsAlone(policies, p, n);
        assert ServedAs(policies, p, n);
      }
      if p :| ServedAs(policies, p, n) {
        assert OwnsAlone(policies, p, n);
        BuiltAt(built, policies, configured, p);
        assert n in LegacyNames(policies);
      }
    }
  }

  lemma ServedEntry(built: map<string, Entry>, served: map<string, Entry>, policies: seq<Policy>,
                    configured: Option<seq<string>>, n: string, p: Policy)
    requires DistinctIds(policies) && Built(built, policies, configured)
    requires Aliased(built, served, policies, LegacyNames(policies))
    requires n in served && p in policies && (UniqueName(p.id) == n || LegacyName(p.id) == n)
    ensures served[n] == EntryOf(p, configured)
  {
    hide LegacyName, UniqueName, EntryOf, Owners, Built, DistinctIds;
    BuiltAt(built, policies, configured, p);
    if n in built {
      LegacyNotBuilt(built, policies, configured, n);
      assert LegacyName(p.id) in LegacyNames(policies);
    } else {
      assert p in Owners(policies, n);
    }
  }

  lemma BuildServes(built: map<string, Entry>, served: map<string, Entry>, policies: seq<Policy>,
                    configured: Option<seq<string>>)
    requires DistinctIds(policies) && Built(built, policies, configured)
    requires Aliased(built, served, policies, LegacyNames(policies))
    ensures Serves(served, policies, p => EntryOf(p, configured))
  {
    hide LegacyName, UniqueName, EntryOf, Owners, Built, Aliased, ServedAs, DistinctIds, LegacyNames;
    forall n ensures n in served <==> exists p :: ServedAs(policies, p, n) {
      ServedIff(built, served, policies, configured, n);
    }
    forall n, p | n in served && p in policies && (UniqueName(p.id) == n || LegacyName(p.id) == n)
      ensures served[n] == EntryOf(p, configured)
    {
      ServedEntry(built, served, policies, configured, n, p);
    }
  }

  lemma ReadServes(served: map<string, Entry>, read: map<string, Entry>, policies: seq<Policy>,
                   configured: Option<seq<string>>)
    requires Serves(served, policies, p => EntryOf(p, configured))
    requires read == map n | n in served :: AsRead(served[n])
    ensures Serves(read, policies, p => AsRead(EntryOf(p, configured)))
  {
    hide LegacyName, UniqueName, EntryOf, AsRead, ServedAs;
  }

  lemma ServedAdmitted(served: map<string, Entry>, policies: seq<Policy>, configured: Option<seq<string>>)
    requires Serves(served, policies, p => EntryOf(p, configured))
    requires forall i :: 0 <= i < |policies| ==> policies[i].Admitted()
    ensures forall n :: n in served ==> exists p: Policy :: p.Admitted() && served[n] == EntryOf(p, configured)
  {
    hide LegacyName, UniqueName, EntryOf;
    forall n | n in served ensures exists p: Policy :: p.Admitted() && served[n] == EntryOf(p, configured) {
      var p :| ServedAs(policies, p, n);
    }
  }

  /** updateConfigMapData: what the reader of the written `policies.yml` finds is exactly what is served, and no name
      ever resolves to another policy. */
  method UpdateConfigMapData(policies: seq<Policy>, configured: Option<seq<string>>) returns (policiesYML: Json)
    requires DistinctIds(policies) && forall i :: 0 <= i < |policies| ==> policies[i].Admitted()
    ensures UnmarshalMap(policiesYML).Some?
    ensures Serves(UnmarshalMap(policiesYML).value, policies, p => AsRead(EntryOf(p, configured)))
    // every policy is served under its unique name, and what is served under a name of a policy describes that policy
    ensures var read := UnmarshalMap(policiesYML).value;
            && (forall p :: p in policies ==> UniqueName(p.id) in read)
            && forall n, p :: n in read && p in policies && (UniqueName(p.id) == n || LegacyName(p.id) == n) ==>
                                Describes(read[n], p, configured)
  {
    assert ValidIds(policies);
    hide *;
    var m := BuildPoliciesMap(policies, configured);
    ghost var built := m.entries;
    AddLegacyPolicyEntries(m, policies);
    policiesYML := MarshalMap(m.entries);
    BuildServes(built, m.entries, policies, configured);
    ServedAdmitted(m.entries, policies, configured);
    ConfigRoundTrip(m.entries, configured);
    ReadServes(m.entries, UnmarshalMap(policiesYML).value, policies, configured);
    ServedDescribes(UnmarshalMap(policiesYML).value, policies, configured);
  }

  lemma ServedDescribes(read: map<string, Entry>, policies: seq<Policy>, configured: Option<seq<string>>)
    requires Serves(read, policies, p => AsRead(EntryOf(p, configured)))
    requires forall i :: 0 <= i < |policies| ==> policies[i].Admitted()
    ensures forall p :: p in policies ==> UniqueName(p.id) in read
    ensures forall n, p :: n in read && p in policies && (UniqueName(p.id) == n || LegacyName(p.id) == n) ==>
                             Describes(read[n], p, configured)
  {
    hide *;
    forall p | p in policies ensures UniqueName(p.id) in read { UniqueNameServed(read, policies, configured, p); }
    forall n, p | n in read && p in policies && (UniqueName(p.id) == n || LegacyName(p.id) == n)
      ensures Describes(read[n], p, configured)
    {
      EntryServed(read, policies, configured, n, p);
      EntryDescribes(p, configured);
    }
  }

  lemma UniqueNameServed(read: map<string, Entry>, policies: seq<Policy>, configured: Option<seq<string>>, p: Policy)
    requires Serves(read, policies, q => AsRead(EntryOf(q, configured))) && p in policies
    ensures UniqueName(p.id) in read
  {
    hide LegacyName, UniqueName, EntryOf, AsRead;
    assert ServedAs(policies, p, UniqueName(p.id));
  }

  lemma EntryServed(read: map<string, Entry>, policies: seq<Policy>, configured: Option<seq<string>>, n: string,
                    p: Policy)
    requires Serves(read, policies, q => AsRead(EntryOf(q, configured)))
    requires n in read && p in policies && (UniqueName(p.id) == n || LegacyName(p.id) == n)
    ensures read[n] == AsRead(EntryOf(p, configured))
  {
    hide LegacyName, UniqueName, EntryOf, AsRead, ServedAs;
  }
}
