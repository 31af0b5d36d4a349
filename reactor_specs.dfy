/**
 * The values the reactor works with and the pure functions that specify
 * its steps: the filters `finalize` applies, the bond-order and
 * custom-reaction tables, the greedy carbon/oxygen pairing of the
 * diol/dihalogen reaction, and the atoms, rows and bonds the
 * ring-amine reaction adds.
 */
module ReactorSpecs {
  import opened Wrappers
  import opened Ordering
  import opened ReactionKeys
  import opened FunctionalGroups

  /** A row of the position matrix. */
  datatype Pos = Pos(x: real, y: real, z: real)

  /**
   * A bond of the molecule, its endpoints given by atom id. Periodic bonds
   * also carry the direction along which they are periodic.
   */
  datatype Bond =
    | Bond(atom1: nat, atom2: nat, order: nat)
    | PeriodicBond(atom1: nat, atom2: nat, order: nat, direction: seq<int>)

  // ---------------------------------------------------------------------
  // The filters of `finalize`
  // ---------------------------------------------------------------------

  /** `[a for a in atoms if a.id not in ids]` */
  function Without(atoms: seq<Atom>, ids: set<nat>): (r: seq<Atom>)
    ensures forall a :: a in r <==> a in atoms && a.id !in ids
    ensures |r| <= |atoms|
    decreases |atoms|
  {
    if atoms == [] then []
    else
      var last := atoms[|atoms| - 1];
      assert atoms == atoms[..|atoms| - 1] + [last];
      Without(atoms[..|atoms| - 1], ids) + (if last.id in ids then [] else [last])
  }

  /** `[b for b in bonds if b.atom1 not in ids and b.atom2 not in ids]` */
  function BondsWithout(bonds: seq<Bond>, ids: set<nat>): (r: seq<Bond>)
    ensures forall b :: b in r <==> b in bonds && b.atom1 !in ids && b.atom2 !in ids
    ensures |r| <= |bonds|
    decreases |bonds|
  {
    if bonds == [] then []
    else
      var last := bonds[|bonds| - 1];
      assert bonds == bonds[..|bonds| - 1] + [last];
      BondsWithout(bonds[..|bonds| - 1], ids) + (if last.atom1 in ids || last.atom2 in ids then [] else [last])
  }

  /** `[row for i, row in enumerate(rows) if i not in ids]` */
  function RowsWithout(rows: seq<Pos>, ids: set<nat>): (r: seq<Pos>)
    ensures forall p :: p in r ==> p in rows
    ensures |r| <= |rows|
    decreases |rows|
  {
    if rows == [] then []
    else
      var last := rows[|rows| - 1];
      assert rows == rows[..|rows| - 1] + [last];
      RowsWithout(rows[..|rows| - 1], ids) + (if |rows| - 1 in ids then [] else [last])
  }

  /**
   * The atom filter goes atom by atom: a further atom is kept, after the
   * atoms kept before it, exactly when its id is not staged.
   */
  lemma WithoutSnoc(atoms: seq<Atom>, a: Atom, ids: set<nat>)
    ensures Without(atoms + [a], ids) == Without(atoms, ids) + (if a.id in ids then [] else [a])
  {
    assert (atoms + [a])[..|atoms|] == atoms;
  }

  /**
   * The row filter goes row by row: a further row is kept, after the rows
   * kept before it, exactly when its index is not staged.
   */
  lemma RowsWithoutSnoc(rows: seq<Pos>, x: Pos, ids: set<nat>)
    ensures RowsWithout(rows + [x], ids) == RowsWithout(rows, ids) + (if |rows| in ids then [] else [x])
  {
    assert (rows + [x])[..|rows|] == rows;
  }

  /** Atom `i` has id `i`, and row `i` of the position matrix is its position. */
  predicate IndexAligned(atoms: seq<Atom>, rows: seq<Pos>) {
    |rows| == |atoms| && forall i :: 0 <= i < |atoms| ==> atoms[i].id == i
  }

  /**
   * When atom ids are their indices, the filtered rows stay aligned with the
   * filtered atoms: the row kept in place `j` is the row of the atom kept in
   * place `j`.
   */
  lemma {:induction false} RowsFollowAtoms(atoms: seq<Atom>, rows: seq<Pos>, ids: set<nat>)
    requires IndexAligned(atoms, rows)
    ensures |RowsWithout(rows, ids)| == |Without(atoms, ids)|
    ensures forall j :: 0 <= j < |Without(atoms, ids)| ==>
      Without(atoms, ids)[j].id < |rows| && RowsWithout(rows, ids)[j] == rows[Without(atoms, ids)[j].id]
    decreases |atoms|
  {
    if atoms != [] {
      var n := |atoms| - 1;
      var a', r' := atoms[..n], rows[..n];
      assert IndexAligned(a', r');
      RowsFollowAtoms(a', r', ids);
      assert atoms[n].id == n;
    }
  }

  /** A list none of whose atoms is staged passes the filter unchanged. */
  lemma {:induction false} WithoutNothingStaged(atoms: seq<Atom>, ids: set<nat>)
    requires forall i :: 0 <= i < |atoms| ==> atoms[i].id !in ids
    ensures Without(atoms, ids) == atoms
    decreases |atoms|
  {
    if atoms != [] {
      var n := |atoms| - 1;
      WithoutNothingStaged(atoms[..n], ids);
      assert atoms == atoms[..n] + [atoms[n]];
    }
  }

  /** Filtering a second time removes nothing more. */
  lemma WithoutIdempotent(atoms: seq<Atom>, ids: set<nat>)
    ensures Without(Without(atoms, ids), ids) == Without(atoms, ids)
  {
    var w := Without(atoms, ids);
    forall i | 0 <= i < |w| ensures w[i].id !in ids {
      assert w[i] in w;
    }
    WithoutNothingStaged(w, ids);
  }

  // ---------------------------------------------------------------------
  // Reaction tables
  // ---------------------------------------------------------------------

  const Amine := "amine"
  const Aldehyde := "aldehyde"
  const Amide := "amide"
  const Nitrile := "nitrile"
  const TerminalAlkene := "terminal_alkene"
  const Alkyne2 := "alkyne2"
  const BoronicAcid := "boronic_acid"
  const Diol := "diol"
  const Difluorene := "difluorene"
  const Dibromine := "dibromine"
  const RingAmine := "ring_amine"

  /**
   * `Reactor._bond_orders`: reactions whose default bond is not single. A
   * reaction key is equal to another exactly when the two stand for the
   * same multiset of names (`ReactionKeys.KeyEquality`), so each entry is
   * filed under the multiset of names its key stands for.
   */
  const BondOrders: map<multiset<string>, nat> := map[
    multiset{Amine, Aldehyde} := 2,
    multiset{Amide, Aldehyde} := 2,
    multiset{Nitrile, Aldehyde} := 2,
    multiset{Amide, Amine} := 2,
    multiset{TerminalAlkene, TerminalAlkene} := 2,
    multiset{Alkyne2, Alkyne2} := 3
  ]

  /** `self._bond_orders.get(reaction_key, 1)`: single unless filed, and never above triple. */
  function BondOrder(key: ReactionKey): (order: nat)
    ensures 1 <= order <= 3
    ensures KeyMultiset(key) !in BondOrders ==> order == 1
  {
    if KeyMultiset(key) in BondOrders then BondOrders[KeyMultiset(key)] else 1
  }

  /**
   * Filing an entry under its names finds the same entries as the
   * dictionary: the key of `names` equals the key of an entry's names
   * exactly when the two name multisets are equal.
   */
  lemma FiledByNames(names: seq<string>, entry: seq<string>)
    ensures MakeKey(names) == MakeKey(entry) <==> KeyMultiset(MakeKey(names)) == multiset(entry)
  {
    KeyRoundTrip(names);
    KeyEquality(names, entry);
  }

  /**
   * An amine and an aldehyde, named in either order, take the default
   * reaction with a double (imine) bond.
   */
  lemma AmineAldehydeBondIsDouble(names: seq<string>)
    requires multiset(names) == multiset{Amine, Aldehyde}
    ensures BondOrder(MakeKey(names)) == 2
    ensures CustomReactionFor(MakeKey(names)) == None
  {
    KeyRoundTrip(names);
    ImineEntry();
  }

  lemma ImineEntry()
    ensures multiset{Amine, Aldehyde} in BondOrders && BondOrders[multiset{Amine, Aldehyde}] == 2
    ensures multiset{Amine, Aldehyde} !in CustomReactions
  {
  }

  /** Two alkynes join with a triple bond. */
  lemma AlkyneBondIsTriple()
    ensures BondOrder(MakeKey([Alkyne2, Alkyne2])) == 3
  {
    KeyRoundTrip([Alkyne2, Alkyne2]);
    assert multiset([Alkyne2, Alkyne2]) == multiset{Alkyne2, Alkyne2};
  }

  lemma NitrileNotRegistered()
    ensures Nitrile !in FgTypes
  {
  }

  /**
   * The 'nitrile' entry can never apply: no registered functional-group
   * type is called 'nitrile', so no reaction between found groups has its key.
   */
  lemma NitrileOrderUnreachable(names: seq<string>)
    requires forall i :: 0 <= i < |names| ==> names[i] in FgTypes
    ensures KeyMultiset(MakeKey(names)) != multiset{Nitrile, Aldehyde}
  {
    KeyRoundTrip(names);
    if multiset(names) == multiset{Nitrile, Aldehyde} {
      assert Nitrile in multiset(names);
      var i :| 0 <= i < |names| && names[i] == Nitrile;
      NitrileNotRegistered();
    }
  }

  /** The procedures `add_reaction` runs instead of the default reaction. */
  datatype CustomReaction =
    | BoronicAcidWithDiol
    | DiolWithDihalogen(dihalogen: string)
    | RingAmineWithRingAmine

  /** `Reactor._custom_reactions`, filed like `BondOrders`. */
  const CustomReactions: map<multiset<string>, CustomReaction> := map[
    multiset{BoronicAcid, Diol} := BoronicAcidWithDiol,
    multiset{Diol, Difluorene} := DiolWithDihalogen(Difluorene),
    multiset{Diol, Dibromine} := DiolWithDihalogen(Dibromine),
    multiset{RingAmine, RingAmine} := RingAmineWithRingAmine
  ]

  /** `self._custom_reactions.get(reaction_key)` */
  function CustomReactionFor(key: ReactionKey): (r: Option<CustomReaction>)
    ensures r.Some? <==> KeyMultiset(key) in CustomReactions
    ensures r.Some? ==> r.value == CustomReactions[KeyMultiset(key)]
  {
    if KeyMultiset(key) in CustomReactions then Some(CustomReactions[KeyMultiset(key)]) else None
  }

  /**
   * Every custom reaction takes exactly two functional groups, so the
   * dispatch in `add_reaction` always calls a procedure with the number of
   * groups it declares.
   */
  lemma CustomReactionsArePairs(names: seq<string>)
    requires CustomReactionFor(MakeKey(names)).Some?
    ensures |names| == 2
  {
    KeyRoundTrip(names);
    CustomEntriesArePairs(multiset(names));
    assert |names| == |multiset(names)|;
  }

  lemma CustomEntriesArePairs(m: multiset<string>)
    requires m in CustomReactions
    ensures |m| == 2
  {
  }

  /** The four keys of `CustomReactions` differ from one another. */
  lemma CustomKeysDistinct()
    ensures multiset{BoronicAcid, Diol} != multiset{Diol, Difluorene}
    ensures multiset{BoronicAcid, Diol} != multiset{Diol, Dibromine}
    ensures multiset{BoronicAcid, Diol} != multiset{RingAmine, RingAmine}
    ensures multiset{Diol, Difluorene} != multiset{Diol, Dibromine}
    ensures multiset{Diol, Difluorene} != multiset{RingAmine, RingAmine}
    ensures multiset{Diol, Dibromine} != multiset{RingAmine, RingAmine}
  {
    assert multiset{BoronicAcid, Diol}[BoronicAcid] == 1;
    assert multiset{Diol, Difluorene}[BoronicAcid] == 0;
    assert multiset{Diol, Dibromine}[BoronicAcid] == 0;
    assert multiset{RingAmine, RingAmine}[BoronicAcid] == 0;
    assert multiset{Diol, Difluorene}[Difluorene] == 1;
    assert multiset{Diol, Dibromine}[Difluorene] == 0;
    assert multiset{RingAmine, RingAmine}[Difluorene] == 0;
    assert multiset{Diol, Dibromine}[Dibromine] == 1;
    assert multiset{RingAmine, RingAmine}[Dibromine] == 0;
  }

  /** Each entry of `CustomReactions`, looked up under any key. */
  lemma CustomReactionsEntries(m: multiset<string>)
    ensures m in CustomReactions <==>
      m == multiset{BoronicAcid, Diol} || m == multiset{Diol, Difluorene} ||
      m == multiset{Diol, Dibromine} || m == multiset{RingAmine, RingAmine}
    ensures m == multiset{BoronicAcid, Diol} ==> CustomReactions[m] == BoronicAcidWithDiol
    ensures m == multiset{Diol, Difluorene} ==> CustomReactions[m] == DiolWithDihalogen(Difluorene)
    ensures m == multiset{Diol, Dibromine} ==> CustomReactions[m] == DiolWithDihalogen(Dibromine)
    ensures m == multiset{RingAmine, RingAmine} ==> CustomReactions[m] == RingAmineWithRingAmine
  {
    CustomKeysDistinct();
  }

  /** The boronic-acid/diol procedure runs exactly for one boronic acid and one diol. */
  lemma BoronicDispatch(names: seq<string>)
    ensures CustomReactionFor(MakeKey(names)) == Some(BoronicAcidWithDiol) <==> multiset(names) == multiset{BoronicAcid, Diol}
  {
    KeyRoundTrip(names);
    CustomReactionsEntries(multiset(names));
  }

  /** The diol/dihalogen procedure runs exactly for one diol and one of the two dihalogens. */
  lemma DiolDispatch(names: seq<string>, dihalogen: string)
    ensures CustomReactionFor(MakeKey(names)) == Some(DiolWithDihalogen(dihalogen))
        <==> dihalogen in {Difluorene, Dibromine} && multiset(names) == multiset{Diol, dihalogen}
  {
    KeyRoundTrip(names);
    CustomReactionsEntries(multiset(names));
  }

  /** The ring-amine procedure runs exactly for two ring amines. */
  lemma RingAmineDispatch(names: seq<string>)
    ensures CustomReactionFor(MakeKey(names)) == Some(RingAmineWithRingAmine) <==> multiset(names) == multiset{RingAmine, RingAmine}
  {
    KeyRoundTrip(names);
    CustomReactionsEntries(multiset(names));
  }

  // ---------------------------------------------------------------------
  // Diol with dihalogen: greedy pairing of carbons with oxygens
  // ---------------------------------------------------------------------

  /** A (distance, carbon id, oxygen id) triple. */
  type Candidate = (real, nat, nat)

  /** Python's ordering of the triples: by distance, then carbon id, then oxygen id. */
  predicate CandidateLe(a: Candidate, b: Candidate) {
    a.0 < b.0 || (a.0 == b.0 && (a.1 < b.1 || (a.1 == b.1 && a.2 <= b.2)))
  }

  lemma CandidateLeIsTotalOrder()
    ensures IsTotalOrder(CandidateLe)
  {
  }

  /** One carbon against every oxygen, as the inner loop appends them. */
  function CandidateRow(c: nat, os: seq<nat>, dist: (nat, nat) -> real): (row: seq<Candidate>)
    ensures |row| == |os|
    ensures forall j :: 0 <= j < |os| ==> row[j] == (dist(c, os[j]), c, os[j])
  {
    seq(|os|, j requires 0 <= j < |os| => (dist(c, os[j]), c, os[j]))
  }

  /** Every (carbon, oxygen) combination with its distance, carbons in the outer loop. */
  function Candidates(cs: seq<nat>, os: seq<nat>, dist: (nat, nat) -> real): (ts: seq<Candidate>)
    ensures |ts| == |cs| * |os|
    decreases |cs|
  {
    if cs == [] then [] else Candidates(cs[..|cs| - 1], os, dist) + CandidateRow(cs[|cs| - 1], os, dist)
  }

  /** The candidates are exactly the combinations, each with its own distance. */
  lemma {:induction false} CandidatesExactly(cs: seq<nat>, os: seq<nat>, dist: (nat, nat) -> real, t: Candidate)
    ensures t in Candidates(cs, os, dist) <==> t.1 in cs && t.2 in os && t.0 == dist(t.1, t.2)
    decreases |cs|
  {
    if cs != [] {
      var n := |cs| - 1;
      CandidatesExactly(cs[..n], os, dist, t);
      assert cs == cs[..n] + [cs[n]];
      var row := CandidateRow(cs[n], os, dist);
      if t.1 == cs[n] && t.2 in os && t.0 == dist(t.1, t.2) {
        var j :| 0 <= j < |os| && os[j] == t.2;
        assert row[j] == t;
      }
    }
  }

  function Carbons(pairs: seq<(nat, nat)>): set<nat> {
    set p | p in pairs :: p.0
  }

  function Oxygens(pairs: seq<(nat, nat)>): set<nat> {
    set p | p in pairs :: p.1
  }

  /** The deduplication loop: keep a pair only when neither its carbon nor its oxygen is taken yet. */
  function Greedy(ts: seq<Candidate>): (pairs: seq<(nat, nat)>)
    ensures |pairs| <= |ts|
    ensures ts != [] ==> pairs != []
    decreases |ts|
  {
    if ts == [] then []
    else
      var prev := Greedy(ts[..|ts| - 1]);
      var t := ts[|ts| - 1];
      if t.1 !in Carbons(prev) && t.2 !in Oxygens(prev) then prev + [(t.1, t.2)] else prev
  }

  /** The pairs `_diol_with_dihalogen` keeps, closest first. */
  function DiolPairs(cs: seq<nat>, os: seq<nat>, dist: (nat, nat) -> real): (pairs: seq<(nat, nat)>)
    ensures |pairs| <= |cs| * |os|
    ensures cs != [] && os != [] ==> pairs != []
  {
    Greedy(SortBy(Candidates(cs, os, dist), CandidateLe))
  }

  /** No carbon and no oxygen is used twice by the kept pairs. */
  lemma {:induction false} GreedyDistinct(ts: seq<Candidate>)
    ensures forall i, j :: 0 <= i < j < |Greedy(ts)| ==> Greedy(ts)[i].0 != Greedy(ts)[j].0 && Greedy(ts)[i].1 != Greedy(ts)[j].1
    decreases |ts|
  {
    if ts != [] {
      var prev := Greedy(ts[..|ts| - 1]);
      GreedyDistinct(ts[..|ts| - 1]);
      var t := ts[|ts| - 1];
      if t.1 !in Carbons(prev) && t.2 !in Oxygens(prev) {
        var g := prev + [(t.1, t.2)];
        forall i | 0 <= i < |prev| ensures g[i].0 != t.1 && g[i].1 != t.2 {
          assert prev[i] in prev;
        }
      }
    }
  }

  /** Every kept pair comes from some candidate. */
  lemma {:induction false} GreedyFromCandidates(ts: seq<Candidate>, p: (nat, nat))
    requires p in Greedy(ts)
    ensures exists t :: t in ts && (t.1, t.2) == p
    decreases |ts|
  {
    var n := |ts| - 1;
    var prev := Greedy(ts[..n]);
    if p in prev {
      GreedyFromCandidates(ts[..n], p);
      var t :| t in ts[..n] && (t.1, t.2) == p;
      assert t in ts;
    } else {
      assert (ts[n].1, ts[n].2) == p;
    }
  }

  /** The kept pairs are maximal: every candidate shares a carbon or an oxygen with one of them. */
  lemma {:induction false} GreedyMaximal(ts: seq<Candidate>, t: Candidate)
    requires t in ts
    ensures t.1 in Carbons(Greedy(ts)) || t.2 in Oxygens(Greedy(ts))
    decreases |ts|
  {
    var n := |ts| - 1;
    var prev := Greedy(ts[..n]);
    assert Carbons(prev) <= Carbons(Greedy(ts)) && Oxygens(prev) <= Oxygens(Greedy(ts));
    if t in ts[..n] {
      GreedyMaximal(ts[..n], t);
    } else {
      assert t == ts[n];
      if t.1 !in Carbons(prev) && t.2 !in Oxygens(prev) {
        assert (t.1, t.2) in Greedy(ts);
      }
    }
  }

  /** The first candidate is always kept, and it is the first pair. */
  lemma {:induction false} GreedyFirst(ts: seq<Candidate>)
    requires ts != []
    ensures |Greedy(ts)| >= 1 && Greedy(ts)[0] == (ts[0].1, ts[0].2)
    decreases |ts|
  {
    if |ts| > 1 {
      GreedyFirst(ts[..|ts| - 1]);
    }
  }

  /** Some two elements of the list differ. */
  predicate TwoDistinct(s: seq<nat>) {
    exists i, j :: 0 <= i < |s| && 0 <= j < |s| && s[i] != s[j]
  }

  lemma SortedCandidatesExactly(cs: seq<nat>, os: seq<nat>, dist: (nat, nat) -> real, t: Candidate)
    ensures t in SortBy(Candidates(cs, os, dist), CandidateLe) <==> t.1 in cs && t.2 in os && t.0 == dist(t.1, t.2)
  {
    var all := Candidates(cs, os, dist);
    var sorted := SortBy(all, CandidateLe);
    CandidatesExactly(cs, os, dist, t);
    assert t in sorted <==> t in multiset(sorted);
    assert t in all <==> t in multiset(all);
  }

  /** Each kept pair joins a carbon of the dihalogen to an oxygen of the diol. */
  lemma DiolPairsFromBonders(cs: seq<nat>, os: seq<nat>, dist: (nat, nat) -> real, p: (nat, nat))
    requires p in DiolPairs(cs, os, dist)
    ensures p.0 in cs && p.1 in os
  {
    var sorted := SortBy(Candidates(cs, os, dist), CandidateLe);
    GreedyFromCandidates(sorted, p);
    var t :| t in sorted && (t.1, t.2) == p;
    SortedCandidatesExactly(cs, os, dist, t);
  }

  /** No two pairs share a carbon or an oxygen. */
  lemma DiolPairsDisjoint(cs: seq<nat>, os: seq<nat>, dist: (nat, nat) -> real)
    ensures var p := DiolPairs(cs, os, dist);
      forall i, j :: 0 <= i < j < |p| ==> p[i].0 != p[j].0 && p[i].1 != p[j].1
  {
    GreedyDistinct(SortBy(Candidates(cs, os, dist), CandidateLe));
  }

  /** Two pairs found join two different carbons and two different oxygens. */
  lemma DiolPairsNeedDistinct(cs: seq<nat>, os: seq<nat>, dist: (nat, nat) -> real)
    requires |DiolPairs(cs, os, dist)| >= 2
    ensures TwoDistinct(cs) && TwoDistinct(os)
  {
    var sorted := SortBy(Candidates(cs, os, dist), CandidateLe);
    var pairs := Greedy(sorted);
    GreedyDistinct(sorted);
    DiolPairsFromBonders(cs, os, dist, pairs[0]);
    DiolPairsFromBonders(cs, os, dist, pairs[1]);
    var a :| 0 <= a < |cs| && cs[a] == pairs[0].0;
    var b :| 0 <= b < |cs| && cs[b] == pairs[1].0;
    var c :| 0 <= c < |os| && os[c] == pairs[0].1;
    var d :| 0 <= d < |os| && os[d] == pairs[1].1;
  }

  /** Two different carbons and two different oxygens always yield two pairs. */
  lemma DistinctGiveTwoPairs(cs: seq<nat>, os: seq<nat>, dist: (nat, nat) -> real)
    requires TwoDistinct(cs) && TwoDistinct(os)
    ensures |DiolPairs(cs, os, dist)| >= 2
  {
    var sorted := SortBy(Candidates(cs, os, dist), CandidateLe);
    var pairs := Greedy(sorted);
    var i1, j1 :| 0 <= i1 < |cs| && 0 <= j1 < |cs| && cs[i1] != cs[j1];
    var i2, j2 :| 0 <= i2 < |os| && 0 <= j2 < |os| && os[i2] != os[j2];
    var t0 := (dist(cs[i1], os[i2]), cs[i1], os[i2]);
    SortedCandidatesExactly(cs, os, dist, t0);
    GreedyFirst(sorted);
    var first := pairs[0];
    var c := if cs[i1] != first.0 then cs[i1] else cs[j1];
    var o := if os[i2] != first.1 then os[i2] else os[j2];
    var t := (dist(c, o), c, o);
    SortedCandidatesExactly(cs, os, dist, t);
    GreedyMaximal(sorted, t);
    if |pairs| == 1 {
      OnePairSets(pairs);
      assert false;
    }
  }

  /** A single pair takes one carbon and one oxygen. */
  lemma OnePairSets(pairs: seq<(nat, nat)>)
    requires |pairs| == 1
    ensures Carbons(pairs) == {pairs[0].0} && Oxygens(pairs) == {pairs[0].1}
  {
    assert forall p :: p in pairs <==> p == pairs[0];
  }

  /**
   * The reaction finds its two bonds exactly when the dihalogen has two
   * different carbon bonders and the diol two different oxygen bonders;
   * otherwise unpacking the pairs fails.
   */
  lemma DiolPairsSucceedIff(cs: seq<nat>, os: seq<nat>, dist: (nat, nat) -> real)
    ensures |DiolPairs(cs, os, dist)| >= 2 <==> TwoDistinct(cs) && TwoDistinct(os)
  {
    if |DiolPairs(cs, os, dist)| >= 2 {
      DiolPairsNeedDistinct(cs, os, dist);
    }
    if TwoDistinct(cs) && TwoDistinct(os) {
      DistinctGiveTwoPairs(cs, os, dist);
    }
  }

  /** The first pair bonded is the closest carbon/oxygen combination. */
  lemma DiolFirstPairClosest(cs: seq<nat>, os: seq<nat>, dist: (nat, nat) -> real, c: nat, o: nat)
    requires c in cs && o in os
    ensures |DiolPairs(cs, os, dist)| >= 1
    ensures dist(DiolPairs(cs, os, dist)[0].0, DiolPairs(cs, os, dist)[0].1) <= dist(c, o)
  {
    var sorted := SortBy(Candidates(cs, os, dist), CandidateLe);
    var t := (dist(c, o), c, o);
    SortedCandidatesExactly(cs, os, dist, t);
    var k :| 0 <= k < |sorted| && sorted[k] == t;
    GreedyFirst(sorted);
    CandidateLeIsTotalOrder();
    SortBySorted(Candidates(cs, os, dist), CandidateLe);
    assert CandidateLe(sorted[0], sorted[k]) by {
      if k > 0 {
        assert SortedBy(sorted, CandidateLe);
      }
    }
    assert sorted[0] in sorted;
    SortedCandidatesExactly(cs, os, dist, sorted[0]);
  }

  // ---------------------------------------------------------------------
  // Ring amine with ring amine: three joiner carbons and six hydrogens
  // ---------------------------------------------------------------------

  /** Some atom of the list is of element `z`. */
  predicate HasElement(atoms: seq<Atom>, z: nat) {
    exists i :: 0 <= i < |atoms| && atoms[i].atomicNumber == z
  }

  /** The first atom of the list with the given atomic number, as `next(...)` finds it. */
  function FirstOfElement(atoms: seq<Atom>, z: nat): (r: Option<Atom>)
    ensures r.None? <==> forall i :: 0 <= i < |atoms| ==> atoms[i].atomicNumber != z
    ensures r.Some? ==> exists k :: 0 <= k < |atoms| && atoms[k] == r.value && r.value.atomicNumber == z
                                    && forall i :: 0 <= i < k ==> atoms[i].atomicNumber != z
  {
    if atoms == [] then None
    else if atoms[0].atomicNumber == z then Some(atoms[0])
    else
      var r := FirstOfElement(atoms[1..], z);
      if r.Some? then
        var k :| 0 <= k < |atoms[1..]| && atoms[1..][k] == r.value && r.value.atomicNumber == z
                 && forall i :: 0 <= i < k ==> atoms[1..][i].atomicNumber != z;
        assert atoms[k + 1] == r.value;
        r
      else r
  }

  function Mid(a: Pos, b: Pos): Pos {
    Pos((a.x + b.x) / 2.0, (a.y + b.y) / 2.0, (a.z + b.z) / 2.0)
  }

  /** A position shifted along the z axis. */
  function Lift(p: Pos, dz: real): Pos {
    Pos(p.x, p.y, p.z + dz)
  }

  /**
   * Rows of the nine new atoms, given the positions of the two nitrogens
   * and the two carbons: each joiner carbon midway between two atoms, its
   * hydrogens one unit above and below it.
   */
  function JoinerRows(n1: Pos, n2: Pos, c1: Pos, c2: Pos): (rows: seq<Pos>)
    ensures |rows| == 9
    ensures rows[0] == Mid(n1, n2) && rows[3] == Mid(c1, n2) && rows[6] == Mid(c2, n1)
  {
    JoinerRowTriple(Mid(n1, n2)) + JoinerRowTriple(Mid(c1, n2)) + JoinerRowTriple(Mid(c2, n1))
  }

  /** The rows of one joiner carbon at `centre` and of its two hydrogens. */
  function JoinerRowTriple(centre: Pos): seq<Pos> {
    [centre, Lift(centre, 1.0), Lift(centre, -1.0)]
  }

  /** The nine new atoms, numbered from `start`: each joiner carbon followed by its two hydrogens. */
  function JoinerAtoms(start: nat): (atoms: seq<Atom>)
    ensures |atoms| == 9
  {
    JoinerTriple(start) + JoinerTriple(start + 3) + JoinerTriple(start + 6)
  }

  /** The new atoms are numbered consecutively from `start`; every third one, from the first, is a carbon. */
  lemma JoinerAtomsNumbered(start: nat)
    ensures forall k :: 0 <= k < 9 ==> JoinerAtoms(start)[k].id == start + k
    ensures forall k :: 0 <= k < 9 ==> JoinerAtoms(start)[k].atomicNumber == if k % 3 == 0 then 6 else 1
  {
    var atoms := JoinerAtoms(start);
    assert atoms == [Atom(start, 6), Atom(start + 1, 1), Atom(start + 2, 1),
                     Atom(start + 3, 6), Atom(start + 4, 1), Atom(start + 5, 1),
                     Atom(start + 6, 6), Atom(start + 7, 1), Atom(start + 8, 1)];
  }

  /** One joiner carbon numbered `j` and its two hydrogens `j + 1`, `j + 2`. */
  function JoinerTriple(j: nat): seq<Atom> {
    [Atom(j, 6), Atom(j + 1, 1), Atom(j + 2, 1)]
  }

  /** A joiner carbon `j` bonded to two existing atoms and to its two hydrogens `j + 1`, `j + 2`. */
  function JoinerGroup(a: nat, b: nat, j: nat): seq<Bond> {
    [Bond(a, j, 1), Bond(b, j, 1), Bond(j, j + 1, 1), Bond(j, j + 2, 1)]
  }

  /** The twelve single bonds joining the two rings through the new atoms. */
  function JoinerBonds(c1: nat, n1: nat, c2: nat, n2: nat, start: nat): (bonds: seq<Bond>)
    ensures |bonds| == 12
  {
    JoinerGroup(n1, n2, start) + JoinerGroup(c1, n2, start + 3) + JoinerGroup(c2, n1, start + 6)
  }

  /** The twelve bonds are all single, none of them periodic. */
  lemma JoinerBondsSingle(c1: nat, n1: nat, c2: nat, n2: nat, start: nat)
    ensures forall i :: 0 <= i < 12 ==> JoinerBonds(c1, n1, c2, n2, start)[i].Bond? && JoinerBonds(c1, n1, c2, n2, start)[i].order == 1
  {
    var bonds := JoinerBonds(c1, n1, c2, n2, start);
    forall i | 0 <= i < 12 ensures bonds[i].Bond? && bonds[i].order == 1 {
      if i < 4 {
        assert bonds[i] == JoinerGroup(n1, n2, start)[i];
      } else if i < 8 {
        assert bonds[i] == JoinerGroup(c1, n2, start + 3)[i - 4];
      } else {
        assert bonds[i] == JoinerGroup(c2, n1, start + 6)[i - 8];
      }
    }
  }

  /** How many of the bonds have the atom as an endpoint. */
  function Degree(bonds: seq<Bond>, id: nat): nat
    decreases |bonds|
  {
    if bonds == [] then 0
    else (if bonds[0].atom1 == id || bonds[0].atom2 == id then 1 else 0) + Degree(bonds[1..], id)
  }

  lemma {:induction false} DegreeAppend(a: seq<Bond>, b: seq<Bond>, id: nat)
    ensures Degree(a + b, id) == Degree(a, id) + Degree(b, id)
    decreases |a|
  {
    if a != [] {
      assert (a + b)[0] == a[0] && (a + b)[1..] == a[1..] + b;
      DegreeAppend(a[1..], b, id);
    } else {
      assert a + b == b;
    }
  }

  lemma GroupDegree(a: nat, b: nat, j: nat, id: nat)
    requires a != id && b != id
    ensures Degree(JoinerGroup(a, b, j), id) == if id == j then 4 else if id == j + 1 || id == j + 2 then 1 else 0
  {
    var h2 := [Bond(j, j + 2, 1)];
    var h1 := [Bond(j, j + 1, 1)] + h2;
    var nb := [Bond(b, j, 1)] + h1;
    assert JoinerGroup(a, b, j) == [Bond(a, j, 1)] + nb;
    assert h2[1..] == [] && h1[1..] == h2 && nb[1..] == h1 && ([Bond(a, j, 1)] + nb)[1..] == nb;
    assert Degree(h2, id) == if id == j || id == j + 2 then 1 else 0;
    assert Degree(h1, id) == Degree(h2, id) + if id == j || id == j + 1 then 1 else 0;
    assert Degree(nb, id) == Degree(h1, id) + if id == j then 1 else 0;
  }

  /**
   * The new atoms get chemically sensible valences: each joiner carbon four
   * bonds, each hydrogen one.
   */
  lemma JoinerValences(c1: nat, n1: nat, c2: nat, n2: nat, start: nat, k: nat)
    requires c1 < start && n1 < start && c2 < start && n2 < start
    requires k < 9
    ensures Degree(JoinerBonds(c1, n1, c2, n2, start), start + k) == if k % 3 == 0 then 4 else 1
  {
    var id := start + k;
    var g1, g2, g3 := JoinerGroup(n1, n2, start), JoinerGroup(c1, n2, start + 3), JoinerGroup(c2, n1, start + 6);
    DegreeAppend(g1 + g2, g3, id);
    DegreeAppend(g1, g2, id);
    GroupDegree(n1, n2, start, id);
    GroupDegree(c1, n2, start + 3, id);
    GroupDegree(c2, n1, start + 6, id);
  }

  /**
   * Geometry agrees with the bonds: each joiner carbon's row is the midpoint
   * of the positions of the two existing atoms it is bonded to.
   */
  predicate JoinersBetweenPartners(bonds: seq<Bond>, rows: seq<Pos>, start: nat, coord: nat -> Pos)
    requires |rows| == 9
  {
    forall k, p, q :: k in {0, 3, 6} && 0 <= p < q < |bonds|
      && bonds[p].atom2 == start + k && bonds[q].atom2 == start + k
      && bonds[p].atom1 < start && bonds[q].atom1 < start
      ==> rows[k] == Mid(coord(bonds[p].atom1), coord(bonds[q].atom1))
  }

  /** The rows the reaction means to add: the coordinates taken in the order the atoms are named. */
  function RingAmineRows(c1: nat, n1: nat, c2: nat, n2: nat, coord: nat -> Pos): (rows: seq<Pos>)
    ensures |rows| == 9
  {
    JoinerRows(coord(n1), coord(n2), coord(c1), coord(c2))
  }

  lemma RingAmineRowsConsistent(c1: nat, n1: nat, c2: nat, n2: nat, start: nat, coord: nat -> Pos)
    requires c1 < start && n1 < start && c2 < start && n2 < start
    ensures JoinersBetweenPartners(JoinerBonds(c1, n1, c2, n2, start), RingAmineRows(c1, n1, c2, n2, coord), start, coord)
  {
  }

  /**
   * The rows as the source computes them: the coordinates are requested for
   * (c1, n1, c2, n2) but unpacked as (n1, n2, c1, c2).
   */
  function RingAmineRowsAsWritten(c1: nat, n1: nat, c2: nat, n2: nat, coord: nat -> Pos): (rows: seq<Pos>)
    ensures |rows| == 9
  {
    var coords := [coord(c1), coord(n1), coord(c2), coord(n2)];
    JoinerRows(coords[0], coords[1], coords[2], coords[3])
  }

  /**
   * With the atoms on a line at x = 0, 1, 2, 3 (c1, n1, c2, n2), the joiner
   * meant to sit between the nitrogens (x = 2) is put between c1 and n1
   * (x = 0.5) instead.
   */
  lemma RingAmineRowsAsWrittenMisplaced()
    ensures var coord := (i: nat) => Pos(i as real, 0.0, 0.0);
      && RingAmineRowsAsWritten(0, 1, 2, 3, coord)[0] == Pos(0.5, 0.0, 0.0)
      && !JoinersBetweenPartners(JoinerBonds(0, 1, 2, 3, 4), RingAmineRowsAsWritten(0, 1, 2, 3, coord), 4, coord)
  {
    var coord := (i: nat) => Pos(i as real, 0.0, 0.0);
    var bonds := JoinerBonds(0, 1, 2, 3, 4);
    var rows := RingAmineRowsAsWritten(0, 1, 2, 3, coord);
    assert bonds[0].atom2 == 4 && bonds[1].atom2 == 4 && bonds[0].atom1 == 1 && bonds[1].atom1 == 3;
    assert rows[0] != Mid(coord(1), coord(3));
  }
}
