/**
 * `Reactor`: performs the reactions of a constructed molecule as staged
 * edits. Each reaction adds its bonds (and, for some custom reactions,
 * atoms and position rows) to the molecule at once and stages the ids of
 * atoms to delete; `finalize` then removes the staged atoms, every bond
 * touching them and their position rows, and reports how many bonds the
 * reactions made.
 *
 * Distances and coordinates come from the molecule's geometry; here they
 * are parameters (`dist`, `coord`).
 */
module Reactions {
  import opened Wrappers
  import opened Ordering
  import opened ReactionKeys
  import opened FunctionalGroups
  import opened ReactorSpecs
  import opened ReactorSteps

  /** The parts of a constructed molecule that reactions edit in place. */
  class Molecule {
    var atoms: seq<Atom>
    var bonds: seq<Bond>
    /** `_position_matrix`, one row per atom. */
    var positions: seq<Pos>

    constructor (atoms: seq<Atom>, bonds: seq<Bond>, positions: seq<Pos>)
      ensures this.atoms == atoms && this.bonds == bonds && this.positions == positions
    {
      this.atoms := atoms;
      this.bonds := bonds;
      this.positions := positions;
    }

    /** Appends a new atom numbered by the current atom count, and its position row. */
    method AddAtom(atomicNumber: nat, row: Pos) returns (a: Atom)
      modifies this
      ensures a == Atom(old(|atoms|), atomicNumber)
      ensures atoms == old(atoms) + [a] && positions == old(positions) + [row] && bonds == old(bonds)
    {
      a := Atom(|atoms|, atomicNumber);
      atoms := atoms + [a];
      positions := positions + [row];
    }

    /**
     * One joiner of `_ring_amine_with_ring_amine`: a carbon at `centre`
     * and two hydrogens one unit above and below it; returns the carbon's id.
     */
    method AddJoiner(centre: Pos) returns (joiner: nat)
      modifies this
      ensures joiner == old(|atoms|)
      ensures atoms == old(atoms) + JoinerTriple(joiner)
      ensures positions == old(positions) + JoinerRowTriple(centre)
      ensures bonds == old(bonds)
    {
      var c := AddAtom(6, centre);
      var h1 := AddAtom(1, Lift(centre, 1.0));
      var h2 := AddAtom(1, Lift(centre, -1.0));
      joiner := c.id;
    }

    /**
     * The body of `_ring_amine_with_ring_amine` once the four bonder atoms
     * are found: three joiners placed between (n1, n2), (c1, n2) and
     * (c2, n1), each atom at its own coordinates (the corrected
     * `RingAmineRows`, not the source's unpacking), then their twelve
     * single bonds.
     */
    method JoinRings(c1: nat, n1: nat, c2: nat, n2: nat, coord: nat -> Pos)
      modifies this
      ensures atoms == old(atoms) + JoinerAtoms(old(|atoms|))
      ensures positions == old(positions) + RingAmineRows(c1, n1, c2, n2, coord)
      ensures bonds == old(bonds) + JoinerBonds(c1, n1, c2, n2, old(|atoms|))
    {
      ghost var atoms0, positions0, bonds0 := atoms, positions, bonds;
      var c1Coord, n1Coord, c2Coord, n2Coord := coord(c1), coord(n1), coord(c2), coord(n2);
      var nJoiner := AddJoiner(Mid(n1Coord, n2Coord));
      var ncJoiner1 := AddJoiner(Mid(c1Coord, n2Coord));
      var ncJoiner2 := AddJoiner(Mid(c2Coord, n1Coord));
      bonds := bonds + [Bond(n1, nJoiner, 1), Bond(n2, nJoiner, 1), Bond(nJoiner, nJoiner + 1, 1), Bond(nJoiner, nJoiner + 2, 1)];
      bonds := bonds + [Bond(c1, ncJoiner1, 1), Bond(n2, ncJoiner1, 1), Bond(ncJoiner1, ncJoiner1 + 1, 1), Bond(ncJoiner1, ncJoiner1 + 2, 1)];
      bonds := bonds + [Bond(c2, ncJoiner2, 1), Bond(n1, ncJoiner2, 1), Bond(ncJoiner2, ncJoiner2 + 1, 1), Bond(ncJoiner2, ncJoiner2 + 2, 1)];
      ghost var start := |atoms0|;
      AppendThree(atoms0, JoinerTriple(start), JoinerTriple(start + 3), JoinerTriple(start + 6));
      AppendThree(positions0, JoinerRowTriple(Mid(n1Coord, n2Coord)), JoinerRowTriple(Mid(c1Coord, n2Coord)), JoinerRowTriple(Mid(c2Coord, n1Coord)));
      AppendThree(bonds0, JoinerGroup(n1, n2, start), JoinerGroup(c1, n2, start + 3), JoinerGroup(c2, n1, start + 6));
    }
  }

  /** The current values of the groups, in order. */
  function Views(fgs: seq<FunctionalGroup>): (views: seq<Found>)
    reads set fg | fg in fgs
    ensures |views| == |fgs|
    ensures forall k :: 0 <= k < |fgs| ==> views[k] == fgs[k].View()
  {
    if fgs == [] then [] else Views(fgs[..|fgs| - 1]) + [fgs[|fgs| - 1].View()]
  }

  /** The ids the groups hold, in order. */
  function GroupIds(fgs: seq<FunctionalGroup>): (ids: seq<Option<nat>>)
    reads set fg | fg in fgs
    ensures |ids| == |fgs| && forall k :: 0 <= k < |fgs| ==> ids[k] == fgs[k].id
  {
    seq(|fgs|, k requires 0 <= k < |fgs| reads fgs => fgs[k].id)
  }

  /** The first `k` groups are staged, the others untouched. */
  ghost predicate StagedUpTo(fgs: seq<FunctionalGroup>, before: seq<Found>, staged: set<nat>, shrink: bool, k: nat)
    reads set fg | fg in fgs
  {
    |before| == |fgs| && k <= |fgs| &&
    forall p :: 0 <= p < |fgs| ==>
      fgs[p].View() == if p < k then StageOne(before[p], StagedIds(staged, before, p + 1), shrink) else before[p]
  }

  /** Appending three pieces one after another appends their concatenation. */
  lemma AppendThree<T>(a: seq<T>, x: seq<T>, y: seq<T>, z: seq<T>)
    ensures a + x + y + z == a + (x + y + z)
  {
  }

  lemma ViewsOfPair(fgs: seq<FunctionalGroup>)
    requires |fgs| == 2
    ensures Views(fgs) == [fgs[0].View(), fgs[1].View()]
  {
  }

  class Reactor {
    /** The molecule the reactions edit. */
    const mol: Molecule
    /** `_deleter_ids`: atoms to remove when the reactions are finalized. */
    var deleterIds: set<nat>
    /** `_bonds_made`: how many bonds the reactions have added. */
    var bondsMade: nat

    /** The reactor and its molecule as the value the reaction steps work on. */
    ghost function State(): ReactorState
      reads this, mol
    {
      ReactorState(deleterIds, bondsMade, mol.atoms, mol.bonds, mol.positions)
    }

    constructor (mol: Molecule)
      ensures this.mol == mol
      ensures State() == ReactorState({}, 0, mol.atoms, mol.bonds, mol.positions)
    {
      this.mol := mol;
      deleterIds := {};
      bondsMade := 0;
    }

    /**
     * The loop the reactions open with: stage each group's deleter ids,
     * optionally drop the staged atoms from the group, and clear its deleters.
     */
    method Stage(fgs: seq<FunctionalGroup>, shrink: bool)
      requires NoDup(fgs)
      modifies this, set fg | fg in fgs
      ensures Views(fgs) == StageAll(old(Views(fgs)), old(deleterIds), shrink)
      ensures deleterIds == StagedIds(old(deleterIds), old(Views(fgs)), |fgs|)
      ensures bondsMade == old(bondsMade)
      ensures forall k :: 0 <= k < |fgs| ==> fgs[k].id == old(fgs[k].id)
    {
      ghost var before := Views(fgs);
      StageEach(fgs, shrink, before, deleterIds, GroupIds(fgs), bondsMade);
      StagedAllOf(before, old(deleterIds), shrink, Views(fgs));
    }

    /**
     * Where the staging loop stands after `k` groups: the ids staged so far,
     * the first `k` groups staged, and the group ids and bond count as they
     * were.
     */
    ghost predicate Staging(fgs: seq<FunctionalGroup>, before: seq<Found>, staged: set<nat>, shrink: bool,
                            ids: seq<Option<nat>>, bonds: nat, k: nat)
      reads this, set fg | fg in fgs
    {
      StagedUpTo(fgs, before, staged, shrink, k) && deleterIds == StagedIds(staged, before, k) &&
      GroupIds(fgs) == ids && bondsMade == bonds
    }

    /** The staging loop itself: each group in turn is staged. */
    method StageEach(fgs: seq<FunctionalGroup>, shrink: bool, ghost before: seq<Found>, ghost staged: set<nat>,
                     ghost ids: seq<Option<nat>>, ghost bonds: nat)
      requires NoDup(fgs) && Staging(fgs, before, staged, shrink, ids, bonds, 0)
      modifies this, set fg | fg in fgs
      ensures Staging(fgs, before, staged, shrink, ids, bonds, |fgs|)
    {
      var k := 0;
      while k < |fgs|
        invariant k <= |fgs| && Staging(fgs, before, staged, shrink, ids, bonds, k)
      {
        StageGroup(fgs, k, shrink, before, staged, ids, bonds);
        k := k + 1;
      }
    }

    /** One pass of the staging loop, on the `k`-th group; the other groups are left alone. */
    method StageGroup(fgs: seq<FunctionalGroup>, k: nat, shrink: bool, ghost before: seq<Found>, ghost staged: set<nat>,
                      ghost ids: seq<Option<nat>>, ghost bonds: nat)
      requires NoDup(fgs) && k < |fgs| && Staging(fgs, before, staged, shrink, ids, bonds, k)
      modifies this, fgs[k]
      ensures Staging(fgs, before, staged, shrink, ids, bonds, k + 1)
    {
      var fg := fgs[k];
      assert fg.View() == before[k];
      deleterIds := deleterIds + IdSet(fg.DeleterIds());
      if shrink {
        fg.atoms := Without(fg.atoms, deleterIds);
      }
      fg.deleters := [];
      assert fg.View() == StageOne(before[k], StagedIds(staged, before, k + 1), shrink);
      forall p | 0 <= p < |fgs| && p != k ensures fgs[p] != fg {
        assert fgs[p] != fgs[k];
      }
    }

    /**
     * `add_reaction`: run the custom procedure filed under the groups'
     * reaction key, or else the default reaction.
     */
    method AddReaction(fgs: seq<FunctionalGroup>, dist: (nat, nat) -> real, coord: nat -> Pos)
      returns (out: Outcome<ReactionError>)
      requires NoDup(fgs)
      modifies this, mol, set fg | fg in fgs
      ensures Step(out, State(), Views(fgs)) == ReactionStep(old(State()), old(Views(fgs)), dist, coord)
      ensures forall k :: 0 <= k < |fgs| ==> fgs[k].id == old(fgs[k].id)
    {
      ghost var s, groups := State(), Views(fgs);
      var names := NamesOf(Views(fgs));
      var key := MakeKey(names);
      var custom := CustomReactionFor(key);
      if custom.Some? {
        CustomReactionsArePairs(names);
        assert fgs == [fgs[0], fgs[1]];
        out := CustomReaction(fgs, custom.value, dist, coord);
        return;
      }
      DispatchDefault(s, groups, dist, coord);
      out := DefaultReaction(fgs, BondOrder(key));
    }

    /** The branch of `add_reaction` that runs the custom procedure filed under the key. */
    method CustomReaction(fgs: seq<FunctionalGroup>, reaction: CustomReaction, dist: (nat, nat) -> real, coord: nat -> Pos)
      returns (out: Outcome<ReactionError>)
      requires |fgs| == 2 && fgs[0] != fgs[1]
      requires CustomReactionFor(MakeKey(NamesOf(Views(fgs)))) == Some(reaction)
      modifies this, mol, fgs[0], fgs[1]
      ensures Step(out, State(), Views(fgs)) == ReactionStep(old(State()), old(Views(fgs)), dist, coord)
      ensures fgs[0].id == old(fgs[0].id) && fgs[1].id == old(fgs[1].id)
    {
      ghost var s, groups := State(), Views(fgs);
      ViewsOfPair(fgs);
      if reaction.DiolWithDihalogen? {
        DispatchDiol(s, groups, dist, coord, reaction.dihalogen);
        out := DiolWithDihalogen(fgs[0], fgs[1], reaction.dihalogen, dist);
      } else if reaction.BoronicAcidWithDiol? {
        DispatchBoronic(s, groups, dist, coord);
        out := BoronicAcidWithDiol(fgs[0], fgs[1]);
      } else {
        DispatchRingAmine(s, groups, dist, coord);
        out := RingAmineWithRingAmine(fgs[0], fgs[1], coord);
      }
      ViewsOfPair(fgs);
    }

    /**
     * The rest of `add_reaction` when no custom procedure is filed: stage
     * and shrink the groups, unpack two of them and bond their first
     * bonders with a bond of the given order.
     */
    method DefaultReaction(fgs: seq<FunctionalGroup>, order: nat) returns (out: Outcome<ReactionError>)
      requires NoDup(fgs)
      modifies this, mol, set fg | fg in fgs
      ensures Step(out, State(), Views(fgs)) == DefaultStep(old(State()), old(Views(fgs)), order)
      ensures forall k :: 0 <= k < |fgs| ==> fgs[k].id == old(fgs[k].id)
    {
      ghost var s, groups := State(), Views(fgs);
      Stage(fgs, true);
      ghost var t, after := StagedAfter(s, groups), StageAll(groups, s.staged, true);
      assert State() == t;
      if |fgs| != 2 {
        assert DefaultStep(s, groups, order) == Step(Fail(ValueError), t, after);
        return Fail(ValueError);
      }
      var fg1, fg2 := fgs[0], fgs[1];
      assert fg1.bonders == after[0].bonders && fg2.bonders == after[1].bonders;
      if |fg1.bonders| == 0 || |fg2.bonders| == 0 {
        assert DefaultStep(s, groups, order) == Step(Fail(ReactionError.IndexError), t, after);
        return Fail(ReactionError.IndexError);
      }
      var bond := Bond(fg1.bonders[0].id, fg2.bonders[0].id, order);
      mol.bonds := mol.bonds + [bond];
      bondsMade := bondsMade + 1;
      out := Pass;
      assert State() == t.(made := s.made + 1, bonds := s.bonds + [bond]);
      assert DefaultStep(s, groups, order) == Step(Pass, State(), after);
    }

    /**
     * `add_periodic_reaction`: like the default reaction, but the groups'
     * atoms are not shrunk and the bond is periodic along `direction`. The
     * table of periodic custom reactions is empty, so the default path is
     * always taken.
     */
    method AddPeriodicReaction(direction: seq<int>, fgs: seq<FunctionalGroup>)
      returns (out: Outcome<ReactionError>)
      requires NoDup(fgs)
      modifies this, mol, set fg | fg in fgs
      ensures Step(out, State(), Views(fgs)) == PeriodicStep(old(State()), old(Views(fgs)), direction)
      ensures forall k :: 0 <= k < |fgs| ==> fgs[k].id == old(fgs[k].id)
    {
      var order := BondOrder(MakeKey(NamesOf(Views(fgs))));
      out := PeriodicReaction(direction, fgs, order);
    }

    /**
     * The rest of `add_periodic_reaction` once the bond order is known:
     * stage the groups, unpack two of them and bond their first bonders
     * periodically.
     */
    method PeriodicReaction(direction: seq<int>, fgs: seq<FunctionalGroup>, order: nat)
      returns (out: Outcome<ReactionError>)
      requires NoDup(fgs)
      modifies this, mol, set fg | fg in fgs
      ensures Step(out, State(), Views(fgs)) == PeriodicBondStep(old(State()), old(Views(fgs)), order, direction)
      ensures forall k :: 0 <= k < |fgs| ==> fgs[k].id == old(fgs[k].id)
    {
      ghost var s, groups := State(), Views(fgs);
      Stage(fgs, false);
      ghost var t, after := StagedAfter(s, groups), StageAll(groups, s.staged, false);
      assert State() == t;
      if |fgs| != 2 {
        return Fail(ValueError);
      }
      var fg1, fg2 := fgs[0], fgs[1];
      assert fg1.bonders == after[0].bonders && fg2.bonders == after[1].bonders;
      if |fg1.bonders| == 0 || |fg2.bonders| == 0 {
        return Fail(ReactionError.IndexError);
      }
      var bond := PeriodicBond(fg1.bonders[0].id, fg2.bonders[0].id, order, direction);
      mol.bonds := mol.bonds + [bond];
      bondsMade := bondsMade + 1;
      out := Pass;
      assert State() == t.(made := s.made + 1, bonds := s.bonds + [bond]);
    }

    /**
     * `finalize`: remove the staged atoms, every bond touching one of them
     * and their position rows; return the number of bonds made.
     */
    method Finalize() returns (made: nat)
      modifies mol
      ensures State() == Finalized(old(State()))
      ensures made == bondsMade
    {
      mol.atoms := Without(mol.atoms, deleterIds);
      mol.bonds := BondsWithout(mol.bonds, deleterIds);
      mol.positions := RowsWithout(mol.positions, deleterIds);
      return bondsMade;
    }

    /**
     * `_diol_with_dihalogen`. The `dihalogen` argument the table binds is
     * overwritten before it is read, as in the source.
     */
    method DiolWithDihalogen(fg1: FunctionalGroup, fg2: FunctionalGroup, dihalogen: string, dist: (nat, nat) -> real)
      returns (out: Outcome<ReactionError>)
      modifies this, mol
      ensures Step(out, State(), [fg1.View(), fg2.View()]) == DiolStep(old(State()), old([fg1.View(), fg2.View()]), dist)
      ensures fg1.id == old(fg1.id) && fg2.id == old(fg2.id)
    {
      ghost var s, groups := State(), [fg1.View(), fg2.View()];
      var diol := if fg1.fgType.name == Diol then fg1 else fg2;
      var dihalogen := if diol == fg1 then fg2 else fg1;
      assert diol.View() == if groups[0].fgType.name == Diol then groups[0] else groups[1];
      assert dihalogen.View() == if groups[0].fgType.name == Diol then groups[1] else groups[0];
      var pairs := ClosestPairs(dihalogen.BonderIds(), diol.BonderIds(), dist);
      if |pairs| < 2 {
        return Fail(ValueError);
      }
      var (c1, o1) := pairs[0];
      var (c2, o2) := pairs[1];
      mol.bonds := mol.bonds + [Bond(c1, o1, 1)];
      mol.bonds := mol.bonds + [Bond(c2, o2, 1)];
      bondsMade := bondsMade + 2;
      out := Pass;
      assert mol.bonds == s.bonds + [Bond(pairs[0].0, pairs[0].1, 1), Bond(pairs[1].0, pairs[1].1, 1)];
      assert State() == s.(made := s.made + 2, bonds := mol.bonds);
    }

    /** `_boronic_acid_with_diol` */
    method BoronicAcidWithDiol(fg1: FunctionalGroup, fg2: FunctionalGroup)
      returns (out: Outcome<ReactionError>)
      requires fg1 != fg2
      modifies this, mol, fg1, fg2
      ensures Step(out, State(), [fg1.View(), fg2.View()]) == BoronicStep(old(State()), old([fg1.View(), fg2.View()]))
      ensures fg1.id == old(fg1.id) && fg2.id == old(fg2.id)
    {
      ghost var s, groups := State(), [fg1.View(), fg2.View()];
      assert Views([fg1, fg2]) == groups;
      Stage([fg1, fg2], true);
      ghost var after := StageAll(groups, s.staged, true);
      ghost var t := StagedAfter(s, groups);
      assert [fg1.View(), fg2.View()] == after by {
        assert Views([fg1, fg2]) == after;
      }
      var boron := if fg1.fgType.name == BoronicAcid then fg1 else fg2;
      var diol := if boron == fg1 then fg2 else fg1;
      assert boron.View() == if after[0].fgType.name == BoronicAcid then after[0] else after[1];
      assert diol.View() == if after[0].fgType.name == BoronicAcid then after[1] else after[0];
      if |boron.bonders| == 0 || |diol.bonders| == 0 {
        assert State() == t;
        assert BoronicStep(s, groups) == Step(Fail(ReactionError.IndexError), t, after);
        return Fail(ReactionError.IndexError);
      }
      var boronAtom := boron.bonders[0];
      var first := Bond(boronAtom.id, diol.bonders[0].id, 1);
      mol.bonds := mol.bonds + [first];
      ghost var withFirst := State();
      assert withFirst == t.(bonds := s.bonds + [first]);
      if |diol.bonders| < 2 {
        assert BoronicStep(s, groups) == Step(Fail(ReactionError.IndexError), withFirst, after);
        return Fail(ReactionError.IndexError);
      }
      var second := Bond(boronAtom.id, diol.bonders[1].id, 1);
      mol.bonds := mol.bonds + [second];
      bondsMade := bondsMade + 2;
      out := Pass;
      assert s.bonds + [first] + [second] == s.bonds + [first, second];
      assert State() == t.(made := s.made + 2, bonds := s.bonds + [first, second]);
      assert BoronicStep(s, groups) == Step(Pass, State(), after);
    }

    /**
     * `_ring_amine_with_ring_amine` with its rows placed by the corrected
     * `RingAmineRows`: each atom's coordinates are its own. The source's
     * unpacking of the coordinates, which places them differently, is
     * `RingAmineRowsAsWritten` and is not what this method performs.
     */
    method RingAmineWithRingAmine(fg1: FunctionalGroup, fg2: FunctionalGroup, coord: nat -> Pos)
      returns (out: Outcome<ReactionError>)
      modifies this, mol
      ensures Step(out, State(), [fg1.View(), fg2.View()]) == RingAmineStep(old(State()), old([fg1.View(), fg2.View()]), coord)
      ensures fg1.id == old(fg1.id) && fg2.id == old(fg2.id)
    {
      ghost var s := State();
      ghost var groups := [fg1.View(), fg2.View()];
      var c1 := FirstOfElement(fg1.bonders, 6);
      var n1 := FirstOfElement(fg1.bonders, 7);
      var c2 := FirstOfElement(fg2.bonders, 6);
      var n2 := FirstOfElement(fg2.bonders, 7);
      if c1.None? || n1.None? || c2.None? || n2.None? {
        return Fail(StopIteration);
      }
      mol.JoinRings(c1.value.id, n1.value.id, c2.value.id, n2.value.id, coord);
      bondsMade := bondsMade + 12;
      out := Pass;
      assert [fg1.View(), fg2.View()] == groups;
    }
  }

  /**
   * The pairing step of `_diol_with_dihalogen`: every carbon against every
   * oxygen, sorted by distance, then the closest pairs that share no atom.
   * The source asserts that the first two pairs share no atom; here that
   * holds of all the pairs.
   */
  method ClosestPairs(carbons: seq<nat>, oxygens: seq<nat>, dist: (nat, nat) -> real)
    returns (pairs: seq<(nat, nat)>)
    ensures pairs == DiolPairs(carbons, oxygens, dist)
    ensures forall i, j :: 0 <= i < j < |pairs| ==> pairs[i].0 != pairs[j].0 && pairs[i].1 != pairs[j].1
  {
    var distances := CandidatesOf(carbons, oxygens, dist);
    distances := SortBy(distances, CandidateLe);
    pairs := DedupePairs(distances);
    GreedyDistinct(distances);
  }

  /**
   * The nested loops of `_diol_with_dihalogen` that list every carbon
   * against every oxygen with its distance.
   */
  method CandidatesOf(carbons: seq<nat>, oxygens: seq<nat>, dist: (nat, nat) -> real)
    returns (distances: seq<Candidate>)
    ensures distances == Candidates(carbons, oxygens, dist)
  {
    distances := [];
    var i := 0;
    while i < |carbons|
      invariant i <= |carbons|
      invariant distances == Candidates(carbons[..i], oxygens, dist)
    {
      assert carbons[..i + 1][..i] == carbons[..i];
      ghost var before := distances;
      var j := 0;
      while j < |oxygens|
        invariant j <= |oxygens|
        invariant distances == before + CandidateRow(carbons[i], oxygens[..j], dist)
      {
        var d := dist(carbons[i], oxygens[j]);
        distances := distances + [(d, carbons[i], oxygens[j])];
        assert CandidateRow(carbons[i], oxygens[..j + 1], dist) == CandidateRow(carbons[i], oxygens[..j], dist) + [(d, carbons[i], oxygens[j])];
        j := j + 1;
      }
      assert oxygens[..|oxygens|] == oxygens;
      i := i + 1;
    }
    assert carbons[..|carbons|] == carbons;
  }

  /**
   * The deduplication loop of `_diol_with_dihalogen`: keep a pair when
   * neither its carbon nor its oxygen has been seen.
   */
  method DedupePairs(distances: seq<Candidate>) returns (pairs: seq<(nat, nat)>)
    ensures pairs == Greedy(distances)
  {
    pairs := [];
    var seenO, seenC: set<nat> := {}, {};
    var i := 0;
    while i < |distances|
      invariant i <= |distances|
      invariant pairs == Greedy(distances[..i])
      invariant seenC == Carbons(pairs) && seenO == Oxygens(pairs)
    {
      assert distances[..i + 1][..i] == distances[..i];
      var (d, c, o) := distances[i];
      if c !in seenC && o !in seenO {
        pairs := pairs + [(c, o)];
        seenC := seenC + {c};
        seenO := seenO + {o};
      }
      i := i + 1;
    }
    assert distances[..|distances|] == distances;
  }
}
