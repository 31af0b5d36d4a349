/**
 * The reactions of `Reactor` as pure steps: each takes the reactor's state
 * and the functional groups taking part, and gives the outcome, the new
 * state and the groups after the reaction. The methods of `Reactions.Reactor`
 * are proved to perform exactly these steps; the lemmas here state what
 * the steps guarantee.
 */
module ReactorSteps {
  import opened Wrappers
  import opened ReactionKeys
  import opened FunctionalGroups
  import opened ReactorSpecs

  /** Why a reaction can fail. */
  datatype ReactionError =
    | ValueError     // unpacking: not exactly two groups, or fewer than two carbon/oxygen pairs
    | IndexError     // a group has too few bonder atoms
    | StopIteration  // a ring amine without a carbon or a nitrogen bonder

  /**
   * What reactions change: the staged deleter ids, the count of bonds
   * made, and the molecule's atoms, bonds and position rows.
   */
  datatype ReactorState = ReactorState(staged: set<nat>, made: nat, atoms: seq<Atom>, bonds: seq<Bond>, positions: seq<Pos>)

  /** The outcome of a reaction, the state after it and the groups after it. */
  datatype Step = Step(out: Outcome<ReactionError>, state: ReactorState, groups: seq<Found>)

  function IdSet(ids: seq<nat>): set<nat> {
    set i | i in ids
  }

  /** The names of the groups' types, in order. */
  function NamesOf(groups: seq<Found>): (names: seq<string>)
    ensures |names| == |groups|
    ensures forall i :: 0 <= i < |groups| ==> names[i] == groups[i].fgType.name
  {
    seq(|groups|, i requires 0 <= i < |groups| => groups[i].fgType.name)
  }

  // ---------------------------------------------------------------------
  // Staging
  // ---------------------------------------------------------------------

  /** The ids staged once the first `k` groups have added the ids of their deleters to `before`. */
  function StagedIds(before: set<nat>, groups: seq<Found>, k: nat): (ids: set<nat>)
    requires k <= |groups|
    ensures before <= ids
  {
    if k == 0 then before else StagedIds(before, groups, k - 1) + IdSet(Ids(groups[k - 1].deleters))
  }

  /**
   * The groups after the staging loop that opens a reaction, given the ids
   * staged before it: each group's deleters are cleared and, when
   * `shrink`, its atoms lose every atom staged so far, its own deleters
   * included.
   */
  function StageAll(groups: seq<Found>, before: set<nat>, shrink: bool): (after: seq<Found>)
    ensures |after| == |groups|
  {
    seq(|groups|, k requires 0 <= k < |groups| => StageOne(groups[k], StagedIds(before, groups, k + 1), shrink))
  }

  /** Groups that are, one by one, the staged groups are the result of the whole staging loop. */
  lemma StagedAllOf(groups: seq<Found>, before: set<nat>, shrink: bool, views: seq<Found>)
    requires |views| == |groups|
    requires forall p :: 0 <= p < |groups| ==> views[p] == StageOne(groups[p], StagedIds(before, groups, p + 1), shrink)
    ensures views == StageAll(groups, before, shrink)
  {
  }

  lemma StageAllAt(groups: seq<Found>, before: set<nat>, shrink: bool, k: nat)
    requires k < |groups|
    ensures StageAll(groups, before, shrink)[k] == StageOne(groups[k], StagedIds(before, groups, k + 1), shrink)
  {
  }

  /** Staging leaves every group's bonders and type as they were. */
  lemma StageAllKeepsRoles(groups: seq<Found>, before: set<nat>, shrink: bool)
    ensures forall k :: 0 <= k < |groups| ==>
      StageAll(groups, before, shrink)[k].bonders == groups[k].bonders && StageAll(groups, before, shrink)[k].fgType == groups[k].fgType
  {
    forall k | 0 <= k < |groups|
      ensures StageAll(groups, before, shrink)[k].bonders == groups[k].bonders && StageAll(groups, before, shrink)[k].fgType == groups[k].fgType
    {
      StageAllAt(groups, before, shrink, k);
    }
  }

  /**
   * One pass of the staging loop, given every id staged once the group's
   * own deleters are: the group keeps its bonders and type, has no
   * deleters left and, when shrunk, keeps exactly its unstaged atoms.
   */
  function StageOne(group: Found, staged: set<nat>, shrink: bool): (r: Found)
    ensures r.bonders == group.bonders && r.deleters == [] && r.fgType == group.fgType
    ensures shrink ==> forall a :: a in r.atoms <==> a in group.atoms && a.id !in staged
    ensures !shrink ==> r.atoms == group.atoms
  {
    Found(if shrink then Without(group.atoms, staged) else group.atoms, group.bonders, [], group.fgType)
  }

  /** The staged ids are exactly those staged before and the ids of the deleters of the groups staged. */
  lemma {:induction false} StagedIdsExactly(before: set<nat>, groups: seq<Found>, k: nat, i: nat)
    requires k <= |groups|
    ensures i in StagedIds(before, groups, k) <==> i in before || exists p, a :: 0 <= p < k && a in groups[p].deleters && a.id == i
  {
    if k > 0 {
      StagedIdsExactly(before, groups, k - 1, i);
      var d := groups[k - 1].deleters;
      if i in IdSet(Ids(d)) {
        var j :| 0 <= j < |d| && Ids(d)[j] == i;
        assert d[j] in d;
      }
      if exists a :: a in d && a.id == i {
        var a :| a in d && a.id == i;
        var j :| 0 <= j < |d| && d[j] == a;
        assert Ids(d)[j] == i;
      }
    }
  }

  /** Staging only ever adds ids. */
  lemma {:induction false} StagedIdsGrow(before: set<nat>, groups: seq<Found>, k: nat)
    requires k <= |groups|
    ensures before <= StagedIds(before, groups, k)
  {
    if k > 0 {
      StagedIdsGrow(before, groups, k - 1);
    }
  }

  /**
   * After a shrinking stage no group holds an atom that it, or any group
   * staged before it, listed as a deleter; its bonders stay, and it has no
   * deleters left.
   */
  lemma StagingDropsDeleters(groups: seq<Found>, before: set<nat>, p: nat, k: nat, a: Atom)
    requires p <= k < |groups|
    requires a in groups[p].deleters
    ensures a !in StageAll(groups, before, true)[k].atoms
    ensures StageAll(groups, before, true)[k].deleters == []
    ensures StageAll(groups, before, true)[k].bonders == groups[k].bonders
  {
    StagedIdsExactly(before, groups, k + 1, a.id);
  }

  /** Staging keeps every atom that nothing staged so far names. */
  lemma StagingKeepsOthers(groups: seq<Found>, before: set<nat>, k: nat, a: Atom)
    requires k < |groups|
    requires a in groups[k].atoms && a.id !in before
    requires forall p, d :: 0 <= p <= k && d in groups[p].deleters ==> d.id != a.id
    ensures a in StageAll(groups, before, true)[k].atoms
  {
    StagedIdsExactly(before, groups, k + 1, a.id);
  }

  /** The ids staged by the loop, added to those staged before. */
  function StagedAfter(s: ReactorState, groups: seq<Found>): ReactorState {
    s.(staged := StagedIds(s.staged, groups, |groups|))
  }

  // ---------------------------------------------------------------------
  // The reactions
  // ---------------------------------------------------------------------

  /**
   * The default reaction of `add_reaction`: stage and shrink, unpack two
   * groups, and bond their first bonders with a bond of the given order.
   */
  function DefaultStep(s: ReactorState, groups: seq<Found>, order: nat): (r: Step)
    ensures r.state.atoms == s.atoms && r.state.positions == s.positions
    ensures r.out.Pass? <==> |groups| == 2 && |groups[0].bonders| > 0 && |groups[1].bonders| > 0
    ensures r.out.Pass? ==> r.state.made == s.made + 1 && |r.state.bonds| == |s.bonds| + 1
    ensures r.out.Fail? ==> r.state.made == s.made && r.state.bonds == s.bonds
  {
    StageAllKeepsRoles(groups, s.staged, true);
    var after := StageAll(groups, s.staged, true);
    var t := StagedAfter(s, groups);
    if |after| != 2 then Step(Fail(ValueError), t, after)
    else if |after[0].bonders| == 0 || |after[1].bonders| == 0 then Step(Fail(ReactionError.IndexError), t, after)
    else
      var bond := Bond(after[0].bonders[0].id, after[1].bonders[0].id, order);
      Step(Pass, t.(made := s.made + 1, bonds := s.bonds + [bond]), after)
  }

  /**
   * `add_periodic_reaction`: stage without shrinking, unpack two groups,
   * and bond their first bonders with a periodic bond. The table of
   * periodic custom reactions is empty, so there is no dispatch.
   */
  function PeriodicStep(s: ReactorState, groups: seq<Found>, direction: seq<int>): (r: Step)
    ensures r.state.atoms == s.atoms && r.state.positions == s.positions
    ensures r.out.Pass? <==> |groups| == 2 && |groups[0].bonders| > 0 && |groups[1].bonders| > 0
    ensures r.out.Pass? ==> r.state.made == s.made + 1 && |r.state.bonds| == |s.bonds| + 1
    ensures r.out.Fail? ==> r.state.made == s.made && r.state.bonds == s.bonds
  {
    PeriodicBondStep(s, groups, BondOrder(MakeKey(NamesOf(groups))), direction)
  }

  /** The periodic reaction once the bond order has been looked up. */
  function PeriodicBondStep(s: ReactorState, groups: seq<Found>, order: nat, direction: seq<int>): (r: Step)
    ensures r.state.atoms == s.atoms && r.state.positions == s.positions
    ensures r.out.Pass? <==> |groups| == 2 && |groups[0].bonders| > 0 && |groups[1].bonders| > 0
    ensures r.out.Pass? ==> r.state.made == s.made + 1 && |r.state.bonds| == |s.bonds| + 1
    ensures r.out.Fail? ==> r.state.made == s.made && r.state.bonds == s.bonds
  {
    StageAllKeepsRoles(groups, s.staged, false);
    var after := StageAll(groups, s.staged, false);
    var t := StagedAfter(s, groups);
    if |after| != 2 then Step(Fail(ValueError), t, after)
    else if |after[0].bonders| == 0 || |after[1].bonders| == 0 then Step(Fail(ReactionError.IndexError), t, after)
    else
      var bond := PeriodicBond(after[0].bonders[0].id, after[1].bonders[0].id, order, direction);
      Step(Pass, t.(made := s.made + 1, bonds := s.bonds + [bond]), after)
  }

  /**
   * `_boronic_acid_with_diol`: stage and shrink both groups, then bond the
   * boron to the diol's first and second bonders. A diol with one bonder
   * fails after the first bond is added, and that bond is not counted.
   */
  function BoronicStep(s: ReactorState, groups: seq<Found>): (r: Step)
    requires |groups| == 2
    ensures r.state.atoms == s.atoms && r.state.positions == s.positions
    ensures var (boron, diol) := if groups[0].fgType.name == BoronicAcid then (groups[0], groups[1]) else (groups[1], groups[0]);
      r.out.Pass? <==> |boron.bonders| > 0 && |diol.bonders| >= 2
    ensures r.out.Pass? ==> r.state.made == s.made + 2 && |r.state.bonds| == |s.bonds| + 2
    ensures r.out.Fail? ==> r.state.made == s.made
  {
    StageAllKeepsRoles(groups, s.staged, true);
    var after := StageAll(groups, s.staged, true);
    var t := StagedAfter(s, groups);
    var (boron, diol) := if after[0].fgType.name == BoronicAcid then (after[0], after[1]) else (after[1], after[0]);
    if |boron.bonders| == 0 || |diol.bonders| == 0 then Step(Fail(ReactionError.IndexError), t, after)
    else
      var first := Bond(boron.bonders[0].id, diol.bonders[0].id, 1);
      if |diol.bonders| == 1 then Step(Fail(ReactionError.IndexError), t.(bonds := s.bonds + [first]), after)
      else
        var second := Bond(boron.bonders[0].id, diol.bonders[1].id, 1);
        Step(Pass, t.(made := s.made + 2, bonds := s.bonds + [first, second]), after)
  }

  /**
   * `_diol_with_dihalogen`: nothing is staged; the first two pairs of the
   * greedy carbon/oxygen pairing get single bonds. The bonds are the
   * corrected ones, whose endpoints `finalize` can read like any other;
   * the source builds them from bare ids (`DiolHeldBonds`).
   */
  function DiolStep(s: ReactorState, groups: seq<Found>, dist: (nat, nat) -> real): (r: Step)
    requires |groups| == 2
    ensures r.state.atoms == s.atoms && r.state.positions == s.positions && r.state.staged == s.staged && r.groups == groups
    ensures var (diol, dihalogen) := if groups[0].fgType.name == Diol then (groups[0], groups[1]) else (groups[1], groups[0]);
      r.out.Pass? <==> TwoDistinct(Ids(dihalogen.bonders)) && TwoDistinct(Ids(diol.bonders))
    ensures r.out.Pass? ==> r.state.made == s.made + 2 && |r.state.bonds| == |s.bonds| + 2
    ensures r.out.Fail? ==> r.state == s
  {
    var (diol, dihalogen) := if groups[0].fgType.name == Diol then (groups[0], groups[1]) else (groups[1], groups[0]);
    var pairs := DiolPairs(Ids(dihalogen.bonders), Ids(diol.bonders), dist);
    DiolPairsSucceedIff(Ids(dihalogen.bonders), Ids(diol.bonders), dist);
    if |pairs| < 2 then Step(Fail(ValueError), s, groups)
    else
      var bonds := [Bond(pairs[0].0, pairs[0].1, 1), Bond(pairs[1].0, pairs[1].1, 1)];
      Step(Pass, s.(made := s.made + 2, bonds := s.bonds + bonds), groups)
  }

  /**
   * `_ring_amine_with_ring_amine`, its rows placed by the corrected
   * `RingAmineRows` rather than the source's unpacking of the coordinates:
   * nothing is staged; nine new atoms with their rows and twelve single
   * bonds join the first carbon and nitrogen bonders of the two groups.
   */
  function RingAmineStep(s: ReactorState, groups: seq<Found>, coord: nat -> Pos): (r: Step)
    requires |groups| == 2
    ensures r.state.staged == s.staged && r.groups == groups
    ensures r.out.Pass? <==>
      && HasElement(groups[0].bonders, 6) && HasElement(groups[0].bonders, 7)
      && HasElement(groups[1].bonders, 6) && HasElement(groups[1].bonders, 7)
    ensures r.out.Pass? ==>
      && r.state.made == s.made + 12 && |r.state.bonds| == |s.bonds| + 12
      && |r.state.atoms| == |s.atoms| + 9 && |r.state.positions| == |s.positions| + 9
    ensures r.out.Fail? ==> r.state == s
  {
    var c1, n1 := FirstOfElement(groups[0].bonders, 6), FirstOfElement(groups[0].bonders, 7);
    var c2, n2 := FirstOfElement(groups[1].bonders, 6), FirstOfElement(groups[1].bonders, 7);
    if c1.None? || n1.None? || c2.None? || n2.None? then Step(Fail(StopIteration), s, groups)
    else
      var start := |s.atoms|;
      var (c1, n1, c2, n2) := (c1.value.id, n1.value.id, c2.value.id, n2.value.id);
      Step(Pass,
           s.(made := s.made + 12,
              atoms := s.atoms + JoinerAtoms(start),
              positions := s.positions + RingAmineRows(c1, n1, c2, n2, coord),
              bonds := s.bonds + JoinerBonds(c1, n1, c2, n2, start)),
           groups)
  }

  /**
   * `add_reaction`: the custom procedure filed under the groups' reaction
   * key, or else the default reaction with the key's bond order.
   */
  function ReactionStep(s: ReactorState, groups: seq<Found>, dist: (nat, nat) -> real, coord: nat -> Pos): (r: Step)
    ensures r.out.Pass? ==> r.state.made > s.made
    ensures r.out.Fail? ==> r.state.made == s.made && r.state.atoms == s.atoms
  {
    var key := MakeKey(NamesOf(groups));
    match CustomReactionFor(key)
    case None => DefaultStep(s, groups, BondOrder(key))
    case Some(reaction) =>
      CustomReactionsArePairs(NamesOf(groups));
      match reaction
      case BoronicAcidWithDiol => BoronicStep(s, groups)
      case DiolWithDihalogen(_) => DiolStep(s, groups, dist)
      case RingAmineWithRingAmine => RingAmineStep(s, groups, coord)
  }

  /**
   * `finalize`: drop the staged atoms, the bonds touching them and their
   * rows. Every bond here has readable endpoints; the source's filter on
   * the diol/dihalogen bonds, which fails, is `HeldBondsWithout`.
   */
  function Finalized(s: ReactorState): (r: ReactorState)
    ensures r.staged == s.staged && r.made == s.made
    ensures forall a :: a in r.atoms <==> a in s.atoms && a.id !in s.staged
    ensures forall b :: b in r.bonds <==> b in s.bonds && b.atom1 !in s.staged && b.atom2 !in s.staged
  {
    s.(atoms := Without(s.atoms, s.staged),
       bonds := BondsWithout(s.bonds, s.staged),
       positions := RowsWithout(s.positions, s.staged))
  }

  // ---------------------------------------------------------------------
  // What the reactions guarantee
  // ---------------------------------------------------------------------

  /** The bond count and the bonds only grow, and no staged id is forgotten. */
  predicate Grows(s: ReactorState, t: ReactorState) {
    && s.made <= t.made
    && s.staged <= t.staged
    && |s.bonds| <= |t.bonds| && t.bonds[..|s.bonds|] == s.bonds
  }

  /**
   * What every reaction keeps: the state only grows; a success counts
   * every bond it adds; a failure adds no atom and does not count; and
   * atom `i` stays at index `i` with its row at row `i`.
   */
  predicate Keeps(s: ReactorState, t: Step) {
    && Grows(s, t.state)
    && (t.out.Pass? ==> |t.state.bonds| - |s.bonds| == t.state.made - s.made)
    && (t.out.Fail? ==> t.state.atoms == s.atoms && t.state.made == s.made)
    && (IndexAligned(s.atoms, s.positions) ==> IndexAligned(t.state.atoms, t.state.positions))
  }

  lemma DefaultStepKeeps(s: ReactorState, groups: seq<Found>, order: nat)
    ensures Keeps(s, DefaultStep(s, groups, order))
    ensures DefaultStep(s, groups, order).out.Fail? ==> DefaultStep(s, groups, order).state.bonds == s.bonds
  {
    StagedIdsGrow(s.staged, groups, |groups|);
    var t := DefaultStep(s, groups, order);
    assert t.state.bonds[..|s.bonds|] == s.bonds;
  }

  lemma PeriodicStepKeeps(s: ReactorState, groups: seq<Found>, direction: seq<int>)
    ensures Keeps(s, PeriodicStep(s, groups, direction))
    ensures PeriodicStep(s, groups, direction).out.Fail? ==> PeriodicStep(s, groups, direction).state.bonds == s.bonds
  {
    StagedIdsGrow(s.staged, groups, |groups|);
    var t := PeriodicStep(s, groups, direction);
    assert t.state.bonds[..|s.bonds|] == s.bonds;
  }

  lemma BoronicStepKeeps(s: ReactorState, groups: seq<Found>)
    requires |groups| == 2
    ensures Keeps(s, BoronicStep(s, groups))
  {
    StagedIdsGrow(s.staged, groups, |groups|);
    var t := BoronicStep(s, groups);
    assert t.state.bonds[..|s.bonds|] == s.bonds;
  }

  lemma DiolStepKeeps(s: ReactorState, groups: seq<Found>, dist: (nat, nat) -> real)
    requires |groups| == 2
    ensures Keeps(s, DiolStep(s, groups, dist))
    ensures DiolStep(s, groups, dist).out.Fail? ==> DiolStep(s, groups, dist).state.bonds == s.bonds
  {
    var t := DiolStep(s, groups, dist);
    assert t.state.bonds[..|s.bonds|] == s.bonds;
  }

  lemma RingAmineStepKeeps(s: ReactorState, groups: seq<Found>, coord: nat -> Pos)
    requires |groups| == 2
    ensures Keeps(s, RingAmineStep(s, groups, coord))
    ensures RingAmineStep(s, groups, coord).out.Fail? ==> RingAmineStep(s, groups, coord).state.bonds == s.bonds
  {
    var t := RingAmineStep(s, groups, coord).state;
    assert t.bonds[..|s.bonds|] == s.bonds;
    if IndexAligned(s.atoms, s.positions) && |t.atoms| != |s.atoms| {
      var n := |s.atoms|;
      forall i | 0 <= i < |t.atoms| ensures t.atoms[i].id == i {
        if i >= n {
          JoinerAtomsNumbered(n);
          assert t.atoms[i] == JoinerAtoms(n)[i - n];
        }
      }
    }
  }

  /**
   * `add_reaction` keeps what every reaction keeps, so `bonds_made` equals
   * the number of bonds the reactions added as long as they succeed; and
   * only the boronic-acid/diol reaction can fail after adding a bond.
   */
  lemma ReactionKeeps(s: ReactorState, groups: seq<Found>, dist: (nat, nat) -> real, coord: nat -> Pos)
    ensures Keeps(s, ReactionStep(s, groups, dist, coord))
    ensures var t := ReactionStep(s, groups, dist, coord);
      t.out.Fail? && t.state.bonds != s.bonds ==> CustomReactionFor(MakeKey(NamesOf(groups))) == Some(BoronicAcidWithDiol)
  {
    var key := MakeKey(NamesOf(groups));
    match CustomReactionFor(key)
    case None => DefaultStepKeeps(s, groups, BondOrder(key));
    case Some(reaction) =>
      CustomReactionsArePairs(NamesOf(groups));
      match reaction
      case BoronicAcidWithDiol => BoronicStepKeeps(s, groups);
      case DiolWithDihalogen(_) => DiolStepKeeps(s, groups, dist);
      case RingAmineWithRingAmine => RingAmineStepKeeps(s, groups, coord);
  }

  /**
   * The one failure that leaves a bond behind: a boronic acid with a
   * bonder reacting with a diol with a single bonder adds one bond and
   * fails before counting it.
   */
  lemma BoronicFailureLeavesUncountedBond(s: ReactorState, groups: seq<Found>)
    requires |groups| == 2 && groups[0].fgType.name == BoronicAcid
    requires |groups[0].bonders| >= 1 && |groups[1].bonders| == 1
    ensures var t := BoronicStep(s, groups);
      && t.out == Fail(ReactionError.IndexError)
      && |t.state.bonds| == |s.bonds| + 1
      && t.state.made == s.made
  {
  }

  /**
   * The default and boronic-acid/diol reactions stage every deleter of the
   * groups and shrink the groups' atoms; the diol and ring-amine reactions
   * stage nothing and leave the groups as they were.
   */
  lemma ReactionStaging(s: ReactorState, groups: seq<Found>, dist: (nat, nat) -> real, coord: nat -> Pos)
    ensures var t := ReactionStep(s, groups, dist, coord);
      StagesGroups(CustomReactionFor(MakeKey(NamesOf(groups)))) ==>
        && t.state.staged == StagedIds(s.staged, groups, |groups|)
        && t.groups == StageAll(groups, s.staged, true)
    ensures var t := ReactionStep(s, groups, dist, coord);
      !StagesGroups(CustomReactionFor(MakeKey(NamesOf(groups)))) ==>
        t.state.staged == s.staged && t.groups == groups
  {
    var key := MakeKey(NamesOf(groups));
    var r := CustomReactionFor(key);
    if r.None? {
      DispatchDefault(s, groups, dist, coord);
      DefaultStepStages(s, groups, BondOrder(key));
    } else if r.value.BoronicAcidWithDiol? {
      DispatchBoronic(s, groups, dist, coord);
      BoronicStepStages(s, groups);
    } else if r.value.DiolWithDihalogen? {
      DispatchDiol(s, groups, dist, coord, r.value.dihalogen);
      DiolStepStagesNothing(s, groups, dist);
    } else {
      DispatchRingAmine(s, groups, dist, coord);
      RingAmineStepStagesNothing(s, groups, coord);
    }
  }

  /** With no custom procedure filed, `add_reaction` runs the default reaction. */
  lemma DispatchDefault(s: ReactorState, groups: seq<Found>, dist: (nat, nat) -> real, coord: nat -> Pos)
    requires CustomReactionFor(MakeKey(NamesOf(groups))).None?
    ensures ReactionStep(s, groups, dist, coord) == DefaultStep(s, groups, BondOrder(MakeKey(NamesOf(groups))))
  {
  }

  lemma DispatchBoronic(s: ReactorState, groups: seq<Found>, dist: (nat, nat) -> real, coord: nat -> Pos)
    requires CustomReactionFor(MakeKey(NamesOf(groups))) == Some(BoronicAcidWithDiol)
    ensures |groups| == 2 && ReactionStep(s, groups, dist, coord) == BoronicStep(s, groups)
  {
    CustomReactionsArePairs(NamesOf(groups));
  }

  lemma DispatchDiol(s: ReactorState, groups: seq<Found>, dist: (nat, nat) -> real, coord: nat -> Pos, dihalogen: string)
    requires CustomReactionFor(MakeKey(NamesOf(groups))) == Some(DiolWithDihalogen(dihalogen))
    ensures |groups| == 2 && ReactionStep(s, groups, dist, coord) == DiolStep(s, groups, dist)
  {
    CustomReactionsArePairs(NamesOf(groups));
  }

  lemma DispatchRingAmine(s: ReactorState, groups: seq<Found>, dist: (nat, nat) -> real, coord: nat -> Pos)
    requires CustomReactionFor(MakeKey(NamesOf(groups))) == Some(RingAmineWithRingAmine)
    ensures |groups| == 2 && ReactionStep(s, groups, dist, coord) == RingAmineStep(s, groups, coord)
  {
    CustomReactionsArePairs(NamesOf(groups));
  }

  lemma DefaultStepStages(s: ReactorState, groups: seq<Found>, order: nat)
    ensures DefaultStep(s, groups, order).state.staged == StagedIds(s.staged, groups, |groups|)
    ensures DefaultStep(s, groups, order).groups == StageAll(groups, s.staged, true)
  {
  }

  lemma BoronicStepStages(s: ReactorState, groups: seq<Found>)
    requires |groups| == 2
    ensures BoronicStep(s, groups).state.staged == StagedIds(s.staged, groups, |groups|)
    ensures BoronicStep(s, groups).groups == StageAll(groups, s.staged, true)
  {
  }

  lemma DiolStepStagesNothing(s: ReactorState, groups: seq<Found>, dist: (nat, nat) -> real)
    requires |groups| == 2
    ensures DiolStep(s, groups, dist).state.staged == s.staged && DiolStep(s, groups, dist).groups == groups
  {
  }

  lemma RingAmineStepStagesNothing(s: ReactorState, groups: seq<Found>, coord: nat -> Pos)
    requires |groups| == 2
    ensures RingAmineStep(s, groups, coord).state.staged == s.staged && RingAmineStep(s, groups, coord).groups == groups
  {
  }

  /** Only the default and the boronic-acid/diol reactions stage deleters. */
  predicate StagesGroups(r: Option<CustomReaction>) {
    r.Some? ==> r.value.BoronicAcidWithDiol?
  }

  /**
   * `finalize` leaves no staged atom, no bond touching a staged atom, and
   * (when atoms were numbered by index) the row of each kept atom beside it.
   */
  lemma FinalizeRemovesStaged(s: ReactorState)
    ensures var f := Finalized(s);
      && (forall a :: a in f.atoms ==> a.id !in s.staged)
      && (forall b :: b in f.bonds ==> b.atom1 !in s.staged && b.atom2 !in s.staged)
      && (forall a :: a in s.atoms && a.id !in s.staged ==> a in f.atoms)
      && (IndexAligned(s.atoms, s.positions) ==>
            && |f.positions| == |f.atoms|
            && forall j :: 0 <= j < |f.atoms| ==> f.atoms[j].id < |s.positions| && f.positions[j] == s.positions[f.atoms[j].id])
  {
    if IndexAligned(s.atoms, s.positions) {
      RowsFollowAtoms(s.atoms, s.positions, s.staged);
    }
  }

  /**
   * An amine reacting with an aldehyde, in either order and each with a
   * bonder, makes one double bond between their first bonders.
   */
  lemma AmineAldehydeMakesImine(s: ReactorState, groups: seq<Found>, dist: (nat, nat) -> real, coord: nat -> Pos)
    requires |groups| == 2 && multiset(NamesOf(groups)) == multiset{Amine, Aldehyde}
    requires |groups[0].bonders| > 0 && |groups[1].bonders| > 0
    ensures var t := ReactionStep(s, groups, dist, coord);
      && t.out == Pass
      && t.state.made == s.made + 1
      && t.state.bonds == s.bonds + [Bond(groups[0].bonders[0].id, groups[1].bonders[0].id, 2)]
  {
    AmineAldehydeBondIsDouble(NamesOf(groups));
    DefaultStepJoinsFirstBonders(s, groups, 2);
  }

  /** Two groups with bonders: the default reaction bonds their first bonders. */
  lemma DefaultStepJoinsFirstBonders(s: ReactorState, groups: seq<Found>, order: nat)
    requires |groups| == 2 && |groups[0].bonders| > 0 && |groups[1].bonders| > 0
    ensures var t := DefaultStep(s, groups, order);
      && t.out == Pass
      && t.state.made == s.made + 1
      && t.state.bonds == s.bonds + [Bond(groups[0].bonders[0].id, groups[1].bonders[0].id, order)]
  {
  }

  /**
   * Two groups with bonders: the periodic reaction adds one periodic bond
   * between their first bonders, with the key's bond order and the
   * direction given.
   */
  lemma PeriodicStepJoinsFirstBonders(s: ReactorState, groups: seq<Found>, direction: seq<int>)
    requires |groups| == 2 && |groups[0].bonders| > 0 && |groups[1].bonders| > 0
    ensures var t := PeriodicStep(s, groups, direction);
      && t.out == Pass
      && t.state.made == s.made + 1
      && t.state.bonds == s.bonds + [PeriodicBond(groups[0].bonders[0].id, groups[1].bonders[0].id, BondOrder(MakeKey(NamesOf(groups))), direction)]
  {
    StageAllKeepsRoles(groups, s.staged, false);
  }

  /**
   * The periodic reaction stages every deleter id of the groups and clears
   * their deleters, but leaves every group's atoms as they were.
   */
  lemma PeriodicStepStages(s: ReactorState, groups: seq<Found>, direction: seq<int>)
    ensures var t := PeriodicStep(s, groups, direction);
      && t.state.staged == StagedIds(s.staged, groups, |groups|)
      && t.groups == StageAll(groups, s.staged, false)
      && forall k :: 0 <= k < |groups| ==> t.groups[k].atoms == groups[k].atoms && t.groups[k].deleters == []
  {
    PeriodicBondStepStages(s, groups, BondOrder(MakeKey(NamesOf(groups))), direction);
    var after := StageAll(groups, s.staged, false);
    forall k | 0 <= k < |groups| ensures after[k].atoms == groups[k].atoms && after[k].deleters == [] {
      StageAllAt(groups, s.staged, false, k);
    }
  }

  lemma PeriodicBondStepStages(s: ReactorState, groups: seq<Found>, order: nat, direction: seq<int>)
    ensures PeriodicBondStep(s, groups, order, direction).state.staged == StagedIds(s.staged, groups, |groups|)
    ensures PeriodicBondStep(s, groups, order, direction).groups == StageAll(groups, s.staged, false)
  {
  }

  /**
   * A boronic acid with a bonder and a diol with two: the boron bonder is
   * joined to the diol's first and second bonders by single bonds.
   */
  lemma BoronicStepJoinsBoron(s: ReactorState, groups: seq<Found>)
    requires |groups| == 2
    requires var (boron, diol) := if groups[0].fgType.name == BoronicAcid then (groups[0], groups[1]) else (groups[1], groups[0]);
      |boron.bonders| > 0 && |diol.bonders| >= 2
    ensures var (boron, diol) := if groups[0].fgType.name == BoronicAcid then (groups[0], groups[1]) else (groups[1], groups[0]);
      var t := BoronicStep(s, groups);
      && t.out == Pass
      && t.state.made == s.made + 2
      && t.state.bonds == s.bonds + [Bond(boron.bonders[0].id, diol.bonders[0].id, 1), Bond(boron.bonders[0].id, diol.bonders[1].id, 1)]
  {
    StageAllKeepsRoles(groups, s.staged, true);
  }

  /**
   * A diol and a dihalogen with two different bonders each: the reaction
   * adds single bonds for the first two pairs of the greedy pairing, each
   * joining a dihalogen carbon to a diol oxygen, the two pairs sharing
   * neither.
   */
  lemma DiolStepBondsPairs(s: ReactorState, groups: seq<Found>, dist: (nat, nat) -> real)
    requires |groups| == 2
    requires var (diol, dihalogen) := if groups[0].fgType.name == Diol then (groups[0], groups[1]) else (groups[1], groups[0]);
      TwoDistinct(Ids(dihalogen.bonders)) && TwoDistinct(Ids(diol.bonders))
    ensures var (diol, dihalogen) := if groups[0].fgType.name == Diol then (groups[0], groups[1]) else (groups[1], groups[0]);
      var p := DiolPairs(Ids(dihalogen.bonders), Ids(diol.bonders), dist);
      var t := DiolStep(s, groups, dist);
      && |p| >= 2
      && t.out == Pass
      && t.state.made == s.made + 2
      && t.state.bonds == s.bonds + [Bond(p[0].0, p[0].1, 1), Bond(p[1].0, p[1].1, 1)]
      && p[0].0 in Ids(dihalogen.bonders) && p[1].0 in Ids(dihalogen.bonders)
      && p[0].1 in Ids(diol.bonders) && p[1].1 in Ids(diol.bonders)
      && p[0].0 != p[1].0 && p[0].1 != p[1].1
  {
    var (diol, dihalogen) := if groups[0].fgType.name == Diol then (groups[0], groups[1]) else (groups[1], groups[0]);
    var cs, os := Ids(dihalogen.bonders), Ids(diol.bonders);
    var p := DiolPairs(cs, os, dist);
    DistinctGiveTwoPairs(cs, os, dist);
    DiolPairsFromBonders(cs, os, dist, p[0]);
    DiolPairsFromBonders(cs, os, dist, p[1]);
    DiolPairsDisjoint(cs, os, dist);
  }

  // ---------------------------------------------------------------------
  // The diol/dihalogen bonds as written, and `finalize`
  // ---------------------------------------------------------------------

  /**
   * A bond endpoint as the source holds it. Every reaction but one passes
   * atom objects to `Bond`; `_diol_with_dihalogen` passes the bare ids that
   * `get_bonder_ids` yields.
   */
  datatype Endpoint = AtomObject(id: nat) | BareId(value: nat)

  /** A bond as the source holds it: the endpoints it was given, and the bond they stand for. */
  datatype HeldBond = HeldBond(atom1: Endpoint, atom2: Endpoint, bond: Bond)

  /** Why `finalize` as written can fail: an `int` has no attribute `id`. */
  datatype FinalizeError = AttributeError

  /** A bond built from atom objects. */
  function Held(b: Bond): HeldBond {
    HeldBond(AtomObject(b.atom1), AtomObject(b.atom2), b)
  }

  /** Bonds built from atom objects, in order. */
  function HeldAll(bonds: seq<Bond>): (r: seq<HeldBond>)
    ensures |r| == |bonds|
    ensures forall i :: 0 <= i < |bonds| ==> r[i] == Held(bonds[i])
  {
    seq(|bonds|, i requires 0 <= i < |bonds| => Held(bonds[i]))
  }

  /**
   * The molecule's bonds once `_diol_with_dihalogen` as written has run:
   * the two new bonds `Bond(c1, o1, 1)` and `Bond(c2, o2, 1)` hold bare ids.
   */
  function DiolHeldBonds(s: ReactorState, groups: seq<Found>, dist: (nat, nat) -> real): (r: seq<HeldBond>)
    requires |groups| == 2
    ensures |s.bonds| <= |r| && r[..|s.bonds|] == HeldAll(s.bonds)
    ensures DiolStep(s, groups, dist).out.Pass? ==> |r| == |s.bonds| + 2 && r[|s.bonds|].atom1.BareId?
    ensures DiolStep(s, groups, dist).out.Fail? ==> r == HeldAll(s.bonds)
  {
    var t := DiolStep(s, groups, dist);
    if t.out.Fail? then HeldAll(s.bonds)
    else
      var b1, b2 := t.state.bonds[|s.bonds|], t.state.bonds[|s.bonds| + 1];
      HeldAll(s.bonds) + [HeldBond(BareId(b1.atom1), BareId(b1.atom2), b1), HeldBond(BareId(b2.atom1), BareId(b2.atom2), b2)]
  }

  /** `endpoint.id`: the atom's id, or `AttributeError` for a bare `int`. */
  function IdOf(e: Endpoint): (r: Result<nat, FinalizeError>)
    ensures r.Ok? <==> e.AtomObject?
  {
    if e.AtomObject? then Ok(e.id) else Err(AttributeError)
  }

  /** The filter as written reads this bond's endpoints without raising: `atom1` is an atom, and so is `atom2` unless `atom1` is staged. */
  predicate Readable(b: HeldBond, ids: set<nat>) {
    b.atom1.AtomObject? && (b.atom1.id in ids || b.atom2.AtomObject?)
  }

  /** The filter as written keeps this bond: both endpoints are atoms and neither is staged. */
  predicate KeptHeld(b: HeldBond, ids: set<nat>) {
    b.atom1.AtomObject? && b.atom2.AtomObject? && b.atom1.id !in ids && b.atom2.id !in ids
  }

  /**
   * The bond filter of `finalize` as written, bond by bond in order:
   * `bond.atom1.id not in ids and bond.atom2.id not in ids`, the second
   * operand read only when the first holds. The atom filter before it has
   * already replaced the molecule's atoms when it raises.
   */
  function HeldBondsWithout(bonds: seq<HeldBond>, ids: set<nat>): (r: Result<seq<HeldBond>, FinalizeError>)
    ensures r.Ok? <==> forall i :: 0 <= i < |bonds| ==> Readable(bonds[i], ids)
    ensures r.Ok? ==> forall b :: b in r.value <==> b in bonds && KeptHeld(b, ids)
    decreases |bonds|
  {
    if bonds == [] then Ok([])
    else
      match HeldBondsWithout(bonds[..|bonds| - 1], ids)
      case Err(e) => Err(e)
      case Ok(kept) =>
        var b := bonds[|bonds| - 1];
        match IdOf(b.atom1)
        case Err(e) => Err(e)
        case Ok(i1) =>
          if i1 in ids then Ok(kept)
          else
            match IdOf(b.atom2)
            case Err(e) => Err(e)
            case Ok(i2) => if i2 in ids then Ok(kept) else Ok(kept + [b])
  }

  /** One more bond built from atom objects: the filter as written keeps it exactly when no endpoint is staged. */
  lemma HeldObjectStep(pre: seq<HeldBond>, b: Bond, ids: set<nat>)
    requires HeldBondsWithout(pre, ids).Ok?
    ensures HeldBondsWithout(pre + [Held(b)], ids)
         == Ok(HeldBondsWithout(pre, ids).value + (if b.atom1 in ids || b.atom2 in ids then [] else [Held(b)]))
  {
    var all := pre + [Held(b)];
    assert all[..|all| - 1] == pre && all[|all| - 1] == Held(b);
    assert IdOf(Held(b).atom1) == Ok(b.atom1) && IdOf(Held(b).atom2) == Ok(b.atom2);
    var kept := HeldBondsWithout(pre, ids).value;
    assert HeldBondsWithout(all[..|all| - 1], ids) == Ok(kept);
    assert kept + [] == kept;
  }

  /** On bonds built from atom objects the filter as written keeps exactly what `Finalized` keeps. */
  lemma {:induction false} HeldFilterAgrees(bonds: seq<Bond>, ids: set<nat>)
    ensures HeldBondsWithout(HeldAll(bonds), ids) == Ok(HeldAll(BondsWithout(bonds, ids)))
    decreases |bonds|
  {
    if bonds != [] {
      var n := |bonds| - 1;
      var b := bonds[n];
      HeldFilterAgrees(bonds[..n], ids);
      assert HeldAll(bonds) == HeldAll(bonds[..n]) + [Held(b)];
      var kept := BondsWithout(bonds[..n], ids);
      HeldSnocAgrees(HeldAll(bonds[..n]), kept, b, ids);
      assert BondsWithout(bonds, ids) == kept + (if b.atom1 in ids || b.atom2 in ids then [] else [b]);
    }
  }

  /** One more bond built from atom objects, after a prefix the filter keeps as `kept`. */
  lemma HeldSnocAgrees(pre: seq<HeldBond>, kept: seq<Bond>, b: Bond, ids: set<nat>)
    requires HeldBondsWithout(pre, ids) == Ok(HeldAll(kept))
    ensures HeldBondsWithout(pre + [Held(b)], ids) == Ok(HeldAll(kept + (if b.atom1 in ids || b.atom2 in ids then [] else [b])))
  {
    HeldObjectStep(pre, b, ids);
    var tail := if b.atom1 in ids || b.atom2 in ids then [] else [b];
    assert HeldAll(kept + tail) == HeldAll(kept) + (if b.atom1 in ids || b.atom2 in ids then [] else [Held(b)]);
  }

  /** Once the filter as written has failed, no further bond changes that. */
  lemma {:induction false} HeldFailureSticks(bonds: seq<HeldBond>, more: seq<HeldBond>, ids: set<nat>)
    requires HeldBondsWithout(bonds, ids).Err?
    ensures HeldBondsWithout(bonds + more, ids) == HeldBondsWithout(bonds, ids)
    decreases |more|
  {
    if more != [] {
      var n := |more| - 1;
      assert (bonds + more)[..|bonds + more| - 1] == bonds + more[..n];
      HeldFailureSticks(bonds, more[..n], ids);
    } else {
      assert bonds + more == bonds;
    }
  }

  /**
   * As written, `finalize` after a successful diol/dihalogen reaction raises
   * `AttributeError`, whatever is staged and whatever bonds later
   * reactions add: the first bare id is read as `bond.atom1.id`.
   */
  lemma DiolThenFinalizeFails(s: ReactorState, groups: seq<Found>, dist: (nat, nat) -> real, later: seq<Bond>, ids: set<nat>)
    requires |groups| == 2 && DiolStep(s, groups, dist).out.Pass?
    ensures HeldBondsWithout(DiolHeldBonds(s, groups, dist) + HeldAll(later), ids) == Err(AttributeError)
  {
    var held := DiolHeldBonds(s, groups, dist);
    var n := |s.bonds|;
    assert held + HeldAll(later) == held[..n] + [held[n]] + (held[n + 1..] + HeldAll(later));
    BareIdFails(s.bonds, held[n], held[n + 1..] + HeldAll(later), ids);
  }

  /** A bond whose first endpoint is a bare id, after bonds of atom objects: the filter as written fails there. */
  lemma BareIdFails(pre: seq<Bond>, b: HeldBond, post: seq<HeldBond>, ids: set<nat>)
    requires b.atom1.BareId?
    ensures HeldBondsWithout(HeldAll(pre) + [b] + post, ids) == Err(AttributeError)
  {
    var upTo := HeldAll(pre) + [b];
    HeldFilterAgrees(pre, ids);
    assert upTo[..|upTo| - 1] == HeldAll(pre);
    assert HeldBondsWithout(upTo, ids) == Err(AttributeError);
    HeldFailureSticks(upTo, post, ids);
  }

  /**
   * As intended, the diol/dihalogen bonds are bonds like any other:
   * `finalize` keeps each of them unless an endpoint is staged, and the
   * reaction's two bonds are counted.
   */
  lemma DiolBondsSurviveFinalize(s: ReactorState, groups: seq<Found>, dist: (nat, nat) -> real)
    requires |groups| == 2 && DiolStep(s, groups, dist).out.Pass?
    ensures var t := DiolStep(s, groups, dist).state;
      && |t.bonds| == |s.bonds| + 2
      && Finalized(t).made == s.made + 2
      && forall k :: |s.bonds| <= k < |t.bonds| && t.bonds[k].atom1 !in t.staged && t.bonds[k].atom2 !in t.staged ==>
           t.bonds[k] in Finalized(t).bonds
  {
  }
}
