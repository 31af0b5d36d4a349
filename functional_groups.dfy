/**
 * Functional-group types, functional groups and the matcher that finds
 * them in a molecule.
 *
 * A functional-group type (`FGType`) is a SMARTS query for the whole group
 * plus two lists of rules (`Match`): each rule is a query for single atoms
 * and a count `n`. For every match of the whole-group query, each bonder rule
 * contributes the first `n` atoms of that match its query hits, and the
 * deleter rules do the same for the deleter list.
 *
 * The SMARTS substructure search itself is a parameter (`Matcher`): a
 * deterministic function from a query to the list of its matches, each a
 * tuple of atom ids in the searcher's order.
 */
module FunctionalGroups {
  import opened Wrappers
  import opened Ordering

  /** An atom as the reaction engine sees it: its id in the molecule and its element. */
  datatype Atom = Atom(id: nat, atomicNumber: nat)

  /** A SMARTS query for single atoms, and at most how many of its atoms each group uses. */
  datatype Match = Match(smarts: string, n: nat)

  datatype FGType = FGType(name: string, fgSmarts: string, bonderSmarts: seq<Match>, delSmarts: seq<Match>)

  /**
   * `fg_types`: the registered functional-group types, keyed by name. Each
   * type carries its own key as its name.
   */
  const FgTypes: map<string, FGType> := map[
    "amine" := FGType("amine", "[N]([H])[H]",
      [Match("[$([N]([H])[H])]", 1)],
      [Match("[$([H][N][H])]", 2)]),
    "aldehyde" := FGType("aldehyde", "[C](=[O])[H]",
      [Match("[$([C](=[O])[H])]", 1)],
      [Match("[$([O]=[C][H])]", 1)]),
    "carboxylic_acid" := FGType("carboxylic_acid", "[C](=[O])[O][H]",
      [Match("[$([C](=[O])[O][H])]", 1)],
      [Match("[$([H][O][C](=[O]))]", 1), Match("[$([O]([H])[C](=[O]))]", 1)]),
    "amide" := FGType("amide", "[C](=[O])[N]([H])[H]",
      [Match("[$([C](=[O])[N]([H])[H])]", 1)],
      [Match("[$([N]([H])([H])[C](=[O]))]", 1), Match("[$([H][N]([H])[C](=[O]))]", 2)]),
    "thioacid" := FGType("thioacid", "[C](=[O])[S][H]",
      [Match("[$([C](=[O])[S][H])]", 1)],
      [Match("[$([H][S][C](=[O]))]", 1), Match("[$([S]([H])[C](=[O]))]", 1)]),
    "alcohol" := FGType("alcohol", "[O][H]",
      [Match("[$([O][H])]", 1)],
      [Match("[$([H][O])]", 1)]),
    "thiol" := FGType("thiol", "[S][H]",
      [Match("[$([S][H])]", 1)],
      [Match("[$([H][S])]", 1)]),
    "bromine" := FGType("bromine", "*[Br]",
      [Match("[$(*[Br])]", 1)],
      [Match("[$([Br]*)]", 1)]),
    "iodine" := FGType("iodine", "*[I]",
      [Match("[$(*[I])]", 1)],
      [Match("[$([I]*)]", 1)]),
    "alkyne" := FGType("alkyne", "[C]#[C][H]",
      [Match("[$([C]([H])#[C])]", 1)],
      [Match("[$([H][C]#[C])]", 1)]),
    "terminal_alkene" := FGType("terminal_alkene", "[C]=[C]([H])[H]",
      [Match("[$([C]=[C]([H])[H])]", 1)],
      [Match("[$([H][C]([H])=[C])]", 2), Match("[$([C](=[C])([H])[H])]", 1)]),
    "boronic_acid" := FGType("boronic_acid", "[B]([O][H])[O][H]",
      [Match("[$([B]([O][H])[O][H])]", 1)],
      [Match("[$([O]([H])[B][O][H])]", 2), Match("[$([H][O][B][O][H])]", 2)]),
    "amine2" := FGType("amine2", "[N]([H])[H]",
      [Match("[$([N]([H])[H])]", 1)],
      [Match("[$([H][N][H])]", 1)]),
    "secondary_amine" := FGType("secondary_amine", "[H][N]([#6])[#6]",
      [Match("[$([N]([H])([#6])[#6])]", 1)],
      [Match("[$([H][N]([#6])[#6])]", 1)]),
    "diol" := FGType("diol", "[H][O][#6]~[#6][O][H]",
      [Match("[$([O]([H])[#6]~[#6][O][H])]", 2)],
      [Match("[$([H][O][#6]~[#6][O][H])]", 2)]),
    "difluorene" := FGType("difluorene", "[F][#6]~[#6][F]",
      [Match("[$([#6]([F])~[#6][F])]", 2)],
      [Match("[$([F][#6]~[#6][F])]", 2)]),
    "dibromine" := FGType("dibromine", "[Br][#6]~[#6][Br]",
      [Match("[$([#6]([Br])~[#6][Br])]", 2)],
      [Match("[$([Br][#6]~[#6][Br])]", 2)]),
    "alkyne2" := FGType("alkyne2", "[C]#[C][H]",
      [Match("[$([C]#[C][H])]", 1)],
      [Match("[$([H][C]#[C])]", 1), Match("[$([C](#[C])[H])]", 1)]),
    "ring_amine" := FGType("ring_amine", "[N]([H])([H])[#6]~[#6]([H])~[#6R1]",
      [Match("[$([N]([H])([H])[#6]~[#6]([H])~[#6R1])]", 1),
       Match("[$([#6]([H])(~[#6R1])~[#6][N]([H])[H])]", 1)],
      [Match("[$([H][N]([H])[#6]~[#6]([H])~[#6R1])]", 2),
       Match("[$([H][#6](~[#6R1])~[#6][N]([H])[H])]", 1)])
  ]

  /** The ids of a list of atoms, in order (`a.id for a in atoms`). */
  function Ids(atoms: seq<Atom>): (ids: seq<nat>)
    ensures |ids| == |atoms|
    ensures forall i :: 0 <= i < |atoms| ==> ids[i] == atoms[i].id
  {
    seq(|atoms|, i requires 0 <= i < |atoms| => atoms[i].id)
  }

  /** `atom_map.get(a, a)` applied to every atom of a list. */
  function Remap(atoms: seq<Atom>, atomMap: map<Atom, Atom>): (r: seq<Atom>)
    ensures |r| == |atoms|
    ensures forall i :: 0 <= i < |atoms| && atoms[i] !in atomMap ==> r[i] == atoms[i]
    ensures forall i :: 0 <= i < |atoms| && atoms[i] in atomMap ==> r[i] == atomMap[atoms[i]]
  {
    seq(|atoms|, i requires 0 <= i < |atoms| => if atoms[i] in atomMap then atomMap[atoms[i]] else atoms[i])
  }

  /** The fields of a functional group, as a value. */
  datatype Found = Found(atoms: seq<Atom>, bonders: seq<Atom>, deleters: seq<Atom>, fgType: FGType)

  /**
   * A functional group of a molecule. The reactor shrinks `atoms` and
   * empties `deleters` in place; the constructed molecule sets `id`.
   */
  class FunctionalGroup {
    var atoms: seq<Atom>
    var bonders: seq<Atom>
    var deleters: seq<Atom>
    const fgType: FGType
    /** The group's index in its constructed molecule; `None` until one assigns it. */
    var id: Option<nat>

    constructor (atoms: seq<Atom>, bonders: seq<Atom>, deleters: seq<Atom>, fgType: FGType)
      ensures View() == Found(atoms, bonders, deleters, fgType)
      ensures id == None
    {
      this.atoms := atoms;
      this.bonders := bonders;
      this.deleters := deleters;
      this.fgType := fgType;
      this.id := None;
    }

    function View(): Found
      reads this
    {
      Found(atoms, bonders, deleters, fgType)
    }

    /** A new group over the same type, with every atom passed through `atomMap`. */
    method Clone(atomMap: map<Atom, Atom>) returns (c: FunctionalGroup)
      ensures fresh(c)
      ensures c.View() == Found(Remap(atoms, atomMap), Remap(bonders, atomMap), Remap(deleters, atomMap), fgType)
      ensures atomMap == map[] ==> c.View() == View()
      ensures c.id == None
    {
      RemapEmpty(atoms);
      RemapEmpty(bonders);
      RemapEmpty(deleters);
      c := new FunctionalGroup(Remap(atoms, atomMap), Remap(bonders, atomMap), Remap(deleters, atomMap), fgType);
    }

    function AtomIds(): (ids: seq<nat>)
      reads this
      ensures ids == Ids(atoms)
    {
      Ids(atoms)
    }

    function BonderIds(): (ids: seq<nat>)
      reads this
      ensures ids == Ids(bonders)
    {
      Ids(bonders)
    }

    function DeleterIds(): (ids: seq<nat>)
      reads this
      ensures ids == Ids(deleters)
    {
      Ids(deleters)
    }
  }

  /** With no replacements a clone keeps every atom. */
  lemma RemapEmpty(atoms: seq<Atom>)
    ensures Remap(atoms, map[]) == atoms
  {
  }

  // ---------------------------------------------------------------------
  // The matcher
  // ---------------------------------------------------------------------

  /** SMARTS substructure search: the matches of a query, each a tuple of atom ids. */
  type Matcher = string -> seq<seq<nat>>

  /** `set(flatten(mol.GetSubstructMatches(query)))`: every atom a match of the query covers. */
  function Hits(smarts: string, matcher: Matcher): set<nat> {
    set m, a | m in matcher(smarts) && a in m :: a
  }

  /** `[aid for aid in fg if aid in atoms]`: the atoms of a match the query hits, in match order. */
  function Keep(fg: seq<nat>, atoms: set<nat>): (r: seq<nat>)
    ensures forall a :: a in r <==> a in fg && a in atoms
    ensures |r| <= |fg|
  {
    if fg == [] then []
    else (if fg[0] in atoms then [fg[0]] else []) + Keep(fg[1..], atoms)
  }

  /**
   * Filtering a concatenation filters each part: the atoms kept are kept
   * in the order of the match.
   */
  lemma {:induction false} KeepAppend(a: seq<nat>, b: seq<nat>, atoms: set<nat>)
    ensures Keep(a + b, atoms) == Keep(a, atoms) + Keep(b, atoms)
    decreases |a|
  {
    if a != [] {
      assert (a + b)[0] == a[0];
      assert (a + b)[1..] == a[1..] + b;
      KeepAppend(a[1..], b, atoms);
    } else {
      assert a + b == b;
    }
  }

  /** `s[:n]` */
  function Take<T>(s: seq<T>, n: nat): seq<T> {
    if |s| <= n then s else s[..n]
  }

  /**
   * The role list (bonders or deleters) of one match: rule by rule, the
   * first `n` atoms of the match that the rule's query hits.
   */
  function RoleIds(fg: seq<nat>, rules: seq<Match>, matcher: Matcher): (ids: seq<nat>)
    ensures |ids| <= SumN(rules)
    decreases |rules|
  {
    if rules == [] then []
    else
      var rule := rules[|rules| - 1];
      RoleIds(fg, rules[..|rules| - 1], matcher) + Take(Keep(fg, Hits(rule.smarts, matcher)), rule.n)
  }

  /** The most atoms a list of rules may select per group. */
  function SumN(rules: seq<Match>): nat {
    if rules == [] then 0 else SumN(rules[..|rules| - 1]) + rules[|rules| - 1].n
  }

  /** A role list holds only atoms of its match, and no more than the rules' counts allow. */
  lemma {:induction false} RoleIdsWithinMatch(fg: seq<nat>, rules: seq<Match>, matcher: Matcher)
    ensures forall a :: a in RoleIds(fg, rules, matcher) ==> a in fg
    ensures |RoleIds(fg, rules, matcher)| <= SumN(rules)
  {
    if rules != [] {
      var rule := rules[|rules| - 1];
      RoleIdsWithinMatch(fg, rules[..|rules| - 1], matcher);
      var part := Take(Keep(fg, Hits(rule.smarts, matcher)), rule.n);
      assert forall a :: a in part ==> a in Keep(fg, Hits(rule.smarts, matcher));
    }
  }

  /** A rule whose query hits no atom of the match adds nothing to its role list. */
  lemma RoleIdsSkipsMissedRule(fg: seq<nat>, rules: seq<Match>, rule: Match, matcher: Matcher)
    requires forall a :: a in fg ==> a !in Hits(rule.smarts, matcher)
    ensures RoleIds(fg, rules + [rule], matcher) == RoleIds(fg, rules, matcher)
  {
    assert (rules + [rule])[..|rules|] == rules;
    KeepNone(fg, Hits(rule.smarts, matcher));
  }

  lemma {:induction false} KeepNone(fg: seq<nat>, atoms: set<nat>)
    requires forall a :: a in fg ==> a !in atoms
    ensures Keep(fg, atoms) == []
  {
    if fg != [] {
      assert fg[0] in fg;
      KeepNone(fg[1..], atoms);
    }
  }

  lemma RoleIdsStep(fg: seq<nat>, rules: seq<Match>, r: nat, matcher: Matcher)
    requires r < |rules|
    ensures RoleIds(fg, rules[..r + 1], matcher)
         == RoleIds(fg, rules[..r], matcher) + Take(Keep(fg, Hits(rules[r].smarts, matcher)), rules[r].n)
  {
    assert rules[..r + 1][..r] == rules[..r];
  }

  /**
   * The loops of `get_functional_groups` that fill one role list per match:
   * the outer loop runs over the rules, the inner one extends each match's
   * list with that rule's atoms.
   */
  method RoleLists(fgAtoms: seq<seq<nat>>, rules: seq<Match>, matcher: Matcher) returns (lists: seq<seq<nat>>)
    ensures |lists| == |fgAtoms|
    ensures forall j :: 0 <= j < |fgAtoms| ==> lists[j] == RoleIds(fgAtoms[j], rules, matcher)
  {
    lists := seq(|fgAtoms|, _ => []);
    var r := 0;
    while r < |rules|
      invariant r <= |rules|
      invariant |lists| == |fgAtoms|
      invariant forall j :: 0 <= j < |fgAtoms| ==> lists[j] == RoleIds(fgAtoms[j], rules[..r], matcher)
    {
      var hits := Hits(rules[r].smarts, matcher);
      var grouped := seq(|fgAtoms|, j requires 0 <= j < |fgAtoms| => Keep(fgAtoms[j], hits));
      var j := 0;
      while j < |fgAtoms|
        invariant j <= |fgAtoms|
        invariant |lists| == |fgAtoms|
        invariant forall k :: 0 <= k < j ==> lists[k] == RoleIds(fgAtoms[k], rules[..r + 1], matcher)
        invariant forall k :: j <= k < |fgAtoms| ==> lists[k] == RoleIds(fgAtoms[k], rules[..r], matcher)
      {
        RoleIdsStep(fgAtoms[j], rules, r, matcher);
        lists := lists[j := lists[j] + Take(grouped[j], rules[r].n)];
        j := j + 1;
      }
      r := r + 1;
    }
    assert rules[..|rules|] == rules;
  }

  /** Why `get_functional_groups` can fail. */
  datatype MatchError =
    | KeyError(name: string)  // the name is not a registered functional-group type
    | IndexError              // the searcher reported an atom id the molecule does not have

  /** Every id of the list indexes an atom of a molecule with `n` atoms. */
  predicate IdsBelow(ids: seq<nat>, n: nat) {
    forall i :: 0 <= i < |ids| ==> ids[i] < n
  }

  /** Every atom id of every match indexes an atom of the molecule. */
  predicate InRange(matches: seq<seq<nat>>, n: nat) {
    forall j :: 0 <= j < |matches| ==> IdsBelow(matches[j], n)
  }

  /** The role lists of a match whose ids are in range are in range too. */
  lemma RoleIdsBelow(fg: seq<nat>, rules: seq<Match>, matcher: Matcher, n: nat)
    requires IdsBelow(fg, n)
    ensures IdsBelow(RoleIds(fg, rules, matcher), n)
  {
    RoleIdsWithinMatch(fg, rules, matcher);
    var r := RoleIds(fg, rules, matcher);
    forall i | 0 <= i < |r| ensures r[i] < n {
      assert r[i] in r;
      var p :| 0 <= p < |fg| && fg[p] == r[i];
    }
  }

  /** `tuple(self.atoms[id_] for id_ in ids)` */
  function AtomsAt(molAtoms: seq<Atom>, ids: seq<nat>): (r: seq<Atom>)
    requires IdsBelow(ids, |molAtoms|)
    ensures |r| == |ids|
    ensures forall i :: 0 <= i < |ids| ==> r[i] == molAtoms[ids[i]]
  {
    seq(|ids|, i requires 0 <= i < |ids| => molAtoms[ids[i]])
  }

  /** The functional group over the atoms at the given ids. */
  function FoundFrom(fg: seq<nat>, bonders: seq<nat>, deleters: seq<nat>, t: FGType, molAtoms: seq<Atom>): Found
    requires IdsBelow(fg, |molAtoms|) && IdsBelow(bonders, |molAtoms|) && IdsBelow(deleters, |molAtoms|)
  {
    Found(AtomsAt(molAtoms, fg), AtomsAt(molAtoms, bonders), AtomsAt(molAtoms, deleters), t)
  }

  /** The functional group recorded for one match of a type's whole-group query. */
  function FoundFor(m: seq<nat>, t: FGType, molAtoms: seq<Atom>, matcher: Matcher): Found
    requires IdsBelow(m, |molAtoms|)
  {
    RoleIdsBelow(m, t.bonderSmarts, matcher, |molAtoms|);
    RoleIdsBelow(m, t.delSmarts, matcher, |molAtoms|);
    FoundFrom(m, RoleIds(m, t.bonderSmarts, matcher), RoleIds(m, t.delSmarts, matcher), t, molAtoms)
  }

  /**
   * The role invariant of a functional group: its bonders and deleters are
   * atoms of the group, and there are no more of each than its type's rules
   * allow.
   */
  predicate WellFormed(f: Found) {
    && (forall a :: a in f.bonders ==> a in f.atoms)
    && (forall a :: a in f.deleters ==> a in f.atoms)
    && |f.bonders| <= SumN(f.fgType.bonderSmarts)
    && |f.deleters| <= SumN(f.fgType.delSmarts)
  }

  /** Looking up a sub-list of ids yields a sub-list of the atoms. */
  lemma AtomsAtWithin(molAtoms: seq<Atom>, sub: seq<nat>, ids: seq<nat>)
    requires IdsBelow(sub, |molAtoms|) && IdsBelow(ids, |molAtoms|)
    requires forall a :: a in sub ==> a in ids
    ensures forall x :: x in AtomsAt(molAtoms, sub) ==> x in AtomsAt(molAtoms, ids)
  {
    var r, s := AtomsAt(molAtoms, sub), AtomsAt(molAtoms, ids);
    forall x | x in r ensures x in s {
      var k :| 0 <= k < |r| && r[k] == x;
      assert sub[k] in sub;
      var p :| 0 <= p < |ids| && ids[p] == sub[k];
      assert s[p] == x;
    }
  }

  lemma FoundForWellFormed(m: seq<nat>, t: FGType, molAtoms: seq<Atom>, matcher: Matcher)
    requires IdsBelow(m, |molAtoms|)
    ensures WellFormed(FoundFor(m, t, molAtoms, matcher))
  {
    RoleIdsWithinMatch(m, t.bonderSmarts, matcher);
    RoleIdsWithinMatch(m, t.delSmarts, matcher);
    RoleIdsBelow(m, t.bonderSmarts, matcher, |molAtoms|);
    RoleIdsBelow(m, t.delSmarts, matcher, |molAtoms|);
    AtomsAtWithin(molAtoms, RoleIds(m, t.bonderSmarts, matcher), m);
    AtomsAtWithin(molAtoms, RoleIds(m, t.delSmarts, matcher), m);
  }

  /** The groups of one type: one per match of its whole-group query, in match order. */
  function GroupsOfType(t: FGType, molAtoms: seq<Atom>, matcher: Matcher): (r: Result<seq<Found>, MatchError>)
    ensures r.Ok? <==> InRange(matcher(t.fgSmarts), |molAtoms|)
    ensures r.Ok? ==> |r.value| == |matcher(t.fgSmarts)| && forall i :: 0 <= i < |r.value| ==> r.value[i].fgType == t
    ensures r.Err? ==> r.error == IndexError
  {
    var ms := matcher(t.fgSmarts);
    if !InRange(ms, |molAtoms|) then Err(IndexError)
    else Ok(FoundForEach(ms, t, molAtoms, matcher))
  }

  /** The groups recorded for a run of matches, one per match, in order. */
  function FoundForEach(ms: seq<seq<nat>>, t: FGType, molAtoms: seq<Atom>, matcher: Matcher): (gs: seq<Found>)
    requires InRange(ms, |molAtoms|)
    ensures |gs| == |ms| && forall i :: 0 <= i < |ms| ==> gs[i] == FoundFor(ms[i], t, molAtoms, matcher)
  {
    seq(|ms|, i requires 0 <= i < |ms| => FoundFor(ms[i], t, molAtoms, matcher))
  }

  /**
   * The groups found for the names in the order given, each name's type
   * looked up in `table`, or the first failure.
   */
  function FindAll(names: seq<string>, table: map<string, FGType>, molAtoms: seq<Atom>, matcher: Matcher): (r: Result<seq<Found>, MatchError>)
    ensures r.Ok? ==> forall n :: n in names ==> n in table
    ensures r.Err? && r.error.KeyError? ==> r.error.name in names && r.error.name !in table
    decreases |names|
  {
    if names == [] then Ok([])
    else
      match FindAll(names[..|names| - 1], table, molAtoms, matcher)
      case Err(e) => Err(e)
      case Ok(before) =>
        var name := names[|names| - 1];
        if name !in table then Err(KeyError(name))
        else
          match GroupsOfType(table[name], molAtoms, matcher)
          case Err(e) => Err(e)
          case Ok(gs) => Ok(before + gs)
  }

  /** What `get_functional_groups` returns: the groups for the names, taken in sorted order. */
  function FunctionalGroupsOf(names: seq<string>, molAtoms: seq<Atom>, matcher: Matcher): (r: Result<seq<Found>, MatchError>)
    ensures r.Err? && r.error.KeyError? ==> r.error.name in names
  {
    var sorted := SortStrings(names);
    var r := FindAll(sorted, FgTypes, molAtoms, matcher);
    assert r.Err? && r.error.KeyError? ==> r.error.name in multiset(sorted);
    r
  }

  /**
   * The names are sorted first, so asking for the same names in any order
   * yields the same groups, in the same order, with the same roles.
   */
  lemma FunctionalGroupsIgnoreNameOrder(a: seq<string>, b: seq<string>, molAtoms: seq<Atom>, matcher: Matcher)
    requires multiset(a) == multiset(b)
    ensures FunctionalGroupsOf(a, molAtoms, matcher) == FunctionalGroupsOf(b, molAtoms, matcher)
  {
    SortStringsCanonical(a, b);
  }

  lemma GroupsOfTypeWellFormed(t: FGType, molAtoms: seq<Atom>, matcher: Matcher)
    ensures GroupsOfType(t, molAtoms, matcher).Ok? ==>
      forall i :: 0 <= i < |GroupsOfType(t, molAtoms, matcher).value| ==> WellFormed(GroupsOfType(t, molAtoms, matcher).value[i])
  {
    var ms := matcher(t.fgSmarts);
    if InRange(ms, |molAtoms|) {
      forall i | 0 <= i < |ms| ensures WellFormed(FoundFor(ms[i], t, molAtoms, matcher)) {
        FoundForWellFormed(ms[i], t, molAtoms, matcher);
      }
    }
  }

  /** Every functional group found satisfies the role invariant. */
  lemma {:induction false} FoundGroupsWellFormed(names: seq<string>, table: map<string, FGType>, molAtoms: seq<Atom>, matcher: Matcher)
    ensures FindAll(names, table, molAtoms, matcher).Ok? ==>
      forall i :: 0 <= i < |FindAll(names, table, molAtoms, matcher).value| ==> WellFormed(FindAll(names, table, molAtoms, matcher).value[i])
  {
    if names != [] {
      var name := names[|names| - 1];
      FoundGroupsWellFormed(names[..|names| - 1], table, molAtoms, matcher);
      if name in table {
        GroupsOfTypeWellFormed(table[name], molAtoms, matcher);
      }
    }
  }

  /** Once a prefix of the names fails, the whole request fails the same way. */
  lemma {:induction false} FindAllFailureSticks(names: seq<string>, k: nat, table: map<string, FGType>, molAtoms: seq<Atom>, matcher: Matcher)
    requires k <= |names|
    requires FindAll(names[..k], table, molAtoms, matcher).Err?
    ensures FindAll(names, table, molAtoms, matcher) == FindAll(names[..k], table, molAtoms, matcher)
    decreases |names| - k
  {
    if k < |names| {
      assert names[..k + 1][..k] == names[..k];
      FindAllFailureSticks(names, k + 1, table, molAtoms, matcher);
    } else {
      assert names[..k] == names;
    }
  }

  /** One more name: its groups are appended, or its failure ends the request. */
  lemma FindAllStep(names: seq<string>, k: nat, table: map<string, FGType>, molAtoms: seq<Atom>, matcher: Matcher)
    requires k < |names|
    requires FindAll(names[..k], table, molAtoms, matcher).Ok?
    ensures names[k] !in table ==> FindAll(names[..k + 1], table, molAtoms, matcher) == Err(KeyError(names[k]))
    ensures names[k] in table && GroupsOfType(table[names[k]], molAtoms, matcher).Err? ==>
      FindAll(names[..k + 1], table, molAtoms, matcher) == Err(GroupsOfType(table[names[k]], molAtoms, matcher).error)
    ensures names[k] in table && GroupsOfType(table[names[k]], molAtoms, matcher).Ok? ==>
      FindAll(names[..k + 1], table, molAtoms, matcher)
        == Ok(FindAll(names[..k], table, molAtoms, matcher).value + GroupsOfType(table[names[k]], molAtoms, matcher).value)
  {
    assert names[..k + 1][..k] == names[..k];
  }

  /** The objects hold exactly the given functional groups, in order. */
  ghost predicate Realises(gs: seq<FunctionalGroup>, views: seq<Found>)
    reads set g | g in gs
  {
    |gs| == |views| && forall i :: 0 <= i < |gs| ==> gs[i].View() == views[i]
  }

  /** Groups realising two runs of views, put side by side, realise the runs joined. */
  lemma RealisesJoin(gs: seq<FunctionalGroup>, views: seq<Found>, more: seq<FunctionalGroup>, moreViews: seq<Found>)
    requires Realises(gs, views) && Realises(more, moreViews)
    ensures Realises(gs + more, views + moreViews)
  {
    forall i | 0 <= i < |gs + more| ensures (gs + more)[i].View() == (views + moreViews)[i] {
      if i >= |gs| {
        assert (gs + more)[i] == more[i - |gs|];
      }
    }
  }

  /** One pass of that loop: the new group of one match, its atoms looked up by id. */
  method MakeGroup(fg: seq<nat>, bonders: seq<nat>, deleters: seq<nat>, fgType: FGType, molAtoms: seq<Atom>)
    returns (g: FunctionalGroup)
    requires IdsBelow(fg, |molAtoms|) && IdsBelow(bonders, |molAtoms|) && IdsBelow(deleters, |molAtoms|)
    ensures fresh(g) && g.View() == FoundFrom(fg, bonders, deleters, fgType, molAtoms)
  {
    var deleterAtoms := AtomsAt(molAtoms, deleters);
    g := new FunctionalGroup(AtomsAt(molAtoms, fg), AtomsAt(molAtoms, bonders), deleterAtoms, fgType);
  }

  /**
   * The last part of `get_functional_groups` for one type: search the
   * type's queries, then make the groups of its matches.
   */
  method GroupsFor(fgType: FGType, molAtoms: seq<Atom>, matcher: Matcher)
    returns (r: Result<seq<FunctionalGroup>, MatchError>)
    ensures r.Ok? == GroupsOfType(fgType, molAtoms, matcher).Ok?
    ensures r.Err? ==> r.error == GroupsOfType(fgType, molAtoms, matcher).error
    ensures r.Ok? ==> Realises(r.value, GroupsOfType(fgType, molAtoms, matcher).value)
    ensures r.Ok? ==> forall i :: 0 <= i < |r.value| ==> fresh(r.value[i])
  {
    var fgAtoms := matcher(fgType.fgSmarts);
    var bonderAtoms := RoleLists(fgAtoms, fgType.bonderSmarts, matcher);
    var deleterAtoms := RoleLists(fgAtoms, fgType.delSmarts, matcher);
    forall j | 0 <= j < |fgAtoms| && IdsBelow(fgAtoms[j], |molAtoms|)
      ensures IdsBelow(bonderAtoms[j], |molAtoms|) && IdsBelow(deleterAtoms[j], |molAtoms|)
    {
      RoleIdsBelow(fgAtoms[j], fgType.bonderSmarts, matcher, |molAtoms|);
      RoleIdsBelow(fgAtoms[j], fgType.delSmarts, matcher, |molAtoms|);
    }
    r := MakeGroups(fgAtoms, bonderAtoms, deleterAtoms, fgType, molAtoms);
  }

  /**
   * The loop over the matches zipped with their bonder and deleter ids:
   * one new functional group per match, its atoms looked up by id; an id
   * past the molecule's atoms raises `IndexError`.
   */
  method MakeGroups(fgAtoms: seq<seq<nat>>, bonderAtoms: seq<seq<nat>>, deleterAtoms: seq<seq<nat>>, fgType: FGType, molAtoms: seq<Atom>)
    returns (r: Result<seq<FunctionalGroup>, MatchError>)
    requires |bonderAtoms| == |deleterAtoms| == |fgAtoms|
    requires forall j :: 0 <= j < |fgAtoms| && IdsBelow(fgAtoms[j], |molAtoms|) ==>
      IdsBelow(bonderAtoms[j], |molAtoms|) && IdsBelow(deleterAtoms[j], |molAtoms|)
    ensures r.Ok? <==> InRange(fgAtoms, |molAtoms|)
    ensures r.Err? ==> r.error == IndexError
    ensures r.Ok? ==> |r.value| == |fgAtoms| && forall p :: 0 <= p < |fgAtoms| ==>
      fresh(r.value[p]) && r.value[p].View() == FoundFrom(fgAtoms[p], bonderAtoms[p], deleterAtoms[p], fgType, molAtoms)
  {
    var groups: seq<FunctionalGroup> := [];
    var i := 0;
    while i < |fgAtoms|
      invariant i <= |fgAtoms|
      invariant forall p :: 0 <= p < i ==> IdsBelow(fgAtoms[p], |molAtoms|)
      invariant |groups| == i
      invariant forall p :: 0 <= p < i ==>
        fresh(groups[p]) && groups[p].View() == FoundFrom(fgAtoms[p], bonderAtoms[p], deleterAtoms[p], fgType, molAtoms)
    {
      var fg := fgAtoms[i];
      if !IdsBelow(fg, |molAtoms|) {
        return Err(IndexError);
      }
      var g := MakeGroup(fg, bonderAtoms[i], deleterAtoms[i], fgType, molAtoms);
      groups := groups + [g];
      i := i + 1;
    }
    return Ok(groups);
  }

  /**
   * The loop of `get_functional_groups` over the sorted names: each name's
   * type is looked up in `table` and its groups are appended, the first
   * failure ending the search.
   */
  method FindGroups(sorted: seq<string>, table: map<string, FGType>, molAtoms: seq<Atom>, matcher: Matcher)
    returns (r: Result<seq<FunctionalGroup>, MatchError>)
    ensures r.Ok? == FindAll(sorted, table, molAtoms, matcher).Ok?
    ensures r.Err? ==> r.error == FindAll(sorted, table, molAtoms, matcher).error
    ensures r.Ok? ==> Realises(r.value, FindAll(sorted, table, molAtoms, matcher).value)
    ensures r.Ok? ==> forall i :: 0 <= i < |r.value| ==> fresh(r.value[i])
  {
    var groups: seq<FunctionalGroup> := [];
    var k := 0;
    while k < |sorted|
      invariant k <= |sorted|
      invariant FindAll(sorted[..k], table, molAtoms, matcher).Ok?
      invariant Realises(groups, FindAll(sorted[..k], table, molAtoms, matcher).value)
      invariant forall i :: 0 <= i < |groups| ==> fresh(groups[i])
    {
      FindAllStep(sorted, k, table, molAtoms, matcher);
      var name := sorted[k];
      if name !in table {
        FindAllFailureSticks(sorted, k + 1, table, molAtoms, matcher);
        return Err(KeyError(name));
      }
      var found := GroupsFor(table[name], molAtoms, matcher);
      if found.Err? {
        FindAllFailureSticks(sorted, k + 1, table, molAtoms, matcher);
        return Err(found.error);
      }
      ghost var before := FindAll(sorted[..k], table, molAtoms, matcher).value;
      ghost var added := GroupsOfType(table[name], molAtoms, matcher).value;
      RealisesJoin(groups, before, found.value, added);
      groups := groups + found.value;
      k := k + 1;
    }
    assert sorted[..|sorted|] == sorted;
    r := Ok(groups);
  }

  /**
   * `FGType.get_functional_groups`: sort the names, and for each name search
   * its type's whole-group query, gather each match's bonders and deleters,
   * and make one new functional group per match.
   */
  method GetFunctionalGroups(names: seq<string>, molAtoms: seq<Atom>, matcher: Matcher)
    returns (r: Result<seq<FunctionalGroup>, MatchError>)
    ensures r.Ok? == FunctionalGroupsOf(names, molAtoms, matcher).Ok?
    ensures r.Err? ==> r.error == FunctionalGroupsOf(names, molAtoms, matcher).error
    ensures r.Ok? ==> Realises(r.value, FunctionalGroupsOf(names, molAtoms, matcher).value)
    ensures r.Ok? ==> forall i :: 0 <= i < |r.value| ==> fresh(r.value[i])
  {
    var sorted := SortStrings(names);
    r := FindGroups(sorted, FgTypes, molAtoms, matcher);
  }
}
