# stk reaction engine, constructed-molecule bookkeeping and element table

This project models, in Dafny, three parts of the `stk` supramolecular
toolkit and proves properties of the model:

- the reaction engine of `stk/molecular/functional_groups.py`. It covers:
  - the order-insensitive reaction key `_ReactionKey`;
  - the functional-group types (`Match`, `FGType`, the `fg_types` table)
    and the search `FGType.get_functional_groups`;
  - the `FunctionalGroup` objects the search creates;
  - the `Reactor`, which adds bonds (and, for ring amines, atoms) between
    functional groups. It stages the deleter atoms and removes them, and
    every bond touching them, in `finalize`.
- the bookkeeping of `stk/molecular/molecules/constructed_molecule.py`:
  - construction failures wrapped in `ConstructionError`, with a message
    naming the topology and every building block;
  - functional-group ids reset to their indices;
  - `add_conformer`, which restores the original molecule on failure;
  - the cache key `_generate_key`.
- `stk/molecular/molecules/elements.py`: the `Bond` record, and the
  element classes that register themselves in `Atom._elements` under their
  atomic numbers.

The files:

- `wrappers.dfy`: `Option`, `Result` and `Outcome`.
- `ordering.dfy`: Python's `sorted` for strings and for (distance,
  carbon, oxygen) triples. It proves that the sorted permutation under a
  total order is unique, so any correct sort yields the model's.
- `reaction_key.dfy`: `_ReactionKey`.
- `functional_groups.dfy`: the types, the `FunctionalGroup` class and
  the matcher.
- `reactor_specs.dfy`: the tables and the pure functions the reactions
  are specified by.
- `reactor_steps.dfy`: each reaction as a pure step on the reactor's
  state, and what every step keeps.
- `reactor.dfy`: the `Molecule` and `Reactor` classes. Their methods edit
  the state in place and are proved to perform exactly those steps.
- `constructed_molecule.dfy`: the `ConstructedMolecule` class.
- `elements.dfy`: the element registry, `Atom` and `Bond`.

Several things come from outside and are parameters of the model:

- RDKit's SMARTS substructure search is a `Matcher`, a function from a
  query to its matches.
- Interatomic distances and atom coordinates are functions
  (`dist`, `coord`).
- A topology's `construct` is a function from conformer ids to a built
  molecule or a raised exception.
- A building block's MDL mol block is a function too.

At this revision the `stk` source has defects that stop it from running.
The model follows its evident intent:

- The entries of `fg_types` omit `FGType`'s `name` argument. In the model
  each type is named by its key in the table.
- `FGType.__slots__` names `fg_smarts`, `bonder_smarts` and `del_smarts`,
  but `__init__` assigns `_fg_smarts`, `_bonder_smarts` and
  `_del_smarts`. Building an `FGType` therefore raises `AttributeError`,
  and `fg_type.fg_smarts` could never be read. In the model a type holds
  its three queries under the names `get_functional_groups` reads.
- `get_functional_groups` sorts an undefined `fg_names`, calls
  `self.to_rdkit_mol()` on the type and indexes `self.atoms` of the type.
  In the model the names, the molecule's atoms and the matcher are
  parameters.
- The diol/dihalogen reaction builds its two bonds from bare atom ids,
  and `finalize` reads `bond.atom1.id` of every bond. This is listed under
  "Findings".

One modelling note: the reactor's bonds are built by `Bond(atom1, atom2,
order)` from the bond module that `functional_groups.py` imports, not by
the `Bond(order, atom1, atom2)` of `elements.py`. That bond module is not
part of this model. The reactor's bonds are therefore a datatype of their
own, `ReactorSpecs.Bond`, with atom ids as endpoints.

A second note: the ring-amine reaction makes its new atoms with
`elements.C(len(atoms))` and `elements.H(len(atoms))`, where `elements`
is `stk/molecular/elements.py` (imported at `functional_groups.py:54`).
That module is not part of this model. The model reads the argument as
the new atom's id, so the new atoms are numbered on from the atom count.
This differs from `Atom(n)` of `stk/molecular/molecules/elements.py`,
which reads its argument as an atomic number.

## Model

| member | source | states |
|---|---|---|
| ReactionKeys.Distinct | stk/molecular/functional_groups.py:109-116 | the keys of `Counter(names)`: each name present exactly once, nothing else |
| ReactionKeys.Counter | stk/molecular/functional_groups.py:109 | `Counter(names)` holds exactly the names given, each mapped to its number of occurrences |
| ReactionKeys.MakeKey | stk/molecular/functional_groups.py:95-116 | every (name, count) pair of the key names a given name with its true count |
| ReactionKeys.MakeKeyShape | stk/molecular/functional_groups.py:114-116 | the key lists every given name, once, in strictly ascending Python string order |
| ReactionKeys.SortedNamesShape | stk/molecular/functional_groups.py:114-116 | the sorted distinct names hold each given name exactly once |
| ReactionKeys.KeyRoundTrip | stk/molecular/functional_groups.py:95-116 | expanding the key by its counts gives back exactly the multiset of names |
| ReactionKeys.KeyDeterminesNames | stk/molecular/functional_groups.py:118-119 | equal keys come only from equal name multisets |
| ReactionKeys.KeyIgnoresOrder | stk/molecular/functional_groups.py:118-119 | any two orderings of the same names give equal keys |
| ReactionKeys.KeyEquality | stk/molecular/functional_groups.py:95-119 | two keys are equal if and only if their name multisets are equal |
| ReactionKeys.KeyCountsCopies | stk/molecular/functional_groups.py:109-116 | one more copy of any name, even one already present, changes the key |
| ReactionKeys.DocumentedPermutationExamples | stk/molecular/functional_groups.py:70-83 | the class documentation's examples: (amine, aldehyde, amine) keys like both of its reorderings |
| ReactionKeys.DocumentedCountExample | stk/molecular/functional_groups.py:85-90 | the documentation's last example: (amine, aldehyde) and (amine, aldehyde, amine) differ |
| Ordering.Insert | stk/molecular/functional_groups.py:776 | inserting adds exactly the one element |
| Ordering.SortBy | stk/molecular/functional_groups.py:776 | the sort is a permutation of its input |
| Ordering.InsertSorted | stk/molecular/functional_groups.py:776 | under a total order, inserting into a sorted list keeps it sorted |
| Ordering.SortBySorted | stk/molecular/functional_groups.py:776 | under a total order the result is ascending |
| Ordering.SortedUnique | stk/molecular/functional_groups.py:776 | under a total order two sorted permutations of one multiset are equal, so any correct sort gives the model's result |
| Ordering.SortByCanonical | stk/molecular/functional_groups.py:776 | inputs with the same elements sort to the same list |
| Ordering.StrLeAntisymmetric | stk/molecular/functional_groups.py:274 | Python string order: two strings each at most the other are equal |
| Ordering.StrLeTransitive | stk/molecular/functional_groups.py:274 | Python string order is transitive |
| Ordering.StrLeTotal | stk/molecular/functional_groups.py:274 | any two strings are comparable |
| Ordering.StrLeIsTotalOrder | stk/molecular/functional_groups.py:274 | Python string order is a total order |
| Ordering.SortStrings | stk/molecular/functional_groups.py:274 | `sorted(names)` is an ascending permutation of the names |
| Ordering.SortStringsCanonical | stk/molecular/functional_groups.py:270-274 | the same names in any order sort to the same list |
| FunctionalGroups.Ids | stk/molecular/functional_groups.py:434-470 | the id of every atom, in order, one per atom |
| FunctionalGroups.Remap | stk/molecular/functional_groups.py:427-430 | `atom_map.get(a, a)`: a mapped atom is replaced, any other atom kept, positions unchanged |
| FunctionalGroups.FunctionalGroup.constructor | stk/molecular/functional_groups.py:370-402 | the new group holds the given atoms, bonders, deleters and type, and no id yet |
| FunctionalGroups.FunctionalGroup.Clone | stk/molecular/functional_groups.py:404-432 | a new group of the same type with every atom list passed through the map; an empty map copies the group |
| FunctionalGroups.FunctionalGroup.AtomIds | stk/molecular/functional_groups.py:434-445 | the ids of the group's atoms, in order |
| FunctionalGroups.FunctionalGroup.BonderIds | stk/molecular/functional_groups.py:447-457 | the ids of the group's bonders, in order |
| FunctionalGroups.FunctionalGroup.DeleterIds | stk/molecular/functional_groups.py:459-470 | the ids of the group's deleters, in order |
| FunctionalGroups.RemapEmpty | stk/molecular/functional_groups.py:424-430 | with no atom map a clone keeps every atom |
| FunctionalGroups.Keep | stk/molecular/functional_groups.py:294-297 | the atoms of a match that the rule's query hits: exactly those, never more than the match has (their order: `KeepAppend`) |
| FunctionalGroups.KeepAppend | stk/molecular/functional_groups.py:294-297 | filtering a joined list filters each part and keeps the parts in order, so the kept ids follow the match's order |
| FunctionalGroups.RoleIdsWithinMatch | stk/molecular/functional_groups.py:287-300 | every bonder or deleter id gathered for a match is an atom of that match |
| FunctionalGroups.RoleIdsSkipsMissedRule | stk/molecular/functional_groups.py:289-300 | a rule whose query hits no atom of the match contributes nothing |
| FunctionalGroups.KeepNone | stk/molecular/functional_groups.py:294-297 | filtering by an empty hit set keeps nothing |
| FunctionalGroups.RoleIdsStep | stk/molecular/functional_groups.py:299-300 | each rule extends a match's list by the first `n` atoms its query hits |
| FunctionalGroups.RoleIds | stk/molecular/functional_groups.py:287-300 | a match gathers at most as many ids as its rules' `n` add up to |
| FunctionalGroups.RoleLists | stk/molecular/functional_groups.py:287-315 | the loop over the rules builds, for every match, exactly its bonder (or deleter) id list |
| FunctionalGroups.RoleIdsBelow | stk/molecular/functional_groups.py:317-325 | role ids taken from an in-range match are in range |
| FunctionalGroups.AtomsAt | stk/molecular/functional_groups.py:319-322 | `self.atoms[id_]` for each id, in order |
| FunctionalGroups.AtomsAtWithin | stk/molecular/functional_groups.py:317-325 | looking up a sub-list of the match's ids gives atoms of the group |
| FunctionalGroups.FoundForWellFormed | stk/molecular/functional_groups.py:317-326 | every group built has its bonders and deleters among its atoms, and no more of each than its rules allow |
| FunctionalGroups.FunctionalGroupsIgnoreNameOrder | stk/molecular/functional_groups.py:270-274 | asking for the same names in any order gives the same groups in the same order |
| FunctionalGroups.GroupsOfTypeWellFormed | stk/molecular/functional_groups.py:283-326 | every group of one type satisfies the role invariant |
| FunctionalGroups.GroupsOfType | stk/molecular/functional_groups.py:283-326 | one group of this type per match exactly when every matched id is an atom of the molecule; otherwise `IndexError` |
| FunctionalGroups.FoundGroupsWellFormed | stk/molecular/functional_groups.py:279-328 | every group the search returns satisfies the role invariant |
| FunctionalGroups.FindAllFailureSticks | stk/molecular/functional_groups.py:279-280 | once a name fails, the whole search fails with that error |
| FunctionalGroups.FindAllStep | stk/molecular/functional_groups.py:279-326 | an unknown name raises `KeyError`, a bad match raises `IndexError`, otherwise that name's groups are appended |
| FunctionalGroups.FindAll | stk/molecular/functional_groups.py:279-326 | success means every requested name is in the table; a `KeyError` names a requested name missing from it |
| FunctionalGroups.FunctionalGroupsOf | stk/molecular/functional_groups.py:270-326 | a `KeyError` names one of the requested names |
| FunctionalGroups.GroupsFor | stk/molecular/functional_groups.py:283-326 | the method builds one new group object per match, holding exactly the specified group, or fails as specified |
| FunctionalGroups.FindGroups | stk/molecular/functional_groups.py:279-326 | the loop over the names returns new objects holding exactly the groups the name table yields, or the first failure |
| FunctionalGroups.MakeGroups | stk/molecular/functional_groups.py:318-326 | the zipped loop makes one new group per match, over exactly the atoms at its ids, and fails with `IndexError` exactly when some id is past the atoms |
| FunctionalGroups.MakeGroup | stk/molecular/functional_groups.py:319-325 | one pass makes a new group over the atoms at the match, bonder and deleter ids |
| FunctionalGroups.GetFunctionalGroups | stk/molecular/functional_groups.py:254-328 | the method returns new objects holding exactly the specified groups for the sorted names, or the specified error |
| ReactorSpecs.Without | stk/molecular/functional_groups.py:730-733 | keeps exactly the atoms whose id is not staged (order and copies: `WithoutSnoc`) |
| ReactorSpecs.WithoutSnoc | stk/molecular/functional_groups.py:730-733 | a further atom is kept exactly when its id is not staged, after the atoms kept before it and in their order, each copy on its own |
| ReactorSpecs.BondsWithout | stk/molecular/functional_groups.py:734-738 | keeps exactly the bonds with neither endpoint staged |
| ReactorSpecs.RowsWithout | stk/molecular/functional_groups.py:739-742 | keeps only rows of the matrix, never more (which ones: `RowsWithoutSnoc`) |
| ReactorSpecs.RowsWithoutSnoc | stk/molecular/functional_groups.py:739-742 | row `i` is kept exactly when `i` is not staged, after the rows kept before it and in their order |
| ReactorSpecs.RowsFollowAtoms | stk/molecular/functional_groups.py:730-742 | when atom ids are indices, the kept rows stay aligned with the kept atoms |
| ReactorSpecs.WithoutNothingStaged | stk/molecular/functional_groups.py:730-733 | with no atom staged, the atom list is unchanged |
| ReactorSpecs.WithoutIdempotent | stk/molecular/functional_groups.py:730-733 | filtering twice removes nothing more |
| ReactorSpecs.FiledByNames | stk/molecular/functional_groups.py:598-605 | a table entry applies exactly when the reaction's names are the entry's names in some order |
| ReactorSpecs.AmineAldehydeBondIsDouble | stk/molecular/functional_groups.py:598-599 | an amine and an aldehyde, in either order, take the default reaction with bond order 2 |
| ReactorSpecs.ImineEntry | stk/molecular/functional_groups.py:598-599 | the amine/aldehyde entry has order 2 and no custom reaction |
| ReactorSpecs.BondOrder | stk/molecular/functional_groups.py:667 | `_bond_orders.get(key, 1)`: between single and triple, and single for a key not in the table |
| ReactorSpecs.AlkyneBondIsTriple | stk/molecular/functional_groups.py:604 | two `alkyne2` groups bond with order 3 |
| ReactorSpecs.NitrileNotRegistered | stk/molecular/functional_groups.py:941-1105 | no functional-group type is called 'nitrile' |
| ReactorSpecs.NitrileOrderUnreachable | stk/molecular/functional_groups.py:601 | the nitrile/aldehyde bond order can never apply to found groups |
| ReactorSpecs.CustomReactionFor | stk/molecular/functional_groups.py:655-658 | a custom reaction is found exactly when the key's names are filed in the table, and it is the one filed |
| ReactorSpecs.CustomReactionsEntries | stk/molecular/functional_groups.py:918-932 | the table holds exactly four keys, each filed with its own procedure |
| ReactorSpecs.CustomReactionsArePairs | stk/molecular/functional_groups.py:918-932 | every custom reaction is dispatched with exactly two groups |
| ReactorSpecs.CustomEntriesArePairs | stk/molecular/functional_groups.py:918-932 | every custom table entry names two groups |
| ReactorSpecs.BoronicDispatch | stk/molecular/functional_groups.py:918-921 | the boronic-acid/diol procedure runs exactly for a boronic acid and a diol |
| ReactorSpecs.DiolDispatch | stk/molecular/functional_groups.py:918-927 | the diol/dihalogen procedure runs exactly for a diol and a difluorene or dibromine |
| ReactorSpecs.RingAmineDispatch | stk/molecular/functional_groups.py:918-930 | the ring-amine procedure runs exactly for two ring amines |
| ReactorSpecs.CandidateLeIsTotalOrder | stk/molecular/functional_groups.py:776 | tuple order on (distance, carbon, oxygen) is a total order |
| ReactorSpecs.CandidateRow | stk/molecular/functional_groups.py:773-775 | one carbon against every oxygen, each with its distance |
| ReactorSpecs.Candidates | stk/molecular/functional_groups.py:771-775 | one candidate per carbon/oxygen combination |
| ReactorSpecs.CandidatesExactly | stk/molecular/functional_groups.py:771-775 | the candidates are exactly the carbon/oxygen combinations, each with its own distance |
| ReactorSpecs.GreedyDistinct | stk/molecular/functional_groups.py:778-784 | no carbon and no oxygen is used twice by the kept pairs |
| ReactorSpecs.GreedyFromCandidates | stk/molecular/functional_groups.py:778-784 | every kept pair comes from a candidate |
| ReactorSpecs.GreedyMaximal | stk/molecular/functional_groups.py:778-784 | every candidate shares a carbon or an oxygen with a kept pair |
| ReactorSpecs.GreedyFirst | stk/molecular/functional_groups.py:778-784 | the first candidate is always kept, as the first pair |
| ReactorSpecs.Greedy | stk/molecular/functional_groups.py:778-784 | never more pairs than candidates, and at least one from a non-empty list |
| ReactorSpecs.DiolPairs | stk/molecular/functional_groups.py:771-784 | at most one pair per combination, and at least one when both groups have bonders |
| ReactorSpecs.SortedCandidatesExactly | stk/molecular/functional_groups.py:771-776 | sorting keeps exactly the combinations |
| ReactorSpecs.DiolPairsFromBonders | stk/molecular/functional_groups.py:771-784 | each kept pair joins a dihalogen bonder to a diol bonder |
| ReactorSpecs.DiolPairsSucceedIff | stk/molecular/functional_groups.py:771-787 | two pairs are found if and only if both groups have two different bonders; otherwise the unpacking fails |
| ReactorSpecs.DiolPairsNeedDistinct | stk/molecular/functional_groups.py:776-787 | two pairs found use two different carbons and two different oxygens |
| ReactorSpecs.DiolPairsDisjoint | stk/molecular/functional_groups.py:778-784 | no two kept pairs share a carbon or an oxygen |
| ReactorSpecs.DistinctGiveTwoPairs | stk/molecular/functional_groups.py:776-787 | two different carbons and two different oxygens always give a second pair |
| ReactorSpecs.DiolFirstPairClosest | stk/molecular/functional_groups.py:771-788 | the first pair bonded is the closest carbon/oxygen combination |
| ReactorSpecs.FirstOfElement | stk/molecular/functional_groups.py:843-847 | `next(...)`: the first bonder of the element, or nothing when no bonder has it |
| ReactorSpecs.JoinerRows | stk/molecular/functional_groups.py:852-895 | nine rows; the three joiner carbons sit at the midpoints of (n1, n2), (c1, n2) and (c2, n1) |
| ReactorSpecs.JoinerAtoms | stk/molecular/functional_groups.py:852-895 | nine new atoms |
| ReactorSpecs.JoinerAtomsNumbered | stk/molecular/functional_groups.py:852-895 | the new atoms are numbered on from the atom count; every third one, from the first, is a carbon, the others hydrogens |
| ReactorSpecs.JoinerBonds | stk/molecular/functional_groups.py:897-910 | twelve new bonds |
| ReactorSpecs.JoinerBondsSingle | stk/molecular/functional_groups.py:897-910 | all twelve bonds are single and not periodic |
| ReactorSpecs.JoinerValences | stk/molecular/functional_groups.py:852-910 | each joiner carbon gets four bonds, each new hydrogen one |
| ReactorSpecs.RingAmineRows | stk/molecular/functional_groups.py:849-895 | nine rows, the coordinates taken in the order the atoms are named |
| ReactorSpecs.RingAmineRowsConsistent | stk/molecular/functional_groups.py:849-910 | each joiner carbon's row is the midpoint of the two existing atoms it is bonded to |
| ReactorSpecs.RingAmineRowsAsWritten | stk/molecular/functional_groups.py:849-850 | nine rows, with the coordinates unpacked as the source does |
| ReactorSpecs.RingAmineRowsAsWrittenMisplaced | stk/molecular/functional_groups.py:849-856 | a concrete input on which the source's rows put a joiner away from the atoms it is bonded to |
| ReactorSteps.NamesOf | stk/molecular/functional_groups.py:655 | the groups' type names, in order |
| ReactorSteps.StageAll | stk/molecular/functional_groups.py:660-665 | one group out per group in |
| ReactorSteps.StagedIds | stk/molecular/functional_groups.py:660-661 | staging only adds ids |
| ReactorSteps.StageOne | stk/molecular/functional_groups.py:661-665 | a staged group keeps its bonders and type and loses its deleters; when atoms are filtered it keeps exactly its atoms whose id is not staged, otherwise all of them |
| ReactorSteps.StageAllKeepsRoles | stk/molecular/functional_groups.py:660-665 | staging every group keeps each group's bonders and type |
| ReactorSteps.StagedIdsExactly | stk/molecular/functional_groups.py:660-661 | the staged ids are exactly the earlier ones plus the deleter ids of the groups staged |
| ReactorSteps.StagedIdsGrow | stk/molecular/functional_groups.py:660-661 | staging never forgets an id |
| ReactorSteps.StagingDropsDeleters | stk/molecular/functional_groups.py:660-665 | after a shrinking stage no group holds a deleter of itself or of an earlier group; its bonders stay and its deleters are cleared |
| ReactorSteps.StagingKeepsOthers | stk/molecular/functional_groups.py:660-665 | staging keeps every atom nothing staged names |
| ReactorSteps.DefaultStepKeeps | stk/molecular/functional_groups.py:660-672 | the default reaction keeps the reactor invariant; a failure adds no bond |
| ReactorSteps.PeriodicStepKeeps | stk/molecular/functional_groups.py:695-717 | the periodic reaction keeps the reactor invariant; a failure adds no bond |
| ReactorSteps.BoronicStepKeeps | stk/molecular/functional_groups.py:792-823 | the boronic-acid/diol reaction keeps the reactor invariant |
| ReactorSteps.DiolStepKeeps | stk/molecular/functional_groups.py:746-790 | the diol/dihalogen reaction keeps the reactor invariant; a failure adds no bond |
| ReactorSteps.RingAmineStepKeeps | stk/molecular/functional_groups.py:825-912 | the ring-amine reaction keeps the reactor invariant; a failure adds no bond |
| ReactorSteps.DefaultStep | stk/molecular/functional_groups.py:660-672 | atoms and rows untouched; succeeds exactly when two groups with bonders are given, then one bond is added and counted; a failure adds and counts nothing |
| ReactorSteps.PeriodicStep | stk/molecular/functional_groups.py:695-717 | atoms and rows untouched; succeeds exactly when two groups with bonders are given, then one periodic bond is added and counted; a failure adds nothing |
| ReactorSteps.PeriodicBondStep | stk/molecular/functional_groups.py:705-717 | the same, once the bond order is known |
| ReactorSteps.BoronicStep | stk/molecular/functional_groups.py:792-823 | atoms and rows untouched; succeeds exactly when the boronic acid has a bonder and the diol two, adding and counting two bonds; a failure counts nothing |
| ReactorSteps.DiolStep | stk/molecular/functional_groups.py:746-790 | atoms, rows, staged ids and groups untouched; succeeds exactly when both groups have two different bonder ids, adding and counting two bonds; a failure changes nothing |
| ReactorSteps.RingAmineStep | stk/molecular/functional_groups.py:825-912 | staged ids and groups untouched; succeeds exactly when both groups have a carbon and a nitrogen bonder, adding nine atoms with their rows and twelve counted bonds; a failure changes nothing |
| ReactorSteps.ReactionStep | stk/molecular/functional_groups.py:629-672 | a successful reaction counts at least one bond; a failed one counts none and leaves the atoms alone |
| ReactorSteps.Finalized | stk/molecular/functional_groups.py:719-744 | keeps exactly the unstaged atoms and the bonds with no staged endpoint; the count of bonds made is returned unchanged |
| ReactorSteps.ReactionKeeps | stk/molecular/functional_groups.py:629-672 | every reaction only adds: bonds made count the bonds added while reactions succeed, and only the boronic-acid/diol reaction can fail after adding a bond |
| ReactorSteps.BoronicFailureLeavesUncountedBond | stk/molecular/functional_groups.py:820-823 | a diol with one bonder leaves one bond added but not counted |
| ReactorSteps.ReactionStaging | stk/molecular/functional_groups.py:629-672 | the default and boronic reactions stage every deleter and shrink the groups; the diol and ring-amine reactions stage nothing |
| ReactorSteps.DispatchDefault | stk/molecular/functional_groups.py:655-672 | with no custom reaction filed, the default reaction runs with the key's bond order |
| ReactorSteps.DispatchBoronic | stk/molecular/functional_groups.py:655-658 | the boronic entry runs the boronic-acid/diol reaction on two groups |
| ReactorSteps.DispatchDiol | stk/molecular/functional_groups.py:655-658 | a diol entry runs the diol/dihalogen reaction on two groups |
| ReactorSteps.DispatchRingAmine | stk/molecular/functional_groups.py:655-658 | the ring-amine entry runs the ring-amine reaction on two groups |
| ReactorSteps.DefaultStepStages | stk/molecular/functional_groups.py:660-665 | the default reaction stages every deleter id of the groups and shrinks them |
| ReactorSteps.BoronicStepStages | stk/molecular/functional_groups.py:810-815 | the boronic-acid/diol reaction stages every deleter id and shrinks the groups |
| ReactorSteps.DiolStepStagesNothing | stk/molecular/functional_groups.py:746-790 | the diol/dihalogen reaction stages nothing and leaves the groups alone |
| ReactorSteps.RingAmineStepStagesNothing | stk/molecular/functional_groups.py:825-912 | the ring-amine reaction stages nothing and leaves the groups alone |
| ReactorSteps.FinalizeRemovesStaged | stk/molecular/functional_groups.py:719-744 | no staged atom and no bond touching one survives; with aligned rows each kept atom keeps its row |
| ReactorSteps.AmineAldehydeMakesImine | stk/molecular/functional_groups.py:629-672 | an amine and an aldehyde make one double bond between their first bonders |
| ReactorSteps.DefaultStepJoinsFirstBonders | stk/molecular/functional_groups.py:667-672 | the default reaction bonds the two groups' first bonders and counts one bond |
| ReactorSteps.PeriodicStepJoinsFirstBonders | stk/molecular/functional_groups.py:705-717 | two groups with bonders: the one bond added is the periodic bond between their first bonders, with the key's bond order and the direction given, and it is counted |
| ReactorSteps.PeriodicStepStages | stk/molecular/functional_groups.py:695-698 | the periodic reaction stages every deleter id and clears the deleters, but leaves each group's atoms as they were |
| ReactorSteps.PeriodicBondStepStages | stk/molecular/functional_groups.py:695-698 | once the order is known, the staged ids and groups are those of the staging loop without shrinking |
| ReactorSteps.BoronicStepJoinsBoron | stk/molecular/functional_groups.py:817-823 | a boronic acid with a bonder and a diol with two: single bonds from the boron bonder to the diol's first and second bonders, in that order, both counted |
| ReactorSteps.DiolStepBondsPairs | stk/molecular/functional_groups.py:771-790 | both groups with two different bonders: single bonds for the first two greedy pairs, each from a dihalogen bonder to a diol bonder, sharing neither, both counted |
| ReactorSteps.HeldAll | stk/molecular/functional_groups.py:734-738 | bonds whose endpoints are atom objects, one per bond, in order |
| ReactorSteps.DiolHeldBonds | stk/molecular/functional_groups.py:786-789 | as written, the bonds before a diol/dihalogen reaction followed by two bonds whose endpoints are bare ids |
| ReactorSteps.IdOf | stk/molecular/functional_groups.py:736-737 | `.id` is read exactly from an atom object; on a bare id it raises `AttributeError` |
| ReactorSteps.HeldBondsWithout | stk/molecular/functional_groups.py:734-738 | the filter as written succeeds exactly when every bond's endpoints it reads are atoms, and then keeps exactly the bonds of atoms with no staged endpoint; otherwise `AttributeError` |
| ReactorSteps.HeldObjectStep | stk/molecular/functional_groups.py:734-738 | a bond of atom objects after a readable prefix is kept exactly when neither endpoint is staged |
| ReactorSteps.HeldFilterAgrees | stk/molecular/functional_groups.py:734-738 | on bonds of atom objects the filter as written keeps exactly the bonds the corrected filter keeps |
| ReactorSteps.HeldSnocAgrees | stk/molecular/functional_groups.py:734-738 | a further bond of atom objects after an agreeing prefix: the filter as written still keeps what the corrected filter keeps |
| ReactorSteps.HeldFailureSticks | stk/molecular/functional_groups.py:734-738 | once the filter raises, later bonds do not change the error |
| ReactorSteps.BareIdFails | stk/molecular/functional_groups.py:734-738 | a bond with a bare id after bonds of atom objects makes the filter raise `AttributeError` |
| ReactorSteps.DiolThenFinalizeFails | stk/molecular/functional_groups.py:734-738 | as written, `finalize` after a successful diol/dihalogen reaction raises `AttributeError`, whatever later reactions add and whatever is staged |
| ReactorSteps.DiolBondsSurviveFinalize | stk/molecular/functional_groups.py:786-790 | as intended, the reaction adds and counts two bonds, and each of them with no staged endpoint survives `finalize` |
| Reactions.Molecule.constructor | stk/molecular/functional_groups.py:607-627 | the molecule holds the given atoms, bonds and rows |
| Reactions.Molecule.AddAtom | stk/molecular/functional_groups.py:852-855 | appends an atom numbered by the atom count, and its row |
| Reactions.Molecule.AddJoiner | stk/molecular/functional_groups.py:852-865 | appends a joiner carbon and its two hydrogens with their rows |
| Reactions.Molecule.JoinRings | stk/molecular/functional_groups.py:852-910 | appends exactly the nine joiner atoms, their rows and the twelve bonds |
| Reactions.Views | stk/molecular/functional_groups.py:655 | the current value of each group |
| Reactions.Reactor.constructor | stk/molecular/functional_groups.py:607-627 | a reactor with nothing staged and no bonds made |
| Reactions.Reactor.Stage | stk/molecular/functional_groups.py:660-665 | the staging loop leaves the groups and staged ids exactly as specified |
| Reactions.Reactor.StageEach | stk/molecular/functional_groups.py:660-665 | after the loop every group is staged against the ids staged before it, and the ids staged are all their deleter ids |
| Reactions.Reactor.StageGroup | stk/molecular/functional_groups.py:661-665 | one pass stages the next group against the ids staged so far, adds its deleter ids and leaves the other groups alone |
| Reactions.Reactor.AddReaction | stk/molecular/functional_groups.py:629-672 | performs exactly the specified reaction step; group ids unchanged |
| Reactions.Reactor.CustomReaction | stk/molecular/functional_groups.py:655-658 | the custom branch performs exactly the specified step |
| Reactions.Reactor.DefaultReaction | stk/molecular/functional_groups.py:660-672 | the default branch performs exactly the specified default step |
| Reactions.Reactor.AddPeriodicReaction | stk/molecular/functional_groups.py:674-717 | performs exactly the specified periodic step |
| Reactions.Reactor.PeriodicReaction | stk/molecular/functional_groups.py:695-717 | stages and bonds exactly as the periodic step, once the order is known |
| Reactions.Reactor.Finalize | stk/molecular/functional_groups.py:719-744 | the new state is the finalized state, and the bonds made are returned |
| Reactions.Reactor.DiolWithDihalogen | stk/molecular/functional_groups.py:746-790 | performs exactly the specified diol/dihalogen step |
| Reactions.Reactor.BoronicAcidWithDiol | stk/molecular/functional_groups.py:792-823 | performs exactly the specified boronic-acid/diol step |
| Reactions.Reactor.RingAmineWithRingAmine | stk/molecular/functional_groups.py:825-912 | performs exactly the specified ring-amine step |
| Reactions.ClosestPairs | stk/molecular/functional_groups.py:771-787 | the pairs of the specification, none sharing a carbon or an oxygen |
| Reactions.CandidatesOf | stk/molecular/functional_groups.py:771-775 | the nested loops list exactly the specified candidates |
| Reactions.DedupePairs | stk/molecular/functional_groups.py:778-784 | the deduplication loop keeps exactly the specified pairs |
| ConstructedMolecules.ConformersOrDefault | stk/molecular/molecules/constructed_molecule.py:251-252 | with no ids given, `-1` for every building block; otherwise the ids given |
| ConstructedMolecules.JoinAt | stk/molecular/molecules/constructed_molecule.py:283 | each part appears in the joined text at its offset |
| ConstructedMolecules.NamesReprHoldsNames | stk/molecular/molecules/constructed_molecule.py:276-282 | the list repr holds each functional-group name, quoted |
| ConstructedMolecules.NamesRepr | stk/molecular/molecules/constructed_molecule.py:280 | a bracketed list, `[]` when there are no names |
| ConstructedMolecules.BlockTextNames | stk/molecular/molecules/constructed_molecule.py:276-282 | a block is the class name, a space, the repr of its group names, a newline and the mol block of its conformer, in that order |
| ConstructedMolecules.BlockText | stk/molecular/molecules/constructed_molecule.py:279-281 | the block's length adds up its parts, and it ends with the mol block of its conformer |
| ConstructedMolecules.Blocks | stk/molecular/molecules/constructed_molecule.py:275-282 | one block per building block |
| ConstructedMolecules.FailureNamesTopology | stk/molecular/molecules/constructed_molecule.py:263-285 | the failure message opens with the heading and names the topology |
| ConstructedMolecules.FailureNamesBlock | stk/molecular/molecules/constructed_molecule.py:263-285 | the failure message holds the block of every building block |
| ConstructedMolecules.FailureWithTooFewConformers | stk/molecular/molecules/constructed_molecule.py:276-278 | the handler raises `IndexError` if and only if there are fewer conformer ids than building blocks; the cause is kept |
| ConstructedMolecules.Failure | stk/molecular/molecules/constructed_molecule.py:263-285 | the cause is kept; `ConstructionError` exactly when every building block has a conformer id, with a message opening with the heading, otherwise the handler's `IndexError` |
| ConstructedMolecules.ReportFailure | stk/molecular/molecules/constructed_molecule.py:263-285 | the handler's loop builds exactly the specified failure |
| ConstructedMolecules.LastIndex | stk/molecular/molecules/constructed_molecule.py:290-291 | the last position where a group occurs |
| ConstructedMolecules.LastIndexOfDistinct | stk/molecular/molecules/constructed_molecule.py:290-291 | in a list without repeats a group's last position is its index |
| ConstructedMolecules.NextConformerId | stk/molecular/molecules/constructed_molecule.py:357 | a conformer id above every existing one: one more than the largest, or 0 |
| ConstructedMolecules.WithConformer | stk/molecular/molecules/constructed_molecule.py:355-357 | one conformer more, with the given positions and an id above every old one; the old conformers keep their places |
| ConstructedMolecules.WithConformerKeepsIdsDistinct | stk/molecular/molecules/constructed_molecule.py:355-357 | adding a conformer keeps conformer ids distinct and the old conformers in place |
| ConstructedMolecules.ConstructedMolecule.constructor | stk/molecular/molecules/constructed_molecule.py:254-261 | the building blocks, topology and built parts are recorded |
| ConstructedMolecules.ConstructedMolecule.AssignIds | stk/molecular/molecules/constructed_molecule.py:287-291 | each group's id becomes its last index, so distinct groups get their own index; the groups are otherwise unchanged |
| ConstructedMolecules.AssignId | stk/molecular/molecules/constructed_molecule.py:290-291 | one pass gives the next group its index and keeps the loop invariant: every group seen so far holds its last index |
| ConstructedMolecules.ConstructedMolecule.AddConformer | stk/molecular/molecules/constructed_molecule.py:295-359 | on failure the molecule is restored and the wrapped error raised; on success the ids are reset, each group otherwise unchanged, and the new conformer is added to the original molecule with a fresh id |
| ConstructedMolecules.New | stk/molecular/molecules/constructed_molecule.py:212-293 | a failure is wrapped as specified; otherwise a new molecule with the built parts and group ids equal to indices, each group otherwise unchanged |
| ConstructedMolecules.DefaultConformersCoverBlocks | stk/molecular/molecules/constructed_molecule.py:251-285 | with default conformer ids the handler always raises `ConstructionError` |
| ConstructedMolecules.GenerateKey | stk/molecular/molecules/constructed_molecule.py:576-577 | the key holds exactly the building-block keys, as a set |
| ConstructedMolecules.KeyIgnoresOrderAndCopies | stk/molecular/molecules/constructed_molecule.py:576-577 | the same building blocks in any order or multiplicity, with any conformer ids, give the same key |
| ConstructedMolecules.KeyIgnoresDuplicate | stk/molecular/molecules/constructed_molecule.py:576-577 | repeating a building block does not change the key |
| ConstructedMolecules.KeyDistinguishes | stk/molecular/molecules/constructed_molecule.py:576-577 | equal keys mean the same topology repr and the same building-block keys |
| Elements.DefinedAsWritten | stk/molecular/molecules/elements.py:53-639 | the classes in order of atomic number; four declare it under a misspelled name |
| Elements.Defined | stk/molecular/molecules/elements.py:53-639 | the classes as intended, each declaring `atomic_number` |
| Elements.Register | stk/molecular/molecules/elements.py:46-47 | registering in turn either fills the table as `Fill` does or fails on a class without `atomic_number` |
| Elements.Fill | stk/molecular/molecules/elements.py:46-47 | no number is dropped, and the class registered last sits under its number |
| Elements.RegisterSpelled | stk/molecular/molecules/elements.py:46-47 | a run of well-spelled classes is registered one after another |
| Elements.FillNumbered | stk/molecular/molecules/elements.py:46-47 | classes numbered consecutively register exactly those numbers, each to its class |
| Elements.RegistryAsWrittenFails | stk/molecular/molecules/elements.py:46-104 | as written, defining `Na` raises `AttributeError` and the import fails |
| Elements.Registry | stk/molecular/molecules/elements.py:46-639 | the registry the corrected module builds |
| Elements.RegistryComplete | stk/molecular/molecules/elements.py:46-639 | the corrected registry holds exactly 1 to 118, each number under its own class |
| Elements.RegistrySamples | stk/molecular/molecules/elements.py:53-90 | H is 1, C 6, N 7 and O 8 |
| Elements.MisspelledRegistered | stk/molecular/molecules/elements.py:103-399 | the corrected Na, Cl, K and Yb are 11, 17, 19 and 70 |
| Elements.Lookup | stk/molecular/molecules/elements.py:49-50 | finds a class exactly for a registered number, otherwise `KeyError` |
| Elements.LookupCorrected | stk/molecular/molecules/elements.py:49-50 | in the corrected registry, exactly 1 to 118 find their element |
| Elements.Atom.constructor | stk/molecular/molecules/elements.py:49-50 | the atom is of the given element |
| Elements.NewAtom | stk/molecular/molecules/elements.py:49-50 | `Atom(n)` is a new atom of the registered element, or `KeyError` |
| Elements.Bond.constructor | stk/molecular/molecules/elements.py:18-21 | the bond holds the order and the two atoms given |

## Left out

- RDKit is not part of this model. SMARTS matching, sanitising, distances and coordinates are parameters, as are mol blocks and conformers. For conformers, only their ids and positions are kept.
- Floating point: positions and distances are exact reals. Ties in distance are broken by ids, as Python's tuple order does.
- `Topology.construct` is a parameter. On failure only the `_mol` it leaves behind is modelled; its partial writes to `bonds_made` and `func_groups` are not.
- Caching: the metaclass cache, `use_cache` and `Molecule.__init__` (`super().__init__()`) are not modelled. Only the key `_generate_key` computes is.
- `__repr__` and `__str__` of `_ReactionKey`, `Match`, `FGType` and `FunctionalGroup` are left out as text formatting.
- `_ReactionKey.__hash__` (`hash(self._key)`, `functional_groups.py:121-122`) is modelled by key equality: the keys are a datatype, and the dictionary lookups at lines 655 and 667 are `map` lookups on it.
- `Match.__hash__` (`functional_groups.py:174-175`) returns a tuple rather than an `int`, so hashing a `Match` would raise `TypeError`. No path in this model hashes a `Match`, so it is not modelled. `FGType` and `FunctionalGroup` define no `__hash__`.
- ConstructedMolecules.NamesRepr: the model quotes names with `'` and does not escape them as Python's `repr` does. Names containing quotes or backslashes are not modelled.
- Element masses, and every method of `constructed_molecule.py` other than `__init__`, `add_conformer` and `_generate_key`, are not part of this model.
- `FunctionalGroup(..., fg_type=<name>)`: building a group from a type's name is left out. The model always passes the `FGType`. As written, the generator compares each type with its own name and never matches.
- `Reactor._deleter_bonds` is initialised and never used, so it is not modelled.
- `_periodic_custom_reactions` is empty, so the periodic custom dispatch is not modelled.
- Aliasing: the reactor's methods and the id loop require distinct functional-group objects (`NoDup`). For the ids the model proves only that each group gets its last index. A group listed twice is not modelled further.
- Reactions.Reactor.DiolWithDihalogen: the source's `assert c1 != c2 and o1 != o2` is proved to hold rather than modelled as a possible failure.
- Python exceptions are modelled as error values returned by the operation. Any state changed before the failure is part of that value.
- ReactorSteps.DiolStep: the two new bonds have atom ids as endpoints, as every other bond of the model does. The source builds them from bare ids, which `finalize` cannot read; that form is `DiolHeldBonds` (see "Findings").
- Reactions.Reactor.DiolWithDihalogen: performs the corrected `DiolStep`, not the bare-id bonds of the source.
- ReactorSteps.Finalized: filters bonds by endpoint ids and so never fails. The filter as written, which raises `AttributeError` on a bare id, is `HeldBondsWithout`.
- Reactions.Reactor.Finalize: performs the corrected `Finalized`. It does not raise `AttributeError` after a diol/dihalogen reaction as the source does.
- ReactorSteps.RingAmineStep: places the joiner rows with the corrected `RingAmineRows`, not the source's unpacking of the coordinates (`RingAmineRowsAsWritten`, see "Findings").
- Reactions.Molecule.JoinRings: is given the rows of the corrected `RingAmineRows`, not those of the source's unpacking.
- Reactions.Reactor.RingAmineWithRingAmine: performs the corrected `RingAmineStep`, not the source's unpacking of the coordinates.
- ConstructedMolecules.ConstructedMolecule.AddConformer: takes a list of conformer ids only. The documented `None`, meaning `-1` for every building block, is not accepted: the code has no such default. It passes `None` on to `construct`, whose behaviour on it is not part of this model, and on failure the handler's `bb_conformers[i]` raises `TypeError`.
- ConstructedMolecules.ConstructedMolecule.AddConformer: the built groups are promised unchanged apart from their ids only when they exist at the call (`old(allocated(built))`). `construct` is a function here, so groups it would create during the call are not modelled.
- ConstructedMolecules.New: the same allocation condition on the promise that the built groups change only in their ids.

## Findings

| source | as written | input that shows it | evidently intended | confidence | as-written member | corrected member |
|---|---|---|---|---|---|---|
| stk/molecular/molecules/elements.py:103-104 | `Na`, `Cl`, `K` and `Yb` declare `atomic_nubmer`; `__init_subclass__` reads `cls.atomic_number` | importing the module: defining `Na` raises `AttributeError` after H to Ne are registered | every element declares `atomic_number`, and the registry holds 1 to 118 | not executed | Elements.RegistryAsWrittenFails | Elements.RegistryComplete |
| stk/molecular/functional_groups.py:849-850 | coordinates requested for `(c1, n1, c2, n2)` are unpacked as `n1, n2, c1, c2` | c1, n1, c2, n2 at x = 0, 1, 2, 3: the joiner bonded to both nitrogens is put at x = 0.5, not 2 | each joiner carbon sits midway between the two atoms it bonds | not executed | ReactorSpecs.RingAmineRowsAsWrittenMisplaced | ReactorSpecs.RingAmineRowsConsistent |
| stk/molecular/functional_groups.py:788-789 | the two diol/dihalogen bonds are `Bond(c1, o1, 1)` and `Bond(c2, o2, 1)`, with `c1`, `o1`, `c2`, `o2` ids from `get_bonder_ids()`; `finalize` (736) reads `bond.atom1.id` of every bond | any successful diol/dihalogen reaction followed by `finalize`: reading `.id` of the bare id `c1` raises `AttributeError` | the bonds join the bonder atoms themselves, and `finalize` keeps each one with no staged endpoint | not executed | ReactorSteps.DiolThenFinalizeFails | ReactorSteps.DiolBondsSurviveFinalize |
