/**
 * `ConstructedMolecule`: the bookkeeping around a topology's construction
 * of a molecule from building blocks.
 *
 * The construction itself (`Topology.construct`) is a parameter: for the
 * building-block conformer ids it is given, it either builds a molecule,
 * its bond count and its functional groups, or raises. The rdkit molecule
 * is reduced to its list of conformers, and a building block's MDL mol
 * block, which rdkit writes, is a parameter too.
 */
module ConstructedMolecules {
  import opened Wrappers
  import opened ReactionKeys
  import opened FunctionalGroups
  import opened ReactorSpecs

  /** The parts of a building block the bookkeeping reads: its class name, group names and cache key. */
  datatype BuildingBlock = BuildingBlock(className: string, fgNames: seq<string>, key: string)

  /** A topology as text: `str(topology)` for messages and `repr(topology)` for the cache key. */
  datatype Topology = Topology(text: string, reprText: string)

  /** A conformer of an rdkit molecule: its id and its atom positions. */
  datatype Conformer = Conformer(id: nat, positions: seq<Pos>)

  /** An rdkit molecule, as far as conformers go. */
  datatype RdMol = RdMol(conformers: seq<Conformer>)

  /** What a successful `Topology.construct` leaves on the molecule. */
  datatype Built = Built(mol: RdMol, bondsMade: nat, funcGroups: seq<FunctionalGroup>)

  /**
   * The result of `Topology.construct`: the built parts, or the exception
   * it raised together with the rdkit molecule it had left in `_mol`.
   */
  datatype Construction =
    | Constructed(built: Built)
    | Raised(cause: string, molAtFailure: RdMol)

  /** `Topology.construct`, applied to the building-block conformer ids. */
  type Constructor = seq<int> -> Construction

  /** `bb.mdl_mol_block(conformer)`, written by rdkit. */
  type MolBlock = (BuildingBlock, int) -> string

  /**
   * The exceptions that leave `__init__` and `add_conformer`: the wrapped
   * construction failure; an `IndexError` raised inside the handler when
   * fewer conformer ids than building blocks were given (the original
   * exception is then only its context); and, in `add_conformer`, the
   * rdkit error of asking a molecule without conformers for one.
   */
  datatype ConstructionFailure =
    | ConstructionError(message: string, cause: string)
    | HandlerIndexError(cause: string)
    | BadConformerId

  /** The groups a construction hands over, none when it raised. */
  function BuiltGroups(c: Construction): seq<FunctionalGroup> {
    if c.Constructed? then c.built.funcGroups else []
  }

  // ---------------------------------------------------------------------
  // Default conformers
  // ---------------------------------------------------------------------

  /** `bb_conformers`, or one `-1` per building block when it is `None`. */
  function ConformersOrDefault(bbs: seq<BuildingBlock>, given: Option<seq<int>>): (confs: seq<int>)
    ensures given.None? ==> |confs| == |bbs| && forall i :: 0 <= i < |confs| ==> confs[i] == -1
    ensures given.Some? ==> confs == given.value
  {
    if given.None? then seq(|bbs|, _ => -1) else given.value
  }

  // ---------------------------------------------------------------------
  // The failure message
  // ---------------------------------------------------------------------

  /** `sep.join(parts)` */
  function Join(parts: seq<string>, sep: string): string {
    if |parts| == 0 then ""
    else if |parts| == 1 then parts[0]
    else parts[0] + sep + Join(parts[1..], sep)
  }

  /** Where the `i`-th part starts in `sep.join(parts)`. */
  function JoinOffset(parts: seq<string>, sep: string, i: nat): nat
    requires i < |parts|
  {
    if i == 0 then 0 else |parts[0]| + |sep| + JoinOffset(parts[1..], sep, i - 1)
  }

  /** Every part can be read back from the joined string at its offset. */
  lemma {:induction false} JoinAt(parts: seq<string>, sep: string, i: nat)
    requires i < |parts|
    ensures JoinOffset(parts, sep, i) + |parts[i]| <= |Join(parts, sep)|
    ensures Join(parts, sep)[JoinOffset(parts, sep, i)..JoinOffset(parts, sep, i) + |parts[i]|] == parts[i]
  {
    if i == 0 {
      if |parts| > 1 {
        assert Join(parts, sep) == parts[0] + (sep + Join(parts[1..], sep));
      }
    } else {
      var rest := Join(parts[1..], sep);
      var o := JoinOffset(parts[1..], sep, i - 1);
      JoinAt(parts[1..], sep, i - 1);
      var head := parts[0] + sep;
      assert Join(parts, sep) == head + rest;
      SliceOfAppend(head, rest, o, |parts[i]|);
    }
  }

  /** A slice of the second half of a concatenation, read from the whole. */
  lemma SliceOfAppend(h: string, j: string, p: nat, n: nat)
    requires p + n <= |j|
    ensures (h + j)[|h| + p..|h| + p + n] == j[p..p + n]
  {
  }

  /** `repr(name)` of a name with no quote, backslash or unprintable character. */
  function Quoted(name: string): string {
    "'" + name + "'"
  }

  /** `repr` of a list of names: `['amine', 'aldehyde']`. */
  function NamesRepr(names: seq<string>): (text: string)
    ensures |text| >= 2 && text[0] == '[' && text[|text| - 1] == ']'
    ensures names == [] ==> text == "[]"
  {
    "[" + Join(seq(|names|, j requires 0 <= j < |names| => Quoted(names[j])), ", ") + "]"
  }

  /** The list's repr spells out each name, quoted, in order. */
  lemma NamesReprHoldsNames(names: seq<string>, j: nat)
    requires j < |names|
    ensures var quoted := seq(|names|, k requires 0 <= k < |names| => Quoted(names[k]));
      var o := 2 + JoinOffset(quoted, ", ", j);
      o + |names[j]| <= |NamesRepr(names)| && NamesRepr(names)[o..o + |names[j]|] == names[j]
  {
    var quoted := seq(|names|, k requires 0 <= k < |names| => Quoted(names[k]));
    var joined := Join(quoted, ", ");
    var p := JoinOffset(quoted, ", ", j);
    JoinAt(quoted, ", ", j);
    QuotedInside(joined, p, names[j]);
  }

  /** A quoted name found at `p` of the joined text is read back at `p + 2` of the bracketed text. */
  lemma QuotedInside(joined: string, p: nat, name: string)
    requires p + |name| + 2 <= |joined| && joined[p..p + |name| + 2] == Quoted(name)
    ensures ("[" + joined + "]")[2 + p..2 + p + |name|] == name
  {
    var n := |name|;
    SliceOfSlice(joined, p, p + n + 2, 1, 1 + n);
    SliceInside("'", name, "'", 0, n);
    SliceInside("[", joined, "]", p + 1, p + 1 + n);
  }

  /** A slice of a slice is a slice of the whole. */
  lemma SliceOfSlice<T>(s: seq<T>, a: nat, b: nat, c: nat, d: nat)
    requires a <= b <= |s| && c <= d <= b - a
    ensures s[a..b][c..d] == s[a + c..a + d]
  {
    forall i | 0 <= i < d - c ensures s[a..b][c..d][i] == s[a + c..a + d][i] {
      assert s[a..b][c..d][i] == s[a..b][c + i] == s[a + c + i];
    }
  }

  /** Slicing the middle part of a concatenation. */
  lemma SliceInside<T>(pre: seq<T>, x: seq<T>, post: seq<T>, i: nat, j: nat)
    requires i <= j <= |x|
    ensures (pre + x + post)[|pre| + i..|pre| + j] == x[i..j]
  {
    forall k | 0 <= k < j - i ensures (pre + x + post)[|pre| + i..|pre| + j][k] == x[i..j][k] {
      assert (pre + x + post)[|pre| + i + k] == x[i + k];
    }
  }

  /** The text of one building block: class name, group names, mol block. */
  function BlockText(bb: BuildingBlock, conf: int, molBlock: MolBlock): (t: string)
    ensures |t| == |bb.className| + 1 + |NamesRepr(bb.fgNames)| + 1 + |molBlock(bb, conf)|
    ensures t[|t| - |molBlock(bb, conf)|..] == molBlock(bb, conf)
  {
    bb.className + " " + NamesRepr(bb.fgNames) + "\n" + molBlock(bb, conf)
  }

  /**
   * A block's text opens with the block's class name, a space and the repr
   * of its group names, and the rest of it is a newline and the block's
   * mol block for the conformer asked for.
   */
  lemma BlockTextNames(bb: BuildingBlock, conf: int, molBlock: MolBlock)
    ensures var t := BlockText(bb, conf, molBlock);
      var o := |bb.className| + 1 + |NamesRepr(bb.fgNames)|;
      o <= |t| &&
      t[..|bb.className|] == bb.className &&
      t[|bb.className|] == ' ' &&
      t[|bb.className| + 1..o] == NamesRepr(bb.fgNames) &&
      t[o..] == "\n" + molBlock(bb, conf)
  {
    var t := BlockText(bb, conf, molBlock);
    var head := bb.className + " ";
    var tail := "\n" + molBlock(bb, conf);
    assert t == head + NamesRepr(bb.fgNames) + tail;
  }

  function Blocks(bbs: seq<BuildingBlock>, confs: seq<int>, molBlock: MolBlock): (blocks: seq<string>)
    requires |bbs| <= |confs|
    ensures |blocks| == |bbs|
  {
    seq(|bbs|, i requires 0 <= i < |bbs| => BlockText(bbs[i], confs[i], molBlock))
  }

  const TopologyHeading: string := "Construction failure.\n\ntopology\n--------\n"

  function Header(topology: Topology): string {
    TopologyHeading + topology.text + "\n\nbuilding blocks\n---------------\n"
  }

  /**
   * The exception the handler raises for a failed construction: the
   * `IndexError` of reading past the conformer ids, or `ConstructionError`
   * with the topology and one text per building block, chained to the
   * cause.
   */
  function Failure(topology: Topology, bbs: seq<BuildingBlock>, confs: seq<int>, molBlock: MolBlock, cause: string): (f: ConstructionFailure)
    ensures !f.BadConformerId? && f.cause == cause
    ensures f.ConstructionError? <==> |bbs| <= |confs|
    ensures f.ConstructionError? ==> |TopologyHeading| <= |f.message| && f.message[..|TopologyHeading|] == TopologyHeading
  {
    if |confs| < |bbs| then HandlerIndexError(cause)
    else ConstructionError(Header(topology) + Join(Blocks(bbs, confs, molBlock), "\n"), cause)
  }

  /** The failure message names the topology right after its heading. */
  lemma FailureNamesTopology(topology: Topology, bbs: seq<BuildingBlock>, confs: seq<int>, molBlock: MolBlock, cause: string)
    requires |bbs| <= |confs|
    ensures var m := Failure(topology, bbs, confs, molBlock, cause);
      m.ConstructionError? && m.cause == cause &&
      |TopologyHeading| + |topology.text| <= |m.message| &&
      m.message[|TopologyHeading|..|TopologyHeading| + |topology.text|] == topology.text
  {
    var m := Failure(topology, bbs, confs, molBlock, cause);
    var rest := "\n\nbuilding blocks\n---------------\n" + Join(Blocks(bbs, confs, molBlock), "\n");
    assert m.message == TopologyHeading + topology.text + rest;
  }

  /** The failure message holds each building block's text, at a known offset. */
  lemma FailureNamesBlock(topology: Topology, bbs: seq<BuildingBlock>, confs: seq<int>, molBlock: MolBlock, cause: string, i: nat)
    requires |bbs| <= |confs| && i < |bbs|
    ensures var m := Failure(topology, bbs, confs, molBlock, cause);
      var o := |Header(topology)| + JoinOffset(Blocks(bbs, confs, molBlock), "\n", i);
      var t := BlockText(bbs[i], confs[i], molBlock);
      m.ConstructionError? && o + |t| <= |m.message| && m.message[o..o + |t|] == t
  {
    var blocks := Blocks(bbs, confs, molBlock);
    var joined := Join(blocks, "\n");
    var p := JoinOffset(blocks, "\n", i);
    var t := blocks[i];
    JoinAt(blocks, "\n", i);
    var h := Header(topology);
    var m := Failure(topology, bbs, confs, molBlock, cause);
    assert m.message == h + joined;
    SliceOfAppend(h, joined, p, |t|);
  }

  /** A shortage of conformer ids turns the failure into the handler's `IndexError`. */
  lemma FailureWithTooFewConformers(topology: Topology, bbs: seq<BuildingBlock>, confs: seq<int>, molBlock: MolBlock, cause: string)
    ensures Failure(topology, bbs, confs, molBlock, cause).HandlerIndexError? <==> |confs| < |bbs|
    ensures Failure(topology, bbs, confs, molBlock, cause).cause == cause
  {
  }

  /**
   * The exception handler's loop over the building blocks: it builds the
   * per-block texts, indexing the conformer ids by position.
   */
  method ReportFailure(topology: Topology, bbs: seq<BuildingBlock>, confs: seq<int>, molBlock: MolBlock, cause: string)
    returns (e: ConstructionFailure)
    ensures e == Failure(topology, bbs, confs, molBlock, cause)
  {
    var blocks: seq<string> := [];
    var i := 0;
    while i < |bbs|
      invariant i <= |bbs|
      invariant i <= |confs|
      invariant blocks == Blocks(bbs[..i], confs, molBlock)
    {
      if i >= |confs| {
        return HandlerIndexError(cause);
      }
      blocks := blocks + [BlockText(bbs[i], confs[i], molBlock)];
      i := i + 1;
    }
    assert bbs[..|bbs|] == bbs;
    return ConstructionError(Header(topology) + Join(blocks, "\n"), cause);
  }

  // ---------------------------------------------------------------------
  // Functional-group ids
  // ---------------------------------------------------------------------

  /** The last position below `k` where `x` occurs in `s`. */
  function LastIndex<T(==)>(s: seq<T>, k: nat, x: T): (r: nat)
    requires k <= |s| && x in s[..k]
    ensures r < k && s[r] == x
    ensures forall j :: r < j < k ==> s[j] != x
  {
    if s[k - 1] == x then k - 1
    else
      assert x in s[..k - 1] by { assert s[..k] == s[..k - 1] + [s[k - 1]]; }
      LastIndex(s, k - 1, x)
  }

  /** In a sequence without repeats, an element's last position is its only one. */
  lemma LastIndexOfDistinct<T>(s: seq<T>, k: nat)
    requires NoDup(s) && k < |s|
    ensures s[k] in s[..|s|] && LastIndex(s, |s|, s[k]) == k
  {
    assert s[..|s|] == s;
  }

  /** Every group's `id` is its index in the tuple. */
  predicate IdsAreIndices(fgs: seq<FunctionalGroup>)
    reads set fg | fg in fgs
  {
    forall k :: 0 <= k < |fgs| ==> fgs[k].id == Some(k)
  }

  // ---------------------------------------------------------------------
  // Conformers
  // ---------------------------------------------------------------------

  /** One more than the largest conformer id, or 0: the id rdkit assigns to an added conformer. */
  function NextConformerId(confs: seq<Conformer>): (id: nat)
    ensures forall c :: c in confs ==> c.id < id
    ensures id == 0 || exists c :: c in confs && c.id + 1 == id
  {
    if confs == [] then 0
    else
      var rest := NextConformerId(confs[..|confs| - 1]);
      var last := confs[|confs| - 1];
      assert confs == confs[..|confs| - 1] + [last];
      if last.id + 1 > rest then last.id + 1 else rest
  }

  /** `mol.AddConformer(conformer, assignId=True)`: the copy is appended under a fresh id. */
  function WithConformer(m: RdMol, positions: seq<Pos>): (r: RdMol)
    ensures |r.conformers| == |m.conformers| + 1 && r.conformers[..|m.conformers|] == m.conformers
    ensures r.conformers[|m.conformers|].positions == positions
    ensures forall c :: c in m.conformers ==> c.id < r.conformers[|m.conformers|].id
  {
    RdMol(m.conformers + [Conformer(NextConformerId(m.conformers), positions)])
  }

  predicate DistinctConformerIds(m: RdMol) {
    forall i, j :: 0 <= i < j < |m.conformers| ==> m.conformers[i].id != m.conformers[j].id
  }

  /** Adding a conformer keeps the old ones and keeps the ids distinct. */
  lemma WithConformerKeepsIdsDistinct(m: RdMol, positions: seq<Pos>)
    requires DistinctConformerIds(m)
    ensures DistinctConformerIds(WithConformer(m, positions))
    ensures WithConformer(m, positions).conformers[..|m.conformers|] == m.conformers
    ensures |WithConformer(m, positions).conformers| == |m.conformers| + 1
  {
    var n := WithConformer(m, positions);
    forall i, j | 0 <= i < j < |n.conformers|
      ensures n.conformers[i].id != n.conformers[j].id
    {
      if j == |m.conformers| {
        assert n.conformers[i] in m.conformers;
      }
    }
  }

  // ---------------------------------------------------------------------
  // The molecule
  // ---------------------------------------------------------------------

  /**
   * Where the id loop stands after `i` passes: each of the first `i`
   * groups holds the last index below `i` at which it is listed.
   */
  ghost predicate IdsUpTo(fgs: seq<FunctionalGroup>, i: nat)
    reads set fg | fg in fgs
  {
    i <= |fgs| &&
    forall k :: 0 <= k < i ==> fgs[k] in fgs[..i] && fgs[k].id == Some(LastIndex(fgs, i, fgs[k]))
  }

  /** One pass of the id loop: the `i`-th group gets id `i`; nothing else changes. */
  method AssignId(fgs: seq<FunctionalGroup>, i: nat, ghost views: seq<Found>)
    requires i < |fgs| && IdsUpTo(fgs, i) && Realises(fgs, views)
    modifies fgs[i]
    ensures IdsUpTo(fgs, i + 1) && Realises(fgs, views)
  {
    fgs[i].id := Some(i);
    assert fgs[..i + 1] == fgs[..i] + [fgs[i]];
    forall k | 0 <= k < i + 1
      ensures fgs[k] in fgs[..i + 1] && fgs[k].id == Some(LastIndex(fgs, i + 1, fgs[k]))
    {
      if fgs[k] != fgs[i] {
        assert fgs[k].id == old(fgs[k].id);
      }
    }
  }

  class ConstructedMolecule {
    const buildingBlocks: seq<BuildingBlock>
    const topology: Topology
    /** `_mol`, the rdkit molecule. */
    var mol: RdMol
    var bondsMade: nat
    var funcGroups: seq<FunctionalGroup>

    /** The attributes a successful construction leaves, before the ids are set. */
    constructor (bbs: seq<BuildingBlock>, topology: Topology, built: Built)
      ensures buildingBlocks == bbs && this.topology == topology
      ensures mol == built.mol && bondsMade == built.bondsMade && funcGroups == built.funcGroups
    {
      buildingBlocks := bbs;
      this.topology := topology;
      mol := built.mol;
      bondsMade := built.bondsMade;
      funcGroups := built.funcGroups;
    }

    /**
     * The loop that sets every group's `id` to its index. A group listed
     * twice keeps the later index; with no repeats, ids are indices.
     */
    method AssignIds()
      modifies set fg | fg in funcGroups
      ensures forall k :: 0 <= k < |funcGroups| ==>
        funcGroups[k] in funcGroups[..|funcGroups|] &&
        funcGroups[k].id == Some(LastIndex(funcGroups, |funcGroups|, funcGroups[k]))
      ensures forall k :: 0 <= k < |funcGroups| ==> funcGroups[k].View() == old(funcGroups[k].View())
      ensures NoDup(funcGroups) ==> IdsAreIndices(funcGroups)
    {
      var fgs := funcGroups;
      ghost var views := seq(|fgs|, k requires 0 <= k < |fgs| reads fgs => fgs[k].View());
      var i := 0;
      while i < |fgs|
        invariant IdsUpTo(fgs, i) && Realises(fgs, views)
      {
        AssignId(fgs, i, views);
        i := i + 1;
      }
      assert fgs[..|fgs|] == fgs;
      if NoDup(fgs) {
        forall k | 0 <= k < |fgs| ensures fgs[k].id == Some(k) {
          LastIndexOfDistinct(fgs, k);
        }
      }
    }

    /**
     * `add_conformer`: construct again with the given conformer ids; on
     * failure restore the molecule held before and raise; on success copy
     * the new molecule's first conformer into the original molecule, make
     * that the molecule again and return the copy's id.
     */
    method AddConformer(confs: seq<int>, construct: Constructor, molBlock: MolBlock)
      returns (r: Result<nat, ConstructionFailure>)
      modifies this, set fg | fg in BuiltGroups(construct(confs))
      ensures construct(confs).Raised? ==>
        r == Err(Failure(topology, buildingBlocks, confs, molBlock, construct(confs).cause)) &&
        mol == old(mol) && bondsMade == old(bondsMade) && funcGroups == old(funcGroups)
      ensures construct(confs).Constructed? ==>
        var built := construct(confs).built;
        funcGroups == built.funcGroups && bondsMade == built.bondsMade &&
        (NoDup(built.funcGroups) ==> IdsAreIndices(funcGroups)) &&
        (old(allocated(built)) ==> forall k :: 0 <= k < |funcGroups| ==> funcGroups[k].View() == old(built.funcGroups[k].View())) &&
        if built.mol.conformers == [] then
          r == Err(BadConformerId) && mol == built.mol
        else
          r == Ok(NextConformerId(old(mol).conformers)) &&
          mol == WithConformer(old(mol), built.mol.conformers[0].positions)
    {
      var original := mol;
      var outcome := construct(confs);
      if outcome.Raised? {
        // `_mol` holds whatever the construction left there, until the handler restores it.
        mol := outcome.molAtFailure;
        mol := original;
        var e := ReportFailure(topology, buildingBlocks, confs, molBlock, outcome.cause);
        return Err(e);
      }
      mol, bondsMade, funcGroups := outcome.built.mol, outcome.built.bondsMade, outcome.built.funcGroups;
      AssignIds();
      if mol.conformers == [] {
        return Err(BadConformerId);
      }
      var copy := mol.conformers[0].positions;
      var newId := NextConformerId(original.conformers);
      mol := WithConformer(original, copy);
      return Ok(newId);
    }
  }

  /**
   * `ConstructedMolecule.__init__`: default the conformer ids, construct,
   * wrap any failure, and set every group's id to its index.
   */
  method New(bbs: seq<BuildingBlock>, topology: Topology, given: Option<seq<int>>, construct: Constructor, molBlock: MolBlock)
    returns (r: Result<ConstructedMolecule, ConstructionFailure>)
    modifies set fg | fg in BuiltGroups(construct(ConformersOrDefault(bbs, given)))
    ensures var confs := ConformersOrDefault(bbs, given);
      match construct(confs)
      case Raised(cause, _) => r == Err(Failure(topology, bbs, confs, molBlock, cause))
      case Constructed(built) =>
        r.Ok? && fresh(r.value) &&
        r.value.buildingBlocks == bbs && r.value.topology == topology &&
        r.value.mol == built.mol && r.value.bondsMade == built.bondsMade &&
        r.value.funcGroups == built.funcGroups &&
        (NoDup(built.funcGroups) ==> IdsAreIndices(built.funcGroups)) &&
        (old(allocated(built)) ==> forall k :: 0 <= k < |built.funcGroups| ==> built.funcGroups[k].View() == old(built.funcGroups[k].View()))
  {
    var confs := ConformersOrDefault(bbs, given);
    var outcome := construct(confs);
    if outcome.Raised? {
      var e := ReportFailure(topology, bbs, confs, molBlock, outcome.cause);
      return Err(e);
    }
    var m := new ConstructedMolecule(bbs, topology, outcome.built);
    m.AssignIds();
    return Ok(m);
  }

  /** With the default conformer ids the handler never runs short of them. */
  lemma DefaultConformersCoverBlocks(bbs: seq<BuildingBlock>, topology: Topology, molBlock: MolBlock, cause: string)
    ensures Failure(topology, bbs, ConformersOrDefault(bbs, None), molBlock, cause).ConstructionError?
  {
  }

  // ---------------------------------------------------------------------
  // The cache key
  // ---------------------------------------------------------------------

  datatype CacheKey = CacheKey(bbKeys: set<string>, topology: string)

  /**
   * `_generate_key`: the set of the building blocks' keys and the
   * topology's repr; the conformer ids and `use_cache` are ignored.
   */
  function GenerateKey(bbs: seq<BuildingBlock>, topology: Topology, confs: seq<int>, useCache: bool): (k: CacheKey)
    ensures forall x :: x in k.bbKeys <==> exists i :: 0 <= i < |bbs| && bbs[i].key == x
  {
    CacheKey(set i | 0 <= i < |bbs| :: bbs[i].key, topology.reprText)
  }

  /**
   * The same building blocks, in any order and any number of times each,
   * with the same topology give the same key, whatever the conformers.
   */
  lemma KeyIgnoresOrderAndCopies(a: seq<BuildingBlock>, b: seq<BuildingBlock>, topology: Topology, confsA: seq<int>, confsB: seq<int>, useA: bool, useB: bool)
    requires forall x :: x in a <==> x in b
    ensures GenerateKey(a, topology, confsA, useA) == GenerateKey(b, topology, confsB, useB)
  {
    var ka, kb := GenerateKey(a, topology, confsA, useA), GenerateKey(b, topology, confsB, useB);
    forall x | x in ka.bbKeys ensures x in kb.bbKeys {
      var i :| 0 <= i < |a| && a[i].key == x;
      assert a[i] in b;
      var j :| 0 <= j < |b| && b[j] == a[i];
    }
    forall x | x in kb.bbKeys ensures x in ka.bbKeys {
      var j :| 0 <= j < |b| && b[j].key == x;
      assert b[j] in a;
      var i :| 0 <= i < |a| && a[i] == b[j];
    }
  }

  /** Appending a copy of a building block already listed leaves the key unchanged. */
  lemma KeyIgnoresDuplicate(a: seq<BuildingBlock>, i: nat, topology: Topology, confs: seq<int>, useCache: bool)
    requires i < |a|
    ensures GenerateKey(a + [a[i]], topology, confs, useCache) == GenerateKey(a, topology, confs, useCache)
  {
    KeyIgnoresOrderAndCopies(a + [a[i]], a, topology, confs, confs, useCache, useCache);
  }

  /** Some building block of `bbs` has the key `x`. */
  predicate HasKey(bbs: seq<BuildingBlock>, x: string) {
    exists j :: 0 <= j < |bbs| && bbs[j].key == x
  }

  /** Equal keys mean equal topology reprs and the same set of building-block keys. */
  lemma KeyDistinguishes(a: seq<BuildingBlock>, b: seq<BuildingBlock>, ta: Topology, tb: Topology, confs: seq<int>, useCache: bool)
    requires GenerateKey(a, ta, confs, useCache) == GenerateKey(b, tb, confs, useCache)
    ensures ta.reprText == tb.reprText
    ensures forall i :: 0 <= i < |a| ==> HasKey(b, a[i].key)
  {
    forall i | 0 <= i < |a| ensures HasKey(b, a[i].key) {
      assert a[i].key in GenerateKey(a, ta, confs, useCache).bbKeys;
      assert a[i].key in GenerateKey(b, tb, confs, useCache).bbKeys;
      var j :| 0 <= j < |b| && b[j].key == a[i].key;
    }
    assert GenerateKey(a, ta, confs, useCache).topology == GenerateKey(b, tb, confs, useCache).topology;
  }
}
