/**
 * The element table of `elements.py`: one class per element, each
 * declaring its atomic number as a class attribute, and the registry
 * `Atom._elements` that `__init_subclass__` fills, in order of
 * definition, from that attribute. `Atom(n)` then stands for an instance
 * of the class registered under `n`. A plain `Bond` record sits beside
 * them.
 */
module Elements {
  import opened Wrappers

  /**
   * The element classes in the order the module defines them, ten to a
   * row: row `r` holds atomic numbers `10 * r + 1` onwards.
   */
  const Row0: seq<string> := ["H", "He", "Li", "Be", "B", "C", "N", "O", "F", "Ne"]
  const Row1: seq<string> := ["Na", "Mg", "Al", "Si", "P", "S", "Cl", "Ar", "K", "Ca"]
  const Row2: seq<string> := ["Sc", "Ti", "V", "Cr", "Mn", "Fe", "Co", "Ni", "Cu", "Zn"]
  const Row3: seq<string> := ["Ga", "Ge", "As", "Se", "Br", "Kr", "Rb", "Sr", "Y", "Zr"]
  const Row4: seq<string> := ["Nb", "Mo", "Tc", "Ru", "Rh", "Pd", "Ag", "Cd", "In", "Sn"]
  const Row5: seq<string> := ["Sb", "Te", "I", "Xe", "Cs", "Ba", "La", "Ce", "Pr", "Nd"]
  const Row6: seq<string> := ["Pm", "Sm", "Eu", "Gd", "Tb", "Dy", "Ho", "Er", "Tm", "Yb"]
  const Row7: seq<string> := ["Lu", "Hf", "Ta", "W", "Re", "Os", "Ir", "Pt", "Au", "Hg"]
  const Row8: seq<string> := ["Tl", "Pb", "Bi", "Po", "At", "Rn", "Fr", "Ra", "Ac", "Th"]
  const Row9: seq<string> := ["Pa", "U", "Np", "Pu", "Am", "Cm", "Bk", "Cf", "Es", "Fm"]
  const Row10: seq<string> := ["Md", "No", "Lr", "Rf", "Db", "Sg", "Bh", "Hs", "Mt", "Ds"]
  const Row11: seq<string> := ["Rg", "Cn", "Nh", "Fl", "Mc", "Lv", "Ts", "Og"]

  const Symbols: seq<string> :=
    Row0 + Row1 + Row2 + Row3 + Row4 + Row5 + Row6 + Row7 + Row8 + Row9 + Row10 + Row11

  const NumberAttribute: string := "atomic_number"

  /** The classes whose number is spelled `atomic_nubmer`. */
  const Misspelled: set<string> := {"Na", "Cl", "K", "Yb"}

  /**
   * An element class: its name, the name of the class attribute holding
   * its number, and that number.
   */
  datatype ElementDef = ElementDef(symbol: string, attribute: string, number: nat)

  /**
   * The `i`-th class as written: the classes come in order of atomic
   * number, each declaring `i + 1`, four of them under a misspelled name.
   */
  function DefinedAsWritten(i: nat): (d: ElementDef)
    requires i < |Symbols|
    ensures d.symbol == Symbols[i] && d.number == i + 1
    ensures d.attribute == NumberAttribute <==> Symbols[i] !in Misspelled
  {
    ElementDef(Symbols[i], if Symbols[i] in Misspelled then "atomic_nubmer" else NumberAttribute, i + 1)
  }

  /** The `i`-th class with every number declared under `atomic_number`. */
  function Defined(i: nat): (d: ElementDef)
    requires i < |Symbols|
    ensures d.symbol == Symbols[i] && d.number == i + 1 && d.attribute == NumberAttribute
  {
    ElementDef(Symbols[i], NumberAttribute, i + 1)
  }

  function AsWritten(): seq<ElementDef> {
    seq(|Symbols|, i requires 0 <= i < |Symbols| => DefinedAsWritten(i))
  }

  function Corrected(): seq<ElementDef> {
    seq(|Symbols|, i requires 0 <= i < |Symbols| => Defined(i))
  }

  /** What importing the module can raise: reading a class attribute that is not there. */
  datatype ImportError = AttributeError(className: string, attribute: string)

  /**
   * `__init_subclass__` run for each class in turn: register the class
   * under its `atomic_number`, a later class replacing an earlier one
   * with the same number; a class without the attribute stops the import.
   */
  function Register(defs: seq<ElementDef>, table: map<nat, ElementDef>): (r: Result<map<nat, ElementDef>, ImportError>)
    ensures r.Ok? ==> r.value == Fill(defs, table)
    ensures r.Err? ==> r.error.attribute == NumberAttribute
  {
    if defs == [] then Ok(table)
    else if defs[0].attribute != NumberAttribute then Err(AttributeError(defs[0].symbol, NumberAttribute))
    else Register(defs[1..], table[defs[0].number := defs[0]])
  }

  /**
   * The registry once every class in `defs` is registered in turn: no
   * number is dropped, and the class registered last sits under its number.
   */
  function Fill(defs: seq<ElementDef>, table: map<nat, ElementDef>): (r: map<nat, ElementDef>)
    ensures table.Keys <= r.Keys
    ensures defs != [] ==> var last := defs[|defs| - 1]; last.number in r && r[last.number] == last
  {
    if defs == [] then table else Fill(defs[1..], table[defs[0].number := defs[0]])
  }

  /** A run of well-spelled classes is registered one after another. */
  lemma {:induction false} RegisterSpelled(defs: seq<ElementDef>, k: nat, table: map<nat, ElementDef>)
    requires k <= |defs|
    requires forall i :: 0 <= i < k ==> defs[i].attribute == NumberAttribute
    ensures Register(defs, table) == Register(defs[k..], Fill(defs[..k], table))
  {
    if k > 0 {
      RegisterSpelled(defs[1..], k - 1, table[defs[0].number := defs[0]]);
      assert defs[1..][k - 1..] == defs[k..];
      assert defs[1..][..k - 1] == defs[..k][1..];
    }
  }

  /**
   * When each class declares a different number and the numbers of the
   * first `k` are the `k` numbers after `base`, filling registers exactly
   * those numbers, each under its own class.
   */
  lemma {:induction false} FillNumbered(defs: seq<ElementDef>, base: nat, table: map<nat, ElementDef>)
    requires forall i :: 0 <= i < |defs| ==> defs[i].number == base + i + 1
    requires forall n :: n in table ==> n <= base
    ensures forall n :: n in Fill(defs, table) <==> n in table || base < n <= base + |defs|
    ensures forall i :: 0 <= i < |defs| ==> Fill(defs, table)[base + i + 1] == defs[i]
    ensures forall n :: n in table ==> Fill(defs, table)[n] == table[n]
  {
    if defs != [] {
      var t := table[defs[0].number := defs[0]];
      FillNumbered(defs[1..], base + 1, t);
      forall i | 0 <= i < |defs| ensures Fill(defs, table)[base + i + 1] == defs[i] {
        if i > 0 {
          assert defs[1..][i - 1] == defs[i];
        }
      }
    }
  }

  /** As written, H to Ne declare `atomic_number` and Na, the eleventh class, does not. */
  lemma AsWrittenHead()
    ensures |AsWritten()| == 118
    ensures forall i :: 0 <= i < 10 ==> AsWritten()[i].attribute == NumberAttribute
    ensures AsWritten()[10].symbol == "Na" && AsWritten()[10].attribute != NumberAttribute
  {
    forall i | 0 <= i < 10 ensures AsWritten()[i].attribute == NumberAttribute {
      assert Symbols[i] == Row0[i];
    }
    assert Symbols[10] == Row1[0];
  }

  /**
   * The module as written: H to Ne register, then defining Na, which has
   * no `atomic_number`, raises `AttributeError` and the import fails.
   */
  lemma RegistryAsWrittenFails()
    ensures Register(AsWritten(), map[]) == Err(AttributeError("Na", NumberAttribute))
  {
    var defs := AsWritten();
    AsWrittenHead();
    RegisterSpelled(defs, 10, map[]);
    assert defs[10..][0] == defs[10];
  }

  /** The registry of the corrected module. */
  function Registry(): (r: map<nat, ElementDef>)
    ensures Register(Corrected(), map[]) == Ok(r)
  {
    var defs := Corrected();
    RegisterSpelled(defs, |defs|, map[]);
    assert defs[..|defs|] == defs;
    Fill(defs, map[])
  }

  /**
   * The corrected registry holds exactly the numbers 1 to 118, each
   * under the class that declares it.
   */
  lemma RegistryComplete()
    ensures forall n :: n in Registry() <==> 1 <= n <= 118
    ensures forall n :: 1 <= n <= 118 ==> Registry()[n] == Defined(n - 1) && Registry()[n].number == n
  {
    RegistryOf(Corrected(), Registry());
  }

  /** Filling an empty registry with 118 classes numbered 1 to 118 in order. */
  lemma RegistryOf(defs: seq<ElementDef>, r: map<nat, ElementDef>)
    requires |defs| == 118 && r == Fill(defs, map[])
    requires forall i :: 0 <= i < 118 ==> defs[i] == Defined(i)
    ensures forall n :: n in r <==> 1 <= n <= 118
    ensures forall n :: 1 <= n <= 118 ==> r[n] == Defined(n - 1) && r[n].number == n
  {
    FillNumbered(defs, 0, map[]);
    forall n | 1 <= n <= 118 ensures r[n] == Defined(n - 1) {
      assert r[0 + (n - 1) + 1] == defs[n - 1];
    }
  }

  /** A registry holding every number from 1 to 118 under its own class. */
  predicate HoldsAll(r: map<nat, ElementDef>) {
    forall n :: 1 <= n <= 118 ==> n in r && r[n] == Defined(n - 1)
  }

  /** Sample entries: hydrogen, carbon, nitrogen and oxygen. */
  lemma RegistrySamples()
    ensures 1 in Registry() && Registry()[1].symbol == "H"
    ensures 6 in Registry() && Registry()[6].symbol == "C"
    ensures 7 in Registry() && Registry()[7].symbol == "N"
    ensures 8 in Registry() && Registry()[8].symbol == "O"
  {
    RegistryComplete();
    assert HoldsAll(Registry());
    SamplesOf(Registry());
  }

  lemma SamplesOf(r: map<nat, ElementDef>)
    requires HoldsAll(r)
    ensures 1 in r && r[1].symbol == "H" && 6 in r && r[6].symbol == "C"
    ensures 7 in r && r[7].symbol == "N" && 8 in r && r[8].symbol == "O"
  {
    assert Symbols[0] == Row0[0] && Symbols[5] == Row0[5] && Symbols[6] == Row0[6] && Symbols[7] == Row0[7];
    assert r[1] == Defined(0) && r[6] == Defined(5) && r[7] == Defined(6) && r[8] == Defined(7);
  }

  /** The four misspelled classes take their places in the corrected registry. */
  lemma MisspelledRegistered()
    ensures 11 in Registry() && Registry()[11].symbol == "Na"
    ensures 17 in Registry() && Registry()[17].symbol == "Cl"
    ensures 19 in Registry() && Registry()[19].symbol == "K"
    ensures 70 in Registry() && Registry()[70].symbol == "Yb"
  {
    RegistryComplete();
    assert HoldsAll(Registry());
    MisspelledOf(Registry());
  }

  lemma MisspelledOf(r: map<nat, ElementDef>)
    requires HoldsAll(r)
    ensures 11 in r && r[11].symbol == "Na" && 17 in r && r[17].symbol == "Cl"
    ensures 19 in r && r[19].symbol == "K" && 70 in r && r[70].symbol == "Yb"
  {
    assert Symbols[10] == Row1[0] && Symbols[16] == Row1[6] && Symbols[18] == Row1[8];
    assert Symbols[69] == Row6[9];
    assert r[11] == Defined(10) && r[17] == Defined(16) && r[19] == Defined(18) && r[70] == Defined(69);
  }

  // ---------------------------------------------------------------------
  // Atoms and bonds
  // ---------------------------------------------------------------------

  /** What `Atom(n)` raises for a number nobody registered: the lookup's `KeyError`. */
  datatype LookupError = KeyError(number: int)

  /** The class `Atom(n)` turns its instance into. */
  function Lookup(registry: map<nat, ElementDef>, n: int): (r: Result<ElementDef, LookupError>)
    ensures r.Ok? <==> n >= 0 && n as nat in registry
    ensures r.Err? ==> r.error == KeyError(n)
  {
    if n >= 0 && n as nat in registry then Ok(registry[n as nat]) else Err(KeyError(n))
  }

  /** In the corrected registry every number from 1 to 118 finds its own element, and nothing else does. */
  lemma LookupCorrected(n: int)
    ensures Lookup(Registry(), n).Ok? <==> 1 <= n <= 118
    ensures Lookup(Registry(), n).Ok? ==> Lookup(Registry(), n).value.number == n && Lookup(Registry(), n).value.symbol == Symbols[n - 1]
  {
    RegistryComplete();
  }

  /** An atom: an instance of its element's class. */
  class Atom {
    const element: ElementDef

    constructor (element: ElementDef)
      ensures this.element == element
    {
      this.element := element;
    }
  }

  /** `Atom(n)`: a new atom of the element registered under `n`, or the lookup's error. */
  method NewAtom(registry: map<nat, ElementDef>, n: int) returns (r: Result<Atom, LookupError>)
    ensures r.Ok? <==> Lookup(registry, n).Ok?
    ensures r.Ok? ==> fresh(r.value) && r.value.element == Lookup(registry, n).value
    ensures r.Err? ==> r.error == KeyError(n)
  {
    var found := Lookup(registry, n);
    if found.Err? {
      return Err(found.error);
    }
    var a := new Atom(found.value);
    return Ok(a);
  }

  /** `Bond(order, atom1, atom2)`: a record of its three arguments. */
  class Bond {
    var order: int
    var atom1: Atom
    var atom2: Atom

    constructor (order: int, atom1: Atom, atom2: Atom)
      ensures this.order == order && this.atom1 == atom1 && this.atom2 == atom2
    {
      this.order := order;
      this.atom1 := atom1;
      this.atom2 := atom2;
    }
  }
}
