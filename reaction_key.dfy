/**
 * `_ReactionKey`: the identity of a reaction, derived from the names of
 * the functional groups taking part. The names are counted
 * (`collections.Counter`) and the (name, count) pairs sorted into a tuple,
 * so the key forgets the order of the names but not how often each occurs.
 */
module ReactionKeys {
  import opened Ordering

  /** The `_key` tuple: (name, count) pairs in ascending name order. */
  type ReactionKey = seq<(string, nat)>

  predicate NoDup<T(==)>(s: seq<T>) {
    forall i, j :: 0 <= i < j < |s| ==> s[i] != s[j]
  }

  /** The distinct names in order of first occurrence: the keys of `Counter(names)`. */
  function Distinct(names: seq<string>): (r: seq<string>)
    ensures forall x :: x in r <==> x in names
    ensures NoDup(r)
  {
    if names == [] then []
    else
      var d := Distinct(names[..|names| - 1]);
      var last := names[|names| - 1];
      assert names == names[..|names| - 1] + [last];
      if last in d then d else d + [last]
  }

  /** `Counter(names)`: each name present maps to the number of times it occurs. */
  function Counter(names: seq<string>): (c: map<string, nat>)
    ensures forall x :: x in c <==> x in names
    ensures forall x :: x in c ==> c[x] == multiset(names)[x]
  {
    if names == [] then map[]
    else
      var c := Counter(names[..|names| - 1]);
      var last := names[|names| - 1];
      assert names == names[..|names| - 1] + [last];
      c[last := if last in c then c[last] + 1 else 1]
  }

  /** The keys of a counter paired with their counts, in the given order. */
  function Pairs(ks: seq<string>, c: map<string, nat>): ReactionKey
    requires forall x :: x in ks ==> x in c
  {
    seq(|ks|, i requires 0 <= i < |ks| => (ks[i], c[ks[i]]))
  }

  /** `_ReactionKey(*names)._key`: `tuple(sorted(Counter(names).items()))`. */
  function MakeKey(names: seq<string>): (k: ReactionKey)
    ensures forall i :: 0 <= i < |k| ==> k[i].0 in names && k[i].1 == multiset(names)[k[i].0]
  {
    var ks := SortStrings(Distinct(names));
    SortedNamesShape(names);
    Pairs(ks, Counter(names))
  }

  /** The key lists every name once, in ascending order. */
  lemma MakeKeyShape(names: seq<string>)
    ensures forall x :: x in names ==> exists i :: 0 <= i < |MakeKey(names)| && MakeKey(names)[i].0 == x
    ensures forall i, j :: 0 <= i < j < |MakeKey(names)| ==> StrLe(MakeKey(names)[i].0, MakeKey(names)[j].0) && MakeKey(names)[i].0 != MakeKey(names)[j].0
  {
    var k := MakeKey(names);
    var ks := SortStrings(Distinct(names));
    SortedNamesShape(names);
    forall x | x in names ensures exists i :: 0 <= i < |k| && k[i].0 == x {
      var i :| 0 <= i < |ks| && ks[i] == x;
      assert k[i].0 == x;
    }
  }

  /** The sorted distinct names hold each name of `names` exactly once. */
  lemma SortedNamesShape(names: seq<string>)
    ensures forall x :: x in SortStrings(Distinct(names)) <==> x in names
    ensures NoDup(SortStrings(Distinct(names)))
  {
    var d := Distinct(names);
    var ks := SortStrings(d);
    forall x ensures x in ks <==> x in names {
      assert x in ks <==> x in multiset(ks);
      assert x in d <==> x in multiset(d);
    }
    forall i, j | 0 <= i < j < |ks| ensures ks[i] != ks[j] {
      if ks[i] == ks[j] {
        RepeatCount(ks, i, j);
        NoDupCount(d, ks[i]);
        assert false;
      }
    }
  }

  /** An element found at two positions occurs at least twice. */
  lemma RepeatCount<T>(s: seq<T>, i: nat, j: nat)
    requires i < j < |s| && s[i] == s[j]
    ensures multiset(s)[s[i]] >= 2
  {
    assert s == s[..j] + s[j..];
    assert s[i] in s[..j];
    assert s[j..][0] == s[j];
    assert multiset(s) == multiset(s[..j]) + multiset(s[j..]);
  }

  /** In a sequence without repeats every element occurs exactly once. */
  lemma {:induction false} NoDupCount<T>(d: seq<T>, x: T)
    requires NoDup(d)
    ensures multiset(d)[x] == if x in d then 1 else 0
  {
    if d != [] {
      assert d == [d[0]] + d[1..];
      NoDupCount(d[1..], x);
    }
  }

  /** The multiset of names a key stands for: each name repeated by its count. */
  function KeyMultiset(k: ReactionKey): multiset<string> {
    if k == [] then multiset{} else multiset{}[k[0].0 := k[0].1] + KeyMultiset(k[1..])
  }

  lemma {:induction false} KeyMultisetAt(k: ReactionKey, i: nat)
    requires i < |k|
    requires forall p, q :: 0 <= p < q < |k| ==> k[p].0 != k[q].0
    ensures KeyMultiset(k)[k[i].0] == k[i].1
  {
    if i == 0 {
      KeyMultisetAbsent(k[1..], k[0].0);
    } else {
      KeyMultisetAt(k[1..], i - 1);
    }
  }

  lemma {:induction false} KeyMultisetAbsent(k: ReactionKey, x: string)
    requires forall i :: 0 <= i < |k| ==> k[i].0 != x
    ensures KeyMultiset(k)[x] == 0
  {
    if k != [] {
      KeyMultisetAbsent(k[1..], x);
    }
  }

  /** The key loses nothing but order: it spells out exactly the multiset of names. */
  lemma KeyRoundTrip(names: seq<string>)
    ensures KeyMultiset(MakeKey(names)) == multiset(names)
  {
    var k := MakeKey(names);
    MakeKeyShape(names);
    forall x ensures KeyMultiset(k)[x] == multiset(names)[x] {
      if x in names {
        var i :| 0 <= i < |k| && k[i].0 == x;
        KeyMultisetAt(k, i);
      } else {
        KeyMultisetAbsent(k, x);
      }
    }
  }

  /** Equal keys come from equal name multisets. */
  lemma KeyDeterminesNames(a: seq<string>, b: seq<string>)
    requires MakeKey(a) == MakeKey(b)
    ensures multiset(a) == multiset(b)
  {
    KeyRoundTrip(a);
    KeyRoundTrip(b);
  }

  /** Equal name multisets give equal keys, whatever the order of the names. */
  lemma KeyIgnoresOrder(a: seq<string>, b: seq<string>)
    requires multiset(a) == multiset(b)
    ensures MakeKey(a) == MakeKey(b)
  {
    var ca, cb := Counter(a), Counter(b);
    forall x ensures x in ca <==> x in cb {
      assert x in a <==> x in multiset(a);
      assert x in b <==> x in multiset(b);
    }
    assert ca == cb;
    var da, db := Distinct(a), Distinct(b);
    forall x ensures multiset(da)[x] == multiset(db)[x] {
      NoDupCount(da, x);
      NoDupCount(db, x);
      assert x in a <==> x in multiset(a);
      assert x in b <==> x in multiset(b);
    }
    assert multiset(da) == multiset(db);
    SortStringsCanonical(da, db);
  }

  /**
   * Two keys are equal exactly when their name multisets are: the key is
   * invariant under any permutation of the names and sensitive to counts.
   */
  lemma KeyEquality(a: seq<string>, b: seq<string>)
    ensures MakeKey(a) == MakeKey(b) <==> multiset(a) == multiset(b)
  {
    if MakeKey(a) == MakeKey(b) {
      KeyDeterminesNames(a, b);
    }
    if multiset(a) == multiset(b) {
      KeyIgnoresOrder(a, b);
    }
  }

  /** Adding one more copy of a name, even one already present, changes the key. */
  lemma KeyCountsCopies(names: seq<string>, x: string)
    ensures MakeKey(names + [x]) != MakeKey(names)
  {
    KeyEquality(names + [x], names);
    assert |multiset(names + [x])| == |names| + 1;
  }

  /**
   * The first examples in the class's documentation, for any two names in
   * the places of 'amine' and 'aldehyde': the key ignores order.
   */
  lemma DocumentedPermutationExamples(amine: string, aldehyde: string)
    ensures MakeKey([amine, aldehyde, amine]) == MakeKey([amine, amine, aldehyde])
    ensures MakeKey([amine, aldehyde, amine]) == MakeKey([aldehyde, amine, amine])
  {
    assert multiset([amine, aldehyde, amine]) == multiset([amine, amine, aldehyde]);
    KeyIgnoresOrder([amine, aldehyde, amine], [amine, amine, aldehyde]);
    assert multiset([amine, aldehyde, amine]) == multiset([aldehyde, amine, amine]);
    KeyIgnoresOrder([amine, aldehyde, amine], [aldehyde, amine, amine]);
  }

  /** The last example in the class's documentation: the key counts copies. */
  lemma DocumentedCountExample(amine: string, aldehyde: string)
    ensures MakeKey([amine, aldehyde]) != MakeKey([amine, aldehyde, amine])
  {
    KeyCountsCopies([amine, aldehyde], amine);
    assert [amine, aldehyde] + [amine] == [amine, aldehyde, amine];
  }
}
