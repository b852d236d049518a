/**
 * Ordered PHP arrays and PHP's `array_merge`, which the view uses to merge
 * the `_meta` view variable over the meta given to its constructor.
 *
 * `array_merge($a, $b)` walks `$a` and then `$b`: an entry with a string key
 * is written under that key (overwriting in place an earlier entry with the
 * same key, so the later value wins and the first position is kept); an entry
 * with an integer key is appended under the next integer index, so the
 * integer keys of the result are renumbered 0, 1, 2, ...
 */
module PhpArrays {
  import opened Wrappers
  import opened PhpValues

  type PhpArray = seq<(Key, Value)>

  /** Every PHP array has distinct keys. */
  predicate DistinctKeys(a: PhpArray) {
    forall i, j :: 0 <= i < j < |a| ==> a[i].0 != a[j].0
  }

  /** The position of key `k` in `a`, if present. */
  function IndexOf(a: PhpArray, k: Key): (r: Option<nat>)
    ensures r.Some? ==> r.value < |a| && a[r.value].0 == k
    ensures r.Some? ==> forall j :: 0 <= j < r.value ==> a[j].0 != k
    ensures r.None? ==> forall j :: 0 <= j < |a| ==> a[j].0 != k
    decreases |a|
  {
    if a == [] then None
    else if a[0].0 == k then Some(0)
    else match IndexOf(a[1..], k)
      case None => None
      case Some(i) => Some(i + 1)
  }

  /** `$a[$k]` when `isset`-like presence is asked for: the value under `k`, if any. */
  function Lookup(a: PhpArray, k: Key): Option<Value> {
    match IndexOf(a, k)
    case None => None
    case Some(i) => Some(a[i].1)
  }

  /** The values stored under integer keys, in array order. */
  function IntValues(a: PhpArray): seq<Value>
    decreases |a|
  {
    if a == [] then []
    else IntValues(a[..|a| - 1]) + (if a[|a| - 1].0.IntKey? then [a[|a| - 1].1] else [])
  }

  /** The integer keys, in array order. */
  function IntKeys(a: PhpArray): seq<int>
    decreases |a|
  {
    if a == [] then []
    else IntKeys(a[..|a| - 1]) + (if a[|a| - 1].0.IntKey? then [a[|a| - 1].0.i] else [])
  }

  function Range(n: nat): seq<int> {
    seq(n, j => j)
  }

  /** Distinct keys, and integer keys numbered 0, 1, 2, ... in order: the shape
      of every array `array_merge` returns. */
  predicate Renumbered(a: PhpArray) {
    DistinctKeys(a) && IntKeys(a) == Range(|IntKeys(a)|)
  }

  /** Writes one entry of an input array into the array being built. */
  function Step(acc: PhpArray, e: (Key, Value)): PhpArray {
    match e.0
    case IntKey(_) => acc + [(IntKey(|IntKeys(acc)|), e.1)]
    case StrKey(_) =>
      match IndexOf(acc, e.0)
      case None => acc + [e]
      case Some(i) => acc[i := e]
  }

  function MergeInto(acc: PhpArray, es: PhpArray): PhpArray
    decreases |es|
  {
    if es == [] then acc else MergeInto(Step(acc, es[0]), es[1..])
  }

  /** PHP's `array_merge($a, $b)`. */
  function ArrayMerge(a: PhpArray, b: PhpArray): (r: PhpArray)
    ensures |r| <= |a| + |b|
  {
    MergeIntoLength([], a);
    MergeIntoLength(MergeInto([], a), b);
    MergeInto(MergeInto([], a), b)
  }

  /** Each input entry adds at most one entry. */
  lemma {:induction false} MergeIntoLength(acc: PhpArray, es: PhpArray)
    ensures |MergeInto(acc, es)| <= |acc| + |es|
    decreases |es|
  {
    if es != [] {
      MergeIntoLength(Step(acc, es[0]), es[1..]);
    }
  }

  // ---------------------------------------------------------------------
  // Helper facts about positions and the integer-keyed part

  lemma IndexOfUnique(a: PhpArray, k: Key, i: nat)
    requires i < |a| && a[i].0 == k
    requires forall j :: 0 <= j < i ==> a[j].0 != k
    ensures IndexOf(a, k) == Some(i)
  {
  }

  lemma IndexOfAppend(a: PhpArray, e: (Key, Value), k: Key)
    ensures IndexOf(a + [e], k) ==
      if IndexOf(a, k).Some? then IndexOf(a, k)
      else if e.0 == k then Some(|a|) else None
  {
    var b := a + [e];
    if IndexOf(a, k).Some? {
      IndexOfUnique(b, k, IndexOf(a, k).value);
    } else if e.0 == k {
      IndexOfUnique(b, k, |a|);
    }
  }

  lemma IndexOfReplace(a: PhpArray, i: nat, e: (Key, Value), k: Key)
    requires i < |a| && a[i].0 == e.0
    ensures IndexOf(a[i := e], k) == IndexOf(a, k)
  {
    var b := a[i := e];
    if IndexOf(a, k).Some? {
      IndexOfUnique(b, k, IndexOf(a, k).value);
    }
  }

  lemma {:induction false} IntPartsReplace(a: PhpArray, i: nat, e: (Key, Value))
    requires i < |a| && a[i].0.StrKey? && e.0.StrKey?
    ensures IntValues(a[i := e]) == IntValues(a)
    ensures IntKeys(a[i := e]) == IntKeys(a)
    decreases |a|
  {
    var b := a[i := e];
    var n := |a| - 1;
    if i == n {
      assert b[..n] == a[..n];
    } else {
      assert b[..n] == a[..n][i := e];
      IntPartsReplace(a[..n], i, e);
    }
  }

  lemma IntPartsAppend(a: PhpArray, e: (Key, Value))
    ensures IntValues(a + [e]) == IntValues(a) + (if e.0.IntKey? then [e.1] else [])
    ensures IntKeys(a + [e]) == IntKeys(a) + (if e.0.IntKey? then [e.0.i] else [])
  {
    assert (a + [e])[..|a|] == a;
  }

  lemma {:induction false} IntKeysCover(a: PhpArray, j: nat)
    requires j < |a| && a[j].0.IntKey?
    ensures a[j].0.i in IntKeys(a)
    decreases |a|
  {
    var n := |a| - 1;
    if j < n {
      IntKeysCover(a[..n], j);
    }
  }

  /** What one step does to the integer-keyed part and to the length. */
  lemma StepIntParts(acc: PhpArray, e: (Key, Value))
    ensures IntValues(Step(acc, e)) == IntValues(acc) + (if e.0.IntKey? then [e.1] else [])
    ensures IntKeys(Step(acc, e)) == IntKeys(acc) + (if e.0.IntKey? then [|IntKeys(acc)|] else [])
    ensures Step(acc, e) != [] && |Step(acc, e)| >= |acc|
  {
    match e.0
    case IntKey(_) =>
      IntPartsAppend(acc, (IntKey(|IntKeys(acc)|), e.1));
    case StrKey(_) =>
      match IndexOf(acc, e.0)
      case None =>
        IntPartsAppend(acc, e);
      case Some(i) =>
        IntPartsReplace(acc, i, e);
  }

  /** What one step does to string lookups. */
  lemma StepLookup(acc: PhpArray, e: (Key, Value))
    ensures forall k: Key :: k.StrKey? ==>
      Lookup(Step(acc, e), k) == if k == e.0 then Some(e.1) else Lookup(acc, k)
  {
    var r := Step(acc, e);
    match e.0
    case IntKey(_) =>
      var e' := (IntKey(|IntKeys(acc)|), e.1);
      forall k: Key | k.StrKey? ensures Lookup(r, k) == Lookup(acc, k) {
        IndexOfAppend(acc, e', k);
      }
    case StrKey(_) =>
      match IndexOf(acc, e.0)
      case None =>
        forall k: Key | k.StrKey?
          ensures Lookup(r, k) == if k == e.0 then Some(e.1) else Lookup(acc, k)
        {
          IndexOfAppend(acc, e, k);
        }
      case Some(i) =>
        forall k: Key | k.StrKey?
          ensures Lookup(r, k) == if k == e.0 then Some(e.1) else Lookup(acc, k)
        {
          IndexOfReplace(acc, i, e, k);
        }
  }

  lemma StepRenumbered(acc: PhpArray, e: (Key, Value))
    requires Renumbered(acc)
    ensures Renumbered(Step(acc, e))
  {
    StepIntParts(acc, e);
    var n := |IntKeys(acc)|;
    var r := Step(acc, e);
    match e.0
    case IntKey(_) =>
      forall j | 0 <= j < |acc| && acc[j].0.IntKey? ensures acc[j].0 != IntKey(n) {
        IntKeysCover(acc, j);
      }
      assert Range(n) + [n] == Range(n + 1);
    case StrKey(_) =>
  }

  lemma {:induction false} MergeIntoRenumbered(acc: PhpArray, es: PhpArray)
    requires Renumbered(acc)
    ensures Renumbered(MergeInto(acc, es))
    decreases |es|
  {
    if es != [] {
      StepRenumbered(acc, es[0]);
      MergeIntoRenumbered(Step(acc, es[0]), es[1..]);
    }
  }

  lemma {:induction false} MergeIntoIntParts(acc: PhpArray, es: PhpArray)
    ensures IntValues(MergeInto(acc, es)) == IntValues(acc) + IntValues(es)
    ensures |IntKeys(MergeInto(acc, es))| == |IntKeys(acc)| + |IntValues(es)|
    decreases |es|
  {
    if es != [] {
      StepIntParts(acc, es[0]);
      MergeIntoIntParts(Step(acc, es[0]), es[1..]);
      IntValuesCons(es);
    }
  }

  lemma {:induction false} IntValuesCons(es: PhpArray)
    requires es != []
    ensures IntValues(es) == (if es[0].0.IntKey? then [es[0].1] else []) + IntValues(es[1..])
    decreases |es|
  {
    var n := |es| - 1;
    if n > 0 {
      assert es[1..][..n - 1] == es[..n][1..];
      IntValuesCons(es[..n]);
    }
  }

  lemma LookupCons(es: PhpArray, k: Key)
    requires es != [] && DistinctKeys(es)
    ensures Lookup(es, k) == if es[0].0 == k then Some(es[0].1) else Lookup(es[1..], k)
    ensures es[0].0 == k ==> Lookup(es[1..], k) == None
  {
  }

  lemma {:induction false} MergeIntoLookup(acc: PhpArray, es: PhpArray, k: Key)
    requires k.StrKey? && DistinctKeys(es)
    ensures Lookup(MergeInto(acc, es), k) ==
      if Lookup(es, k).Some? then Lookup(es, k) else Lookup(acc, k)
    decreases |es|
  {
    if es != [] {
      StepLookup(acc, es[0]);
      MergeIntoLookup(Step(acc, es[0]), es[1..], k);
      LookupCons(es, k);
    }
  }

  lemma {:induction false} MergeIntoGrows(acc: PhpArray, es: PhpArray)
    ensures |MergeInto(acc, es)| >= |acc|
    ensures es != [] ==> MergeInto(acc, es) != []
    decreases |es|
  {
    if es != [] {
      StepIntParts(acc, es[0]);
      MergeIntoGrows(Step(acc, es[0]), es[1..]);
    }
  }

  // ---------------------------------------------------------------------
  // What array_merge promises

  /** `array_merge($a, $b)` on a string key: the value from `$b` wins when
      `$b` has the key, and otherwise the value from `$a` is kept. */
  lemma ArrayMergeLookup(a: PhpArray, b: PhpArray, k: Key)
    requires DistinctKeys(a) && DistinctKeys(b) && k.StrKey?
    ensures Lookup(ArrayMerge(a, b), k) == if Lookup(b, k).Some? then Lookup(b, k) else Lookup(a, k)
  {
    MergeIntoLookup(MergeInto([], a), b, k);
    MergeIntoLookup([], a, k);
  }

  /** `array_merge($a, $b)` keeps the integer-keyed values of `$a` and then
      of `$b`, in order. */
  lemma ArrayMergeIntValues(a: PhpArray, b: PhpArray)
    ensures IntValues(ArrayMerge(a, b)) == IntValues(a) + IntValues(b)
  {
    var m := MergeInto([], a);
    MergeIntoIntParts([], a);
    MergeIntoIntParts(m, b);
  }

  lemma ArrayMergeShape(a: PhpArray, b: PhpArray)
    ensures Renumbered(ArrayMerge(a, b))
  {
    assert Renumbered([]) by { assert Range(0) == []; }
    MergeIntoRenumbered([], a);
    MergeIntoRenumbered(MergeInto([], a), b);
  }

  lemma ArrayMergeIntCount(a: PhpArray, b: PhpArray)
    ensures |IntKeys(ArrayMerge(a, b))| == |IntValues(a)| + |IntValues(b)|
  {
    MergeIntoIntParts([], a);
    MergeIntoIntParts(MergeInto([], a), b);
  }

  /** `array_merge($a, $b)` numbers its integer keys 0, 1, 2, ... in order,
      and its keys are distinct. */
  lemma ArrayMergeRenumbers(a: PhpArray, b: PhpArray)
    ensures IntKeys(ArrayMerge(a, b)) == Range(|IntValues(a)| + |IntValues(b)|)
    ensures DistinctKeys(ArrayMerge(a, b))
  {
    ArrayMergeShape(a, b);
    ArrayMergeIntCount(a, b);
  }

  /** `array_merge($a, $b)` is empty exactly when both inputs are. */
  lemma ArrayMergeEmpty(a: PhpArray, b: PhpArray)
    ensures ArrayMerge(a, b) == [] <==> a == [] && b == []
  {
    MergeIntoGrows([], a);
    MergeIntoGrows(MergeInto([], a), b);
  }
}
