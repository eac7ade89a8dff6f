/**
 * Counting the way the dashboard handlers do it: a dict filled one row at a
 * time (`d[k] = d.get(k, 0) + 1`), whose keys keep the order in which they
 * were first seen, and Python's `max(d.items(), key=...)`, which returns the
 * first item holding the largest value.
 */
module Tally {

  /** The number of occurrences of `k` in `xs`. */
  function Occurrences<K(==)>(xs: seq<K>, k: K): (n: nat)
    ensures n > 0 <==> k in xs
    ensures n <= |xs|
  {
    if xs == [] then 0
    else
      assert xs == xs[..|xs| - 1] + [xs[|xs| - 1]];
      Occurrences(xs[..|xs| - 1], k) + (if xs[|xs| - 1] == k then 1 else 0)
  }

  /** Counting from the front: the first element adds one when it is `k`. */
  lemma {:induction false} OccurrencesCons<K>(x: K, xs: seq<K>, k: K)
    ensures Occurrences([x] + xs, k) == (if x == k then 1 else 0) + Occurrences(xs, k)
  {
    if xs != [] {
      var p := xs[..|xs| - 1];
      assert ([x] + xs)[..|xs|] == [x] + p;
      OccurrencesCons(x, p, k);
    }
  }

  /** No element occurs twice. */
  predicate NoDuplicates<K(==)>(ks: seq<K>) {
    forall i, j :: 0 <= i < j < |ks| ==> ks[i] != ks[j]
  }

  /** The distinct elements of `xs` in the order they are first met: the key order of a dict filled from `xs`. */
  function Distinct<K(==)>(xs: seq<K>): seq<K> {
    if xs == [] then []
    else
      var prev := Distinct(xs[..|xs| - 1]);
      if xs[|xs| - 1] in prev then prev else prev + [xs[|xs| - 1]]
  }

  /** `Distinct` lists every element of `xs` exactly once and nothing else. */
  lemma {:induction false} DistinctMeaning<K>(xs: seq<K>)
    ensures forall k :: k in Distinct(xs) <==> k in xs
    ensures NoDuplicates(Distinct(xs))
  {
    if xs != [] {
      var p := xs[..|xs| - 1];
      assert xs == p + [xs[|xs| - 1]];
      DistinctMeaning(p);
    }
  }

  /** The dict `{k: count}` after counting `xs` one element at a time. */
  function Counts<K(==)>(xs: seq<K>): map<K, nat> {
    if xs == [] then map[]
    else
      var m := Counts(xs[..|xs| - 1]);
      var x := xs[|xs| - 1];
      m[x := if x in m then m[x] + 1 else 1]
  }

  /** The keys of `Counts(xs)` are the elements of `xs`, each mapped to its number of occurrences. */
  lemma {:induction false} CountsMeaning<K>(xs: seq<K>)
    ensures forall k :: k in Counts(xs) <==> k in xs
    ensures forall k :: k in Counts(xs) ==> Counts(xs)[k] == Occurrences(xs, k)
  {
    if xs != [] {
      var p := xs[..|xs| - 1];
      assert xs == p + [xs[|xs| - 1]];
      CountsMeaning(p);
    }
  }

  /** Counting one more element bumps its count, starting from 1 for a new key. */
  lemma CountsSnoc<K>(xs: seq<K>, x: K)
    ensures Counts(xs + [x]) == Counts(xs)[x := if x in Counts(xs) then Counts(xs)[x] + 1 else 1]
    ensures Distinct(xs + [x]) == if x in Distinct(xs) then Distinct(xs) else Distinct(xs) + [x]
  {
    assert (xs + [x])[..|xs|] == xs;
  }

  /** One step of a loop that counts `xs` from the left: the prefix grows by `xs[i]`. */
  lemma CountsStep<K>(xs: seq<K>, i: nat)
    requires i < |xs|
    ensures var m := Counts(xs[..i]);
            Counts(xs[..i + 1]) == m[xs[i] := if xs[i] in m then m[xs[i]] + 1 else 1]
    ensures var d := Distinct(xs[..i]);
            Distinct(xs[..i + 1]) == if xs[i] in d then d else d + [xs[i]]
  {
    assert xs[..i + 1] == xs[..i] + [xs[i]];
    CountsSnoc(xs[..i], xs[i]);
  }

  /** The position at which `k` is first met in `xs`. */
  function FirstIndex<K(==)>(xs: seq<K>, k: K): (i: nat)
    requires k in xs
    ensures i < |xs| && xs[i] == k && k !in xs[..i]
  {
    assert xs == xs[..|xs| - 1] + [xs[|xs| - 1]];
    if k in xs[..|xs| - 1] then
      var i := FirstIndex(xs[..|xs| - 1], k);
      assert xs[..|xs| - 1][..i] == xs[..i];
      i
    else |xs| - 1
  }

  /** The sum of the counts of `ks`, each counted in `xs`. */
  function SumOfOccurrences<K(==)>(ks: seq<K>, xs: seq<K>): nat {
    if ks == [] then 0
    else SumOfOccurrences(ks[..|ks| - 1], xs) + Occurrences(xs, ks[|ks| - 1])
  }

  lemma {:induction false} SumOfOccurrencesSnoc<K>(ks: seq<K>, xs: seq<K>, x: K)
    ensures SumOfOccurrences(ks, xs + [x]) == SumOfOccurrences(ks, xs) + Occurrences(ks, x)
  {
    assert (xs + [x])[..|xs|] == xs;
    if ks != [] {
      SumOfOccurrencesSnoc(ks[..|ks| - 1], xs, x);
    }
  }

  lemma {:induction false} OccursOnce<K>(ks: seq<K>, x: K)
    requires NoDuplicates(ks) && x in ks
    ensures Occurrences(ks, x) == 1
  {
    var p := ks[..|ks| - 1];
    assert ks == p + [ks[|ks| - 1]];
    if ks[|ks| - 1] == x {
      assert x !in p;
    } else {
      OccursOnce(p, x);
    }
  }

  /** The counts of a dict filled from `xs` add up to the number of elements counted. */
  lemma {:induction false} CountsAddUp<K>(xs: seq<K>)
    ensures SumOfOccurrences(Distinct(xs), xs) == |xs|
  {
    if xs != [] {
      var p, x := xs[..|xs| - 1], xs[|xs| - 1];
      assert xs == p + [x];
      CountsAddUp(p);
      DistinctMeaning(p);
      var d := Distinct(p);
      SumOfOccurrencesSnoc(d, p, x);
      if x in d {
        OccursOnce(d, x);
      } else {
        assert (d + [x])[..|d|] == d;
        assert Occurrences(p, x) == 0;
      }
    }
  }

  /** `Distinct` lists the elements in the order of their first occurrence. */
  lemma {:induction false} DistinctInFirstSeenOrder<K>(xs: seq<K>, i: nat, j: nat)
    requires i < j < |Distinct(xs)|
    ensures Distinct(xs)[i] in xs && Distinct(xs)[j] in xs
    ensures FirstIndex(xs, Distinct(xs)[i]) < FirstIndex(xs, Distinct(xs)[j])
  {
    var p, x := xs[..|xs| - 1], xs[|xs| - 1];
    assert xs == p + [x];
    DistinctMeaning(xs);
    DistinctMeaning(p);
    var d := Distinct(p);
    var a, b := Distinct(xs)[i], Distinct(xs)[j];
    if x in d {
      DistinctInFirstSeenOrder(p, i, j);
    } else if j < |d| {
      DistinctInFirstSeenOrder(p, i, j);
    } else {
      assert Distinct(xs) == d + [x];
      assert b == x && a == d[i] && a in d;
      assert FirstIndex(p, a) < |p|;
    }
  }

  /** The position Python's `max` picks: the first one holding the largest value. */
  function FirstMaxIndex(vals: seq<nat>): (i: nat)
    requires |vals| > 0
    ensures i < |vals|
    ensures forall j :: 0 <= j < |vals| ==> vals[j] <= vals[i]
    ensures forall j :: 0 <= j < i ==> vals[j] < vals[i]
  {
    if |vals| == 1 then 0
    else
      var i := FirstMaxIndex(vals[..|vals| - 1]);
      if vals[|vals| - 1] > vals[i] then |vals| - 1 else i
  }
}
