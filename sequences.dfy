/** Order-preserving helpers on sequences: Python dictionaries keep keys in
    first-insertion order, which the model states with `Dedup`. */
module Sequences {

  /** Every element occurs at most once. */
  ghost predicate NoDup<T>(s: seq<T>)
  {
    forall i, j :: 0 <= i < j < |s| ==> s[i] != s[j]
  }

  /** Appends the elements of `xs`, left to right, to `acc`, skipping those already present:
      the order in which a dictionary that starts with keys `acc` acquires the keys `xs`. */
  function DedupAppend<T(==)>(acc: seq<T>, xs: seq<T>): seq<T>
  {
    if xs == [] then acc
    else
      var d := DedupAppend(acc, xs[..|xs| - 1]);
      if xs[|xs| - 1] in d then d else d + [xs[|xs| - 1]]
  }

  /** The distinct elements of `xs` in order of first occurrence. */
  function Dedup<T(==)>(xs: seq<T>): seq<T>
  {
    DedupAppend([], xs)
  }

  /** Number of occurrences of `x` in `xs`. */
  function Count<T(==)>(xs: seq<T>, x: T): nat
  {
    if xs == [] then 0
    else Count(xs[..|xs| - 1], x) + (if xs[|xs| - 1] == x then 1 else 0)
  }

  /** `n` copies of `x`. */
  function Repeat<T>(x: T, n: nat): (r: seq<T>)
    ensures |r| == n
    ensures forall i :: 0 <= i < n ==> r[i] == x
  {
    if n == 0 then [] else Repeat(x, n - 1) + [x]
  }

  /** Deduplicating keeps exactly the elements seen, each once, and never reorders `acc`. */
  lemma {:induction false} DedupAppendContents<T>(acc: seq<T>, xs: seq<T>)
    requires NoDup(acc)
    ensures NoDup(DedupAppend(acc, xs))
    ensures forall x :: x in DedupAppend(acc, xs) <==> x in acc || x in xs
    ensures |acc| <= |DedupAppend(acc, xs)| && DedupAppend(acc, xs)[..|acc|] == acc
  {
    if xs != [] {
      var init := xs[..|xs| - 1];
      DedupAppendContents(acc, init);
      assert xs == init + [xs[|xs| - 1]];
    }
  }

  /** Deduplicating a concatenation continues from the deduplicated prefix. */
  lemma {:induction false} DedupAppendConcat<T>(acc: seq<T>, a: seq<T>, b: seq<T>)
    ensures DedupAppend(acc, a + b) == DedupAppend(DedupAppend(acc, a), b)
  {
    if b == [] {
      assert a + b == a;
    } else {
      var init := b[..|b| - 1];
      assert (a + b)[..|a + b| - 1] == a + init;
      assert (a + b)[|a + b| - 1] == b[|b| - 1];
      DedupAppendConcat(acc, a, init);
    }
  }

  /** `Dedup` lists every element exactly once. */
  lemma DedupContents<T>(xs: seq<T>)
    ensures NoDup(Dedup(xs))
    ensures forall x :: x in Dedup(xs) <==> x in xs
  {
    DedupAppendContents([], xs);
  }

  /** An element occurs a positive number of times exactly when it is present. */
  lemma {:induction false} CountPositive<T>(xs: seq<T>, x: T)
    ensures Count(xs, x) > 0 <==> x in xs
  {
    if xs != [] {
      var init := xs[..|xs| - 1];
      CountPositive(init, x);
      assert xs == init + [xs[|xs| - 1]];
    }
  }

  /** Concatenation is associative. */
  lemma AppendAssoc<T>(a: seq<T>, b: seq<T>, c: seq<T>)
    ensures a + (b + c) == (a + b) + c
  {
  }
}
