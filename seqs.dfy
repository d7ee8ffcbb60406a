/** Sequence facts shared by the batch loops: the successes of a per-item step kept in input
    order, occurrence counts, and the sorted listing of distinct strings that `sorted` gives. */
module Seqs {
  import opened Wrappers
  import opened Text

  /** The values of the items whose step succeeds, in input order: what a loop that
      appends each success and skips each failure has accumulated. */
  function Successes<A, B, E>(xs: seq<A>, step: A -> Result<B, E>): (r: seq<B>)
    ensures |r| <= |xs|
  {
    if xs == [] then []
    else (if step(xs[0]).Ok? then [step(xs[0]).value] else []) + Successes(xs[1..], step)
  }

  /** The number of items whose step fails. */
  function FailureCount<A, B, E>(xs: seq<A>, step: A -> Result<B, E>): nat
  {
    if xs == [] then 0
    else (if step(xs[0]).Err? then 1 else 0) + FailureCount(xs[1..], step)
  }

  /** A failure in `xs` has no effect on what `ys` contributes. */
  lemma {:induction false} SuccessesAppend<A, B, E>(xs: seq<A>, ys: seq<A>, step: A -> Result<B, E>)
    ensures Successes(xs + ys, step) == Successes(xs, step) + Successes(ys, step)
  {
    if xs == [] {
      assert xs + ys == ys;
    } else {
      var zs := xs + ys;
      assert zs[0] == xs[0] && zs[1..] == xs[1..] + ys;
      SuccessesAppend(xs[1..], ys, step);
      var head: seq<B> := if step(xs[0]).Ok? then [step(xs[0]).value] else [];
      assert Successes(zs, step) == head + Successes(zs[1..], step);
      assert Successes(xs, step) == head + Successes(xs[1..], step);
    }
  }

  lemma {:induction false} FailureCountAppend<A, B, E>(xs: seq<A>, ys: seq<A>, step: A -> Result<B, E>)
    ensures FailureCount(xs + ys, step) == FailureCount(xs, step) + FailureCount(ys, step)
  {
    if xs == [] {
      assert xs + ys == ys;
    } else {
      var zs := xs + ys;
      assert zs[0] == xs[0] && zs[1..] == xs[1..] + ys;
      FailureCountAppend(xs[1..], ys, step);
    }
  }

  /** Every item is counted exactly once, as a success or as a failure. */
  lemma {:induction false} SuccessesPlusFailures<A, B, E>(xs: seq<A>, step: A -> Result<B, E>)
    ensures |Successes(xs, step)| + FailureCount(xs, step) == |xs|
  {
    if xs != [] {
      SuccessesPlusFailures(xs[1..], step);
    }
  }

  /** Every success comes from some item of the input. */
  lemma {:induction false} SuccessesSound<A, B, E>(xs: seq<A>, step: A -> Result<B, E>, k: nat)
    requires k < |Successes(xs, step)|
    ensures exists j :: 0 <= j < |xs| && step(xs[j]) == Ok(Successes(xs, step)[k])
  {
    if step(xs[0]).Ok? && k == 0 {
      assert step(xs[0]) == Ok(Successes(xs, step)[0]);
    } else {
      var k' := if step(xs[0]).Ok? then k - 1 else k;
      SuccessesSound(xs[1..], step, k');
      var j :| 0 <= j < |xs[1..]| && step(xs[1..][j]) == Ok(Successes(xs[1..], step)[k']);
      assert step(xs[j + 1]) == Ok(Successes(xs, step)[k]);
    }
  }

  /** Every item whose step succeeds has its value among the successes. */
  lemma {:induction false} SuccessesComplete<A, B, E>(xs: seq<A>, step: A -> Result<B, E>, j: nat)
    requires j < |xs| && step(xs[j]).Ok?
    ensures step(xs[j]).value in Successes(xs, step)
  {
    if j > 0 {
      SuccessesComplete(xs[1..], step, j - 1);
    }
  }

  /** All steps fail exactly when nothing is accumulated. */
  lemma {:induction false} SuccessesEmpty<A, B, E>(xs: seq<A>, step: A -> Result<B, E>)
    ensures Successes(xs, step) == [] <==> forall j :: 0 <= j < |xs| ==> step(xs[j]).Err?
  {
    if xs != [] {
      SuccessesEmpty(xs[1..], step);
      assert forall j :: 1 <= j < |xs| ==> xs[j] == xs[1..][j - 1];
    }
  }

  /** The number of occurrences of `x` in `xs`. */
  function Count<T(==)>(xs: seq<T>, x: T): (n: nat)
    ensures n <= |xs|
    ensures n > 0 <==> x in xs
  {
    if xs == [] then 0 else (if xs[0] == x then 1 else 0) + Count(xs[1..], x)
  }

  lemma {:induction false} CountAppend<T>(xs: seq<T>, ys: seq<T>, x: T)
    ensures Count(xs + ys, x) == Count(xs, x) + Count(ys, x)
  {
    if xs == [] {
      assert xs + ys == ys;
    } else {
      assert (xs + ys)[0] == xs[0] && (xs + ys)[1..] == xs[1..] + ys;
      CountAppend(xs[1..], ys, x);
    }
  }

  /** `counts` maps exactly the elements of `xs`, each to the number of its occurrences. */
  ghost predicate IsHistogram<T(!new)>(counts: map<T, nat>, xs: seq<T>) {
    && (forall e :: e in counts <==> e in xs)
    && (forall e :: e in counts ==> counts[e] == Count(xs, e))
  }

  /** One more element adds one to its own entry and leaves every other entry alone. */
  lemma HistogramSnoc<T(!new)>(counts: map<T, nat>, xs: seq<T>, x: T)
    requires IsHistogram(counts, xs)
    ensures IsHistogram(counts[x := (if x in counts then counts[x] else 0) + 1], xs + [x])
  {
    forall e
      ensures Count(xs + [x], e) == Count(xs, e) + if e == x then 1 else 0
    {
      CountAppend(xs, [x], e);
      assert [x][1..] == [];
    }
  }

  /** The number of items that satisfy `p`. */
  function CountIf<T>(xs: seq<T>, p: T -> bool): (n: nat)
    ensures n <= |xs|
  {
    if xs == [] then 0 else (if p(xs[0]) then 1 else 0) + CountIf(xs[1..], p)
  }

  lemma {:induction false} CountIfAppend<T>(xs: seq<T>, ys: seq<T>, p: T -> bool)
    ensures CountIf(xs + ys, p) == CountIf(xs, p) + CountIf(ys, p)
  {
    if xs == [] {
      assert xs + ys == ys;
    } else {
      assert (xs + ys)[0] == xs[0] && (xs + ys)[1..] == xs[1..] + ys;
      CountIfAppend(xs[1..], ys, p);
    }
  }

  lemma {:induction false} CountIfPositive<T>(xs: seq<T>, p: T -> bool)
    ensures CountIf(xs, p) > 0 <==> exists i :: 0 <= i < |xs| && p(xs[i])
  {
    if xs != [] {
      CountIfPositive(xs[1..], p);
      assert forall i :: 1 <= i < |xs| ==> xs[i] == xs[1..][i - 1];
    }
  }

  /** Strictly increasing in Python's string order; in particular no string twice. */
  predicate StrictlySorted(xs: seq<string>) {
    forall i, j :: 0 <= i < j < |xs| ==> LexLess(xs[i], xs[j])
  }

  /** Insert `x` into a strictly sorted sequence, unless it is already there. */
  function InsertSorted(x: string, xs: seq<string>): (r: seq<string>)
    requires StrictlySorted(xs)
    ensures StrictlySorted(r)
    ensures forall y :: y in r <==> y in xs || y == x
  {
    if xs == [] then [x]
    else if x == xs[0] then xs
    else if LexLess(x, xs[0]) then
      assert forall j :: 0 <= j < |xs| ==> LexLess(x, xs[j]) by {
        forall j | 0 <= j < |xs| ensures LexLess(x, xs[j]) {
          if j > 0 { LexLessTransitive(x, xs[0], xs[j]); }
        }
      }
      [x] + xs
    else
      var rest := InsertSorted(x, xs[1..]);
      LexLessTotal(x, xs[0]);
      assert forall i :: 0 <= i < |rest| ==> LexLess(xs[0], rest[i]) by {
        forall i | 0 <= i < |rest| ensures LexLess(xs[0], rest[i]) {
          assert rest[i] in rest;
          if rest[i] != x {
            var j :| 0 <= j < |xs[1..]| && xs[1..][j] == rest[i];
            assert rest[i] == xs[j + 1];
          }
        }
      }
      assert xs == [xs[0]] + xs[1..];
      [xs[0]] + rest
  }

  /** The distinct strings of `xs` in ascending order: the keys `sorted` lists for a
      dictionary filled from `xs`. */
  function SortedDistinct(xs: seq<string>): (r: seq<string>)
    ensures StrictlySorted(r)
    ensures forall x :: x in r <==> x in xs
  {
    if xs == [] then [] else
      var rest := SortedDistinct(xs[..|xs| - 1]);
      var r := InsertSorted(xs[|xs| - 1], rest);
      assert xs == xs[..|xs| - 1] + [xs[|xs| - 1]];
      r
  }

  /** The head of a strictly sorted sequence is below every other element. */
  lemma SortedHeadLeast(xs: seq<string>, x: string)
    requires StrictlySorted(xs) && x in xs
    ensures x == xs[0] || LexLess(xs[0], x)
  {
  }

  /** Two strictly sorted sequences with the same elements are equal: the sorted listing
      of a set of strings is unique. */
  lemma {:induction false} SortedUnique(xs: seq<string>, ys: seq<string>)
    requires StrictlySorted(xs) && StrictlySorted(ys)
    requires forall x :: x in xs <==> x in ys
    ensures xs == ys
    decreases |xs|
  {
    if xs != [] {
      assert xs[0] in ys;
      SortedHeadLeast(ys, xs[0]);
      SortedHeadLeast(xs, ys[0]);
      LexLessAsymmetric(xs[0], ys[0]);
      assert xs[0] == ys[0];
      LexLessIrreflexive(xs[0]);
      forall x ensures x in xs[1..] <==> x in ys[1..] {
        assert x in xs[1..] ==> x in xs && x != xs[0];
        assert x in ys[1..] ==> x in ys && x != ys[0];
        assert x in xs && x != xs[0] ==> x in xs[1..];
        assert x in ys && x != ys[0] ==> x in ys[1..];
      }
      SortedUnique(xs[1..], ys[1..]);
      assert xs == [xs[0]] + xs[1..] && ys == [ys[0]] + ys[1..];
    } else {
      forall y ensures multiset(ys)[y] == 0 {
        assert y !in xs;
      }
      assert multiset(ys) == multiset{};
    }
  }

  /** Each key of `keys` paired with its number of occurrences in `xs`. */
  function CountsOf(keys: seq<string>, xs: seq<string>): (r: seq<(string, nat)>)
    ensures |r| == |keys|
    ensures forall i :: 0 <= i < |keys| ==> r[i] == (keys[i], Count(xs, keys[i]))
  {
    if keys == [] then [] else [(keys[0], Count(xs, keys[0]))] + CountsOf(keys[1..], xs)
  }

  /** The sum of the counts of a listing. */
  function Total(items: seq<(string, nat)>): nat
  {
    if items == [] then 0 else items[0].1 + Total(items[1..])
  }

  lemma {:induction false} TotalCons(keys: seq<string>, x: string, xs: seq<string>)
    ensures Total(CountsOf(keys, [x] + xs)) == Total(CountsOf(keys, xs)) + Count(keys, x)
  {
    if keys != [] {
      TotalCons(keys[1..], x, xs);
      assert ([x] + xs)[1..] == xs;
    }
  }

  lemma {:induction false} CountDistinct(keys: seq<string>, x: string)
    requires StrictlySorted(keys) && x in keys
    ensures Count(keys, x) == 1
  {
    if keys[0] == x {
      if x in keys[1..] {
        var k :| 1 <= k < |keys| && keys[k] == x;
        assert LexLess(keys[0], keys[k]);
        LexLessIrreflexive(x);
      }
    } else {
      CountDistinct(keys[1..], x);
    }
  }

  /** Counting each distinct key once covers every item exactly once. */
  lemma {:induction false} TotalOfCounts(keys: seq<string>, xs: seq<string>)
    requires StrictlySorted(keys)
    requires forall x :: x in xs ==> x in keys
    ensures Total(CountsOf(keys, xs)) == |xs|
  {
    if xs == [] {
      TotalOfZeroCounts(keys);
    } else {
      TotalOfCounts(keys, xs[1..]);
      assert xs == [xs[0]] + xs[1..];
      TotalCons(keys, xs[0], xs[1..]);
      CountDistinct(keys, xs[0]);
    }
  }

  lemma {:induction false} TotalOfZeroCounts(keys: seq<string>)
    ensures Total(CountsOf(keys, [])) == 0
  {
    if keys != [] {
      TotalOfZeroCounts(keys[1..]);
    }
  }

  /** `zip(xs, ys)`: pairs up to the shorter of the two. */
  function Zip<A, B>(xs: seq<A>, ys: seq<B>): (r: seq<(A, B)>)
    ensures |r| == if |xs| <= |ys| then |xs| else |ys|
    ensures forall i :: 0 <= i < |r| ==> r[i] == (xs[i], ys[i])
  {
    if xs == [] || ys == [] then [] else [(xs[0], ys[0])] + Zip(xs[1..], ys[1..])
  }
}
