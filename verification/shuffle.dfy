/** The Fisher–Yates shuffle of `shuffleArray`: for `i` from the last index down
    to `1`, draw `j` in `[0, i]` and swap positions `i` and `j` of a copy. */
module FisherYates {
  import opened Draws

  /** `[arr[i], arr[j]] = [arr[j], arr[i]]` on a sequence value. */
  function Swap<T>(a: seq<T>, i: nat, j: nat): (r: seq<T>)
    requires i < |a| && j < |a|
    ensures |r| == |a| && multiset(r) == multiset(a)
    ensures r[i] == a[j] && r[j] == a[i]
    ensures forall k :: 0 <= k < |a| && k != i && k != j ==> r[k] == a[k]
  {
    a[i := a[j]][j := a[i]]
  }

  /** The loop passes for indices `i, i - 1, ..., 1`. */
  function ShuffleDown<T>(a: seq<T>, i: nat, src: Source): (r: (seq<T>, Source))
    requires i < |a|
    ensures |r.0| == |a|
    decreases i
  {
    if i == 0 then (a, src)
    else
      var (j, rest) := Draw(src, i + 1);
      ShuffleDown(Swap(a, i, j), i - 1, rest)
  }

  /** The passes only swap, so they rearrange the list. */
  lemma {:induction false} ShuffleDownPermutes<T>(a: seq<T>, i: nat, src: Source)
    requires i < |a|
    ensures multiset(ShuffleDown(a, i, src).0) == multiset(a)
    decreases i
  {
    if i > 0 {
      var (j, rest) := Draw(src, i + 1);
      var b := Swap(a, i, j);
      ShuffleDownPermutes(b, i - 1, rest);
      assert ShuffleDown(a, i, src) == ShuffleDown(b, i - 1, rest);
      assert multiset(b) == multiset(a);
    }
  }

  /** One pass of the loop, unfolded. */
  lemma ShuffleDownStep<T>(a: seq<T>, i: nat, src: Source, j: nat, rest: Source)
    requires 0 < i < |a| && (j, rest) == Draw(src, i + 1)
    ensures j <= i
    ensures ShuffleDown(a, i, src) == ShuffleDown(Swap(a, i, j), i - 1, rest)
  {
  }

  /** `shuffleArray(array)`: the shuffled copy and the source left after its draws. */
  function Shuffle<T>(a: seq<T>, src: Source): (r: (seq<T>, Source))
    ensures |r.0| == |a| && multiset(r.0) == multiset(a)
  {
    if |a| == 0 then (a, src)
    else ShuffleDownPermutes(a, |a| - 1, src); ShuffleDown(a, |a| - 1, src)
  }

  /** The imperative `shuffleArray`: works on a copy of its argument (here a
      sequence value, so the caller's list is never disturbed) and swaps the
      copy's positions in a loop. The copy is a sequence rather than an array,
      and the loop invariant ties it to `Shuffle` rather than restating the
      multiset: `ShuffleDownPermutes` carries the permutation fact once. */
  method ShuffleArray<T>(input: seq<T>, src: Source) returns (r: seq<T>, rest: Source)
    ensures multiset(r) == multiset(input) && |r| == |input|
    ensures (r, rest) == Shuffle(input, src)
  {
    if |input| == 0 {
      return input, src;
    }
    var i := |input| - 1;
    r, rest := input, src;
    assert ShuffleDown(r, i, rest) == Shuffle(input, src);
    while i > 0
      invariant 0 <= i < |r|
      invariant ShuffleDown(r, i, rest) == Shuffle(input, src)
    {
      var (j, next) := Draw(rest, i + 1);
      ShuffleDownStep(r, i, rest, j, next);
      r := Swap(r, i, j);
      rest := next;
      i := i - 1;
      assert ShuffleDown(r, i, rest) == Shuffle(input, src);
    }
    assert ShuffleDown(r, 0, rest) == (r, rest);
  }

  /** No value occurs twice. */
  predicate Distinct<T(==)>(s: seq<T>) {
    forall a, b :: 0 <= a < b < |s| ==> s[a] != s[b]
  }

  lemma {:induction false} DistinctIffMultiplicityOne<T>(s: seq<T>)
    ensures Distinct(s) <==> forall x :: multiset(s)[x] <= 1
  {
    if |s| > 0 {
      var t := s[..|s| - 1];
      var last := s[|s| - 1];
      assert s == t + [last];
      DistinctIffMultiplicityOne(t);
      if Distinct(s) {
        assert Distinct(t);
        forall a | 0 <= a < |t| ensures t[a] != last {
          assert s[a] == t[a];
        }
      }
      if forall x :: multiset(s)[x] <= 1 {
        assert forall x :: multiset(t)[x] <= 1 by {
          forall x ensures multiset(t)[x] <= 1 {
            assert multiset(s)[x] == multiset(t)[x] + multiset([last])[x];
          }
        }
        forall a, b | 0 <= a < b < |s| ensures s[a] != s[b] {
          if b < |s| - 1 {
            assert s[a] == t[a] && s[b] == t[b];
          } else {
            assert s[a] in t;
            assert multiset(s)[last] == multiset(t)[last] + 1;
          }
        }
      }
    }
  }

  /** A permutation of a list without repetitions has none either. */
  lemma PermutationKeepsDistinct<T>(a: seq<T>, b: seq<T>)
    requires multiset(a) == multiset(b) && Distinct(a)
    ensures Distinct(b)
  {
    DistinctIffMultiplicityOne(a);
    DistinctIffMultiplicityOne(b);
  }

  /** `r` is the first `|r|` elements of some rearrangement of `s`. */
  ghost predicate PrefixOfPermutation<T(!new)>(r: seq<T>, s: seq<T>) {
    exists p :: IsPermutation(p, s) && r <= p
  }

  /** `p` rearranges `s`: same elements, same multiplicities. */
  predicate IsPermutation<T(==)>(p: seq<T>, s: seq<T>) {
    multiset(p) == multiset(s)
  }

  /** A prefix of a permutation draws on the original list's elements, each at
      most as often as it occurs there. */
  lemma PrefixOfPermutationIsSubMultiset<T(!new)>(r: seq<T>, s: seq<T>)
    requires PrefixOfPermutation(r, s)
    ensures multiset(r) <= multiset(s) && |r| <= |s|
  {
    var p :| IsPermutation(p, s) && r <= p;
    assert p == r + p[|r|..];
    assert multiset(p) == multiset(r) + multiset(p[|r|..]);
    assert |p| == |multiset(p)| == |multiset(s)| == |s|;
  }

  /** Every element of a prefix of a permutation comes from the original list. */
  lemma PrefixOfPermutationElements<T(!new)>(r: seq<T>, s: seq<T>)
    requires PrefixOfPermutation(r, s)
    ensures forall k :: 0 <= k < |r| ==> r[k] in s
  {
    PrefixOfPermutationIsSubMultiset(r, s);
    forall k | 0 <= k < |r| ensures r[k] in s {
      assert r[k] in multiset(r);
    }
  }
}
