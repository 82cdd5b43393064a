/** Generic facts about sequences: positions, distinctness and first occurrences. */
module Sequences {

  /** No element occurs twice. */
  ghost predicate Distinct<T>(s: seq<T>) {
    forall i, j :: 0 <= i < j < |s| ==> s[i] != s[j]
  }

  /** The position of the first occurrence of x in s, or |s| when x does not occur. */
  function IndexOf<T(==)>(s: seq<T>, x: T): (k: nat)
    ensures k <= |s|
    ensures k < |s| <==> x in s
    ensures k < |s| ==> s[k] == x
    ensures forall j :: 0 <= j < k ==> s[j] != x
  {
    if s == [] then 0 else if s[0] == x then 0 else 1 + IndexOf(s[1..], x)
  }

  /** Appending an element does not move the first occurrence of an element already present. */
  lemma IndexOfAppend<T>(p: seq<T>, y: T, x: T)
    requires x in p
    ensures IndexOf(p + [y], x) == IndexOf(p, x)
  {
    var k, k' := IndexOf(p + [y], x), IndexOf(p, x);
    assert (p + [y])[k'] == x;
  }

  /** Appending a new element puts its first occurrence at the end. */
  lemma IndexOfAppendNew<T>(p: seq<T>, y: T)
    requires y !in p
    ensures IndexOf(p + [y], y) == |p|
  {
    assert (p + [y])[|p|] == y;
  }

  /**
   * s with every repeated element dropped after its first occurrence; what remains keeps the
   * order in which the elements first occur.
   */
  function FirstOccurrences<T(==)>(s: seq<T>): (r: seq<T>)
    ensures forall i :: 0 <= i < |s| ==> s[i] in r
    ensures forall i :: 0 <= i < |r| ==> r[i] in s
    ensures Distinct(r)
    ensures |r| <= |s|
  {
    if s == [] then []
    else
      var p := s[..|s| - 1];
      assert s == p + [s[|s| - 1]];
      var rest := FirstOccurrences(p);
      if s[|s| - 1] in rest then rest else rest + [s[|s| - 1]]
  }

  /** A sequence without repetitions is its own first-occurrence list. */
  lemma {:induction false} FirstOccurrencesOfDistinct<T>(s: seq<T>)
    requires Distinct(s)
    ensures FirstOccurrences(s) == s
  {
    if s != [] {
      var p := s[..|s| - 1];
      assert s == p + [s[|s| - 1]];
      assert Distinct(p);
      FirstOccurrencesOfDistinct(p);
      assert s[|s| - 1] !in p by {
        forall j | 0 <= j < |p| ensures p[j] != s[|s| - 1] {
          assert p[j] == s[j];
        }
      }
    }
  }

  /** Taking first occurrences twice gives what taking them once gave. */
  lemma FirstOccurrencesIdempotent<T>(s: seq<T>)
    ensures FirstOccurrences(FirstOccurrences(s)) == FirstOccurrences(s)
  {
    FirstOccurrencesOfDistinct(FirstOccurrences(s));
  }

  /** The elements kept appear in the order of their first occurrence in the input. */
  lemma {:induction false} FirstOccurrencesOrder<T>(s: seq<T>)
    ensures OrderedByFirstIndex(FirstOccurrences(s), s)
  {
    if s != [] {
      var p, y := s[..|s| - 1], s[|s| - 1];
      assert s == p + [y];
      FirstOccurrencesOrder(p);
      OrderAfterAppend(FirstOccurrences(p), p, y);
    }
  }

  /** Taking first occurrences one more element at a time. */
  lemma FirstOccurrencesAppend<T>(p: seq<T>, x: T)
    ensures FirstOccurrences(p + [x])
            == if x in FirstOccurrences(p) then FirstOccurrences(p) else FirstOccurrences(p) + [x]
  {
    assert (p + [x])[..|p|] == p;
  }

  /** First occurrences of a prefix one element longer. */
  lemma FirstOccurrencesStep<T>(s: seq<T>, i: nat)
    requires i < |s|
    ensures FirstOccurrences(s[..i + 1])
            == if s[i] in FirstOccurrences(s[..i]) then FirstOccurrences(s[..i]) else FirstOccurrences(s[..i]) + [s[i]]
  {
    var p := s[..i];
    assert s[..i + 1] == p + [s[i]];
    FirstOccurrencesAppend(p, s[i]);
  }

  /** A list without repetitions has as many distinct elements as positions. */
  lemma {:induction false} DistinctCardinality<T>(s: seq<T>)
    requires Distinct(s)
    ensures |set k | 0 <= k < |s| :: s[k]| == |s|
  {
    if s != [] {
      var p := s[..|s| - 1];
      assert Distinct(p);
      DistinctCardinality(p);
      var sp := set k | 0 <= k < |p| :: p[k];
      var ss := set k | 0 <= k < |s| :: s[k];
      assert ss == sp + {s[|s| - 1]};
      assert s[|s| - 1] !in sp;
    }
  }

  /** Consecutive elements of r first occur in s in increasing positions. */
  ghost predicate OrderedByFirstIndex<T>(r: seq<T>, s: seq<T>) {
    forall i, j :: 0 <= i < j < |r| ==> IndexOf(s, r[i]) < IndexOf(s, r[j])
  }

  /** The inductive step of FirstOccurrencesOrder: appending one element to the input. */
  lemma OrderAfterAppend<T>(rp: seq<T>, p: seq<T>, y: T)
    requires forall i :: 0 <= i < |rp| ==> rp[i] in p
    requires OrderedByFirstIndex(rp, p)
    requires y in rp ==> y in p
    requires y !in rp ==> y !in p
    ensures OrderedByFirstIndex(if y in rp then rp else rp + [y], p + [y])
  {
    var s := p + [y];
    var r := if y in rp then rp else rp + [y];
    forall i, j | 0 <= i < j < |r| ensures IndexOf(s, r[i]) < IndexOf(s, r[j]) {
      assert r[i] == rp[i];
      IndexOfAppend(p, y, rp[i]);
      if j < |rp| {
        assert r[j] == rp[j];
        IndexOfAppend(p, y, rp[j]);
      } else {
        IndexOfAppendNew(p, y);
      }
    }
  }

  /** Two sequences without repetitions and without common elements concatenate to one. */
  lemma DistinctConcat<T>(a: seq<T>, b: seq<T>)
    requires Distinct(a) && Distinct(b)
    requires forall i, j :: 0 <= i < |a| && 0 <= j < |b| ==> a[i] != b[j]
    ensures Distinct(a + b)
  {
    var s := a + b;
    forall i, j | 0 <= i < j < |s| ensures s[i] != s[j] {
      if j < |a| {
        assert s[i] == a[i] && s[j] == a[j];
      } else if i < |a| {
        assert s[i] == a[i] && s[j] == b[j - |a|];
      } else {
        assert s[i] == b[i - |a|] && s[j] == b[j - |a|];
      }
    }
  }

  /** Concatenation regrouped; names the step for the solver where the grouping matters. */
  lemma AppendAssociative<T>(a: seq<T>, b: seq<T>, c: seq<T>)
    ensures a + (b + c) == (a + b) + c
  {
  }
}
