/** Order-preserving relations between sequences. */
module Seqs {

  /** `a` occurs in `b` in order, possibly with other elements interleaved. */
  predicate Subsequence<T(==)>(a: seq<T>, b: seq<T>)
    decreases |b|
  {
    if a == [] then true
    else if b == [] then false
    else if a[0] == b[0] then Subsequence(a[1..], b[1..])
    else Subsequence(a, b[1..])
  }

  predicate IsPrefix<T(==)>(a: seq<T>, b: seq<T>) {
    |a| <= |b| && b[..|a|] == a
  }

  lemma {:induction false} SubsequenceRefl<T>(a: seq<T>)
    ensures Subsequence(a, a)
  {
    if a != [] {
      SubsequenceRefl(a[1..]);
    }
  }

  /** Appending an element to the larger sequence only keeps the relation. */
  lemma {:induction false} SubsequenceExtend<T>(a: seq<T>, b: seq<T>, y: T)
    requires Subsequence(a, b)
    ensures Subsequence(a, b + [y])
    decreases |b|
  {
    if a != [] && b != [] {
      assert (b + [y])[0] == b[0] && (b + [y])[1..] == b[1..] + [y];
      SubsequenceExtend(if a[0] == b[0] then a[1..] else a, b[1..], y);
    }
  }

  /** Appending the same element to both sides keeps the relation. */
  lemma {:induction false} SubsequenceAppend<T>(a: seq<T>, b: seq<T>, x: T)
    requires Subsequence(a, b)
    ensures Subsequence(a + [x], b + [x])
    decreases |b|
  {
    if a == [] {
      assert a + [x] == [x];
      SubsequenceSingleton(b, x);
    } else {
      assert b != [];
      assert (a + [x])[0] == a[0] && (a + [x])[1..] == a[1..] + [x];
      assert (b + [x])[0] == b[0] && (b + [x])[1..] == b[1..] + [x];
      if a[0] == b[0] {
        SubsequenceAppend(a[1..], b[1..], x);
      } else {
        SubsequenceAppend(a, b[1..], x);
      }
    }
  }

  lemma {:induction false} SubsequenceSingleton<T>(b: seq<T>, x: T)
    ensures Subsequence([x], b + [x])
    decreases |b|
  {
    if b != [] {
      assert (b + [x])[1..] == b[1..] + [x];
      SubsequenceSingleton(b[1..], x);
    } else {
      assert [x][1..] == [];
    }
  }

  /** Dropping the head of the larger sequence may be undone. */
  lemma {:induction false} SubsequenceSkip<T>(a: seq<T>, b: seq<T>)
    requires b != [] && Subsequence(a, b[1..])
    ensures Subsequence(a, b)
    decreases |b|, 0
  {
    if a != [] && a[0] == b[0] {
      SubsequenceDropHead(a, b[1..]);
    }
  }

  /** Dropping the head of the smaller sequence keeps the relation. */
  lemma {:induction false} SubsequenceDropHead<T>(a: seq<T>, c: seq<T>)
    requires a != [] && Subsequence(a, c)
    ensures Subsequence(a[1..], c)
    decreases |c|, 1
  {
    assert c != [];
    if a[0] == c[0] {
      if a[1..] != [] {
        SubsequenceSkip(a[1..], c);
      }
    } else {
      SubsequenceDropHead(a, c[1..]);
      if a[1..] != [] {
        SubsequenceSkip(a[1..], c);
      }
    }
  }
}
