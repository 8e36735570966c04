// Sequence vocabulary shared by the models.
module Seqs {

  function Last<T>(s: seq<T>): T
    requires s != []
  {
    s[|s| - 1]
  }

  // All elements of all members of ss, in order.
  function Flatten<T>(ss: seq<seq<T>>): seq<T> {
    if ss == [] then [] else Flatten(ss[..|ss| - 1]) + Last(ss)
  }

  lemma FlattenAppend<T>(ss: seq<seq<T>>, s: seq<T>)
    ensures Flatten(ss + [s]) == Flatten(ss) + s
  {
    assert (ss + [s])[..|ss|] == ss;
  }

  lemma {:induction false} FlattenConcat<T>(a: seq<seq<T>>, b: seq<seq<T>>)
    ensures Flatten(a + b) == Flatten(a) + Flatten(b)
  {
    if b == [] {
      assert a + b == a;
    } else {
      assert (a + b)[..|a + b| - 1] == a + b[..|b| - 1];
      FlattenConcat(a, b[..|b| - 1]);
    }
  }

  // The elements of a occur in b in this order.
  ghost predicate Subseq<T>(a: seq<T>, b: seq<T>)
    decreases b
  {
    a == [] || (b != [] && ((a[0] == b[0] && Subseq(a[1..], b[1..])) || Subseq(a, b[1..])))
  }

  lemma {:induction false} SubseqSkip<T>(c: seq<T>, a: seq<T>, b: seq<T>)
    requires Subseq(a, b)
    ensures Subseq(a, c + b)
    decreases c
  {
    if c == [] {
      assert c + b == b;
    } else {
      assert (c + b)[1..] == c[1..] + b;
      SubseqSkip(c[1..], a, b);
    }
  }

  lemma {:induction false} SubseqBoth<T>(c: seq<T>, a: seq<T>, b: seq<T>)
    requires Subseq(a, b)
    ensures Subseq(c + a, c + b)
    decreases c
  {
    if c == [] {
      assert c + a == a && c + b == b;
    } else {
      assert (c + a)[1..] == c[1..] + a && (c + b)[1..] == c[1..] + b;
      SubseqBoth(c[1..], a, b);
    }
  }

  lemma {:induction false} SubseqWiden<T>(a: seq<T>, b: seq<T>, c: seq<T>)
    requires Subseq(a, b)
    ensures Subseq(a, b + c)
    decreases b
  {
    if a != [] {
      assert (b + c)[1..] == b[1..] + c;
      if a[0] == b[0] && Subseq(a[1..], b[1..]) {
        SubseqWiden(a[1..], b[1..], c);
      } else {
        SubseqWiden(a, b[1..], c);
      }
    }
  }

  lemma {:induction false} SubseqAppend<T>(a: seq<T>, b: seq<T>, x: T)
    requires Subseq(a, b)
    ensures Subseq(a + [x], b + [x])
    decreases b
  {
    if a == [] {
      SubseqSkip(b, [x], [x]);
      assert [] + [x] == [x];
    } else {
      assert (a + [x])[1..] == a[1..] + [x] && (b + [x])[1..] == b[1..] + [x];
      if a[0] == b[0] && Subseq(a[1..], b[1..]) {
        SubseqAppend(a[1..], b[1..], x);
      } else {
        SubseqAppend(a, b[1..], x);
      }
    }
  }

  // The same by positions: the k-th element of a stands at position at[k] of b.
  ghost predicate Picks<T>(at: seq<nat>, a: seq<T>, b: seq<T>) {
    && |at| == |a|
    && (forall i, j :: 0 <= i < j < |at| ==> at[i] < at[j])
    && (forall i :: 0 <= i < |at| ==> at[i] < |b| && b[at[i]] == a[i])
  }

  function Shift(at: seq<nat>, d: int): seq<nat>
    requires forall i :: 0 <= i < |at| ==> at[i] + d >= 0
  {
    seq(|at|, i requires 0 <= i < |at| => at[i] + d)
  }

  lemma {:induction false} SubseqHasPositions<T>(a: seq<T>, b: seq<T>) returns (at: seq<nat>)
    requires Subseq(a, b)
    ensures Picks(at, a, b)
    decreases b
  {
    if a == [] {
      at := [];
    } else if a[0] == b[0] && Subseq(a[1..], b[1..]) {
      var rest := SubseqHasPositions(a[1..], b[1..]);
      at := [0] + Shift(rest, 1);
    } else {
      var rest := SubseqHasPositions(a, b[1..]);
      at := Shift(rest, 1);
    }
  }

  lemma {:induction false} PositionsMakeSubseq<T>(at: seq<nat>, a: seq<T>, b: seq<T>)
    requires Picks(at, a, b)
    ensures Subseq(a, b)
    decreases b
  {
    if a != [] {
      if at[0] == 0 {
        PositionsMakeSubseq(Shift(at[1..], -1), a[1..], b[1..]);
      } else {
        PositionsMakeSubseq(Shift(at, -1), a, b[1..]);
      }
    }
  }

  lemma SubseqIff<T>(a: seq<T>, b: seq<T>)
    ensures Subseq(a, b) <==> exists at :: Picks(at, a, b)
  {
    if Subseq(a, b) {
      var at := SubseqHasPositions(a, b);
    }
    if at :| Picks(at, a, b) {
      PositionsMakeSubseq(at, a, b);
    }
  }

  lemma SubseqOfPrefix<T>(a: seq<T>, b: seq<T>, whole: seq<T>)
    requires Subseq(a, b) && b <= whole
    ensures Subseq(a, whole)
  {
    SubseqWiden(a, b, whole[|b|..]);
    assert b + whole[|b|..] == whole;
  }

  ghost predicate Distinct<T>(s: seq<T>) {
    forall i, j :: 0 <= i < j < |s| ==> s[i] != s[j]
  }

  lemma ConcatAssociates<T>(a: seq<T>, b: seq<T>, c: seq<T>)
    ensures a + (b + c) == (a + b) + c
  {
  }

  lemma Extend<T>(a: seq<T>, b: seq<T>, x: T)
    ensures a + (b + [x]) == (a + b) + [x]
  {
  }

  lemma MultisetAppend<T>(s: seq<T>, x: T)
    ensures multiset(s + [x]) == multiset(s) + multiset{x}
  {
  }
}
