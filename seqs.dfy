/**
  Sequence vocabulary shared by the model: concatenation of a list of lists,
  filtering, first-occurrence lookup (`list.index`), consecutive batches and
  duplicate removal that keeps first occurrences.
*/
module Seqs {

  function Min(a: int, b: int): int
  {
    if a < b then a else b
  }

  /** Extending a slice by one element. */
  lemma SliceSnoc<T>(s: seq<T>, f: nat, j: nat)
    requires f <= j < |s|
    ensures s[f..j + 1] == s[f..j] + [s[j]]
  {
  }

  /** Concatenation of a list of lists, as `itertools.chain.from_iterable` yields it. */
  function Flatten<T>(ss: seq<seq<T>>): seq<T>
  {
    if ss == [] then [] else ss[0] + Flatten(ss[1..])
  }

  lemma {:induction false} FlattenAppend<T>(a: seq<seq<T>>, b: seq<seq<T>>)
    ensures Flatten(a + b) == Flatten(a) + Flatten(b)
  {
    if a == [] {
      assert a + b == b;
    } else {
      assert (a + b)[1..] == a[1..] + b;
      FlattenAppend(a[1..], b);
    }
  }

  /** `a` is obtained from `b` by deleting zero or more elements. */
  predicate IsSubsequence<T(==)>(a: seq<T>, b: seq<T>)
    decreases |b|
  {
    a == [] ||
    (b != [] && ((a[0] == b[0] && IsSubsequence(a[1..], b[1..])) || IsSubsequence(a, b[1..])))
  }

  /** The elements of `s` that satisfy `p`, in their order in `s`. */
  function Filter<T(!new)>(s: seq<T>, p: T -> bool): (r: seq<T>)
    ensures |r| <= |s|
  {
    if s == [] then [] else (if p(s[0]) then [s[0]] else []) + Filter(s[1..], p)
  }

  /** The filtered list holds exactly the elements of `s` that satisfy `p`. */
  lemma {:induction false} FilterMembers<T(!new)>(s: seq<T>, p: T -> bool)
    ensures forall x :: x in Filter(s, p) <==> x in s && p(x)
  {
    if s != [] {
      FilterMembers(s[1..], p);
      assert s == [s[0]] + s[1..];
    }
  }

  lemma {:induction false} FilterAppend<T(!new)>(a: seq<T>, b: seq<T>, p: T -> bool)
    ensures Filter(a + b, p) == Filter(a, p) + Filter(b, p)
  {
    if a == [] {
      assert a + b == b;
    } else {
      var head := if p(a[0]) then [a[0]] else [];
      assert (a + b)[0] == a[0] && (a + b)[1..] == a[1..] + b;
      assert Filter(a + b, p) == head + Filter(a[1..] + b, p);
      assert Filter(a, p) == head + Filter(a[1..], p);
      FilterAppend(a[1..], b, p);
    }
  }

  lemma {:induction false} FilterIsSubsequence<T(!new)>(s: seq<T>, p: T -> bool)
    ensures IsSubsequence(Filter(s, p), s)
  {
    if s != [] {
      FilterIsSubsequence(s[1..], p);
      if p(s[0]) {
        assert Filter(s, p) == [s[0]] + Filter(s[1..], p);
        assert Filter(s, p)[1..] == Filter(s[1..], p);
      } else {
        assert Filter(s, p) == Filter(s[1..], p);
      }
    }
  }

  /** Position of the first occurrence of `x` in `s`, or `|s|` when it does not occur. */
  function IndexOf<T(==)>(s: seq<T>, x: T): (i: nat)
    ensures i <= |s|
    ensures i < |s| <==> x in s
    ensures i < |s| ==> s[i] == x
  {
    if s == [] then 0 else if s[0] == x then 0 else 1 + IndexOf(s[1..], x)
  }

  /** No earlier element is `x`. */
  lemma {:induction false} IndexOfFirst<T>(s: seq<T>, x: T)
    ensures forall j | 0 <= j < IndexOf(s, x) :: s[j] != x
  {
    if s != [] && s[0] != x {
      IndexOfFirst(s[1..], x);
    }
  }

  lemma IndexOfDistinct<T>(s: seq<T>, k: nat)
    requires NoDuplicates(s) && k < |s|
    ensures IndexOf(s, s[k]) == k
  {
    IndexOfFirst(s, s[k]);
  }

  lemma IndexOfAppend<T>(a: seq<T>, b: seq<T>, x: T)
    requires x in a
    ensures IndexOf(a + b, x) == IndexOf(a, x)
  {
    IndexOfFirst(a + b, x);
    IndexOfFirst(a, x);
    assert (a + b)[IndexOf(a, x)] == x;
  }

  predicate NoDuplicates<T(==)>(s: seq<T>)
  {
    forall i, j | 0 <= i < j < |s| :: s[i] != s[j]
  }

  /** How many times `x` occurs in `s`. */
  function Count<T(==)>(s: seq<T>, x: T): nat
  {
    if s == [] then 0 else (if s[0] == x then 1 else 0) + Count(s[1..], x)
  }

  lemma {:induction false} CountAppend<T>(a: seq<T>, b: seq<T>, x: T)
    ensures Count(a + b, x) == Count(a, x) + Count(b, x)
  {
    if a == [] {
      assert a + b == b;
    } else {
      assert (a + b)[1..] == a[1..] + b;
      CountAppend(a[1..], b, x);
    }
  }

  /** The count is the multiplicity of `x` in the multiset of `s`. */
  lemma {:induction false} CountIsMultiplicity<T>(s: seq<T>, x: T)
    ensures Count(s, x) == multiset(s)[x]
  {
    if s != [] {
      CountIsMultiplicity(s[1..], x);
      assert s == [s[0]] + s[1..];
    }
  }

  /** `s` cut into consecutive batches of `n` elements. */
  function Chunks<T>(s: seq<T>, n: nat): seq<seq<T>>
    requires n > 0
    decreases |s|
  {
    if |s| <= n then
      (if s == [] then [] else [s])
    else
      [s[..n]] + Chunks(s[n..], n)
  }

  /**
    The batches, joined, give back `s`; no batch is empty or longer than `n`, and
    only the last may be shorter than `n`.
  */
  lemma {:induction false} ChunksPartition<T>(s: seq<T>, n: nat)
    requires n > 0
    ensures Flatten(Chunks(s, n)) == s
    ensures forall i | 0 <= i < |Chunks(s, n)| :: 0 < |Chunks(s, n)[i]| <= n
    ensures forall i | 0 <= i < |Chunks(s, n)| - 1 :: |Chunks(s, n)[i]| == n
    decreases |s|
  {
    if |s| > n {
      ChunksPartition(s[n..], n);
      var r := Chunks(s, n);
      assert r[1..] == Chunks(s[n..], n);
      assert s == s[..n] + s[n..];
    } else if s != [] {
      assert Chunks(s, n) == [s];
      assert Flatten([s]) == s + Flatten([]);
    }
  }

  lemma MulStep(c: nat, n: nat)
    requires c > 0
    ensures c * n == (c - 1) * n + n
    ensures (c - 1) * n >= 0
  {
  }

  lemma MinShift(a: int, b: int, n: int)
    ensures Min(a, b - n) + n == Min(a + n, b)
  {
  }

  /** There is a batch number `c` exactly when `c` full batches do not use up `s`. */
  lemma {:induction false} ChunkCount<T>(s: seq<T>, n: nat, c: nat)
    requires n > 0
    ensures c < |Chunks(s, n)| <==> c * n < |s|
  {
    if c > 0 {
      MulStep(c, n);
      if |s| > n {
        ChunkCount(s[n..], n, c - 1);
      }
    }
  }

  /** Batch `c` is the slice of `s` that starts at `c * n`. */
  lemma {:induction false} ChunkAt<T>(s: seq<T>, n: nat, c: nat)
    requires n > 0
    requires c < |Chunks(s, n)|
    ensures c * n < |s|
    ensures Chunks(s, n)[c] == s[c * n .. Min(c * n + n, |s|)]
  {
    ChunkCount(s, n, c);
    if c > 0 {
      MulStep(c, n);
      var k := (c - 1) * n;
      var rest := s[n..];
      assert |s| > n;
      assert Chunks(s, n) == [s[..n]] + Chunks(rest, n);
      ChunkAt(rest, n, c - 1);
      assert Chunks(s, n)[c] == Chunks(rest, n)[c - 1];
      var hi := Min(k + n, |rest|);
      MinShift(k + n, |s|, n);
      assert rest[k..hi] == s[k + n..hi + n];
    }
  }

  /** The list without the elements that already occurred earlier in it. */
  function Dedup<T(==)>(s: seq<T>): seq<T>
  {
    if s == [] then []
    else
      var d := Dedup(s[..|s| - 1]);
      var x := s[|s| - 1];
      if x in d then d else d + [x]
  }

  /** The result has no duplicates and holds exactly the elements of `s`. */
  lemma {:induction false} DedupMembers<T(!new)>(s: seq<T>)
    ensures NoDuplicates(Dedup(s))
    ensures forall x :: x in Dedup(s) <==> x in s
  {
    if s != [] {
      DedupMembers(s[..|s| - 1]);
      assert s == s[..|s| - 1] + [s[|s| - 1]];
    }
  }

  lemma {:induction false} DedupOfDistinct<T>(s: seq<T>)
    requires NoDuplicates(s)
    ensures Dedup(s) == s
  {
    if s != [] {
      DedupOfDistinct(s[..|s| - 1]);
      assert s == s[..|s| - 1] + [s[|s| - 1]];
    }
  }

  /** Removing duplicates from `a + b` begins with removing them from `a`. */
  lemma {:induction false} DedupPrefix<T>(a: seq<T>, b: seq<T>)
    ensures |Dedup(a)| <= |Dedup(a + b)|
    ensures Dedup(a + b)[..|Dedup(a)|] == Dedup(a)
  {
    if b == [] {
      assert a + b == a;
    } else {
      var b' := b[..|b| - 1];
      assert (a + b)[..|a + b| - 1] == a + b';
      DedupPrefix(a, b');
    }
  }

  /** Elements keep the relative order of their first occurrences. */
  lemma {:induction false} DedupKeepsFirstOccurrenceOrder<T(!new)>(s: seq<T>, x: T, y: T)
    requires x in s && y in s
    ensures IndexOf(Dedup(s), x) < IndexOf(Dedup(s), y) <==> IndexOf(s, x) < IndexOf(s, y)
  {
    var s' := s[..|s| - 1];
    var z := s[|s| - 1];
    var d' := Dedup(s');
    DedupMembers(s');
    assert s == s' + [z];
    if x in s' {
      IndexOfAppend(s', [z], x);
    }
    if y in s' {
      IndexOfAppend(s', [z], y);
    }
    if z in d' {
      DedupKeepsFirstOccurrenceOrder(s', x, y);
    } else {
      if x in d' {
        IndexOfAppend(d', [z], x);
      }
      if y in d' {
        IndexOfAppend(d', [z], y);
      }
      if x in s' && y in s' {
        DedupKeepsFirstOccurrenceOrder(s', x, y);
      }
    }
  }
}
