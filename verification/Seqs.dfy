/** Small vocabulary shared by the components: options, flattening and reversal. */
module Seqs {

  datatype Option<+T> = None | Some(value: T)

  lemma Assoc<T>(a: seq<T>, b: seq<T>, c: seq<T>)
    ensures a + (b + c) == a + b + c
  {
  }

  /** s lists the values of f from 0 on. */
  predicate ByIndex<T(==)>(s: seq<T>, f: nat -> T)
  {
    forall i :: 0 <= i < |s| ==> s[i] == f(i)
  }

  lemma NextByIndex<T>(s: seq<T>, f: nat -> T)
    requires ByIndex(s, f)
    ensures ByIndex(s + [f(|s|)], f)
  {
  }

  /** What each next element keeps, any continuation keeps. */
  lemma {:induction false} KeptBy<E(!new), T>(holds: seq<E> -> bool, value: seq<E> -> T, s: seq<E>, more: seq<E>)
    requires holds(s) && forall r, e :: holds(r) ==> holds(r + [e]) && value(r + [e]) == value(r)
    ensures holds(s + more) && value(s + more) == value(s)
  {
    if more == [] {
      assert s + more == s;
    } else {
      KeptBy(holds, value, s, more[..|more| - 1]);
      assert s + more == s + more[..|more| - 1] + [more[|more| - 1]];
    }
  }

  /** Running a concatenation is running its parts one after the other. */
  lemma {:induction false} RunConcat<S(!new), E(!new)>(run: (S, seq<E>) -> S, step: (S, E) -> S, s: S, a: seq<E>, b: seq<E>)
    requires forall x :: run(x, []) == x
    requires forall x, es, e :: run(x, es + [e]) == step(run(x, es), e)
    ensures run(s, a + b) == run(run(s, a), b)
  {
    if b == [] {
      assert a + b == a;
    } else {
      var c, e := b[..|b| - 1], b[|b| - 1];
      RunConcat(run, step, s, a, c);
      assert a + b == a + c + [e] && b == c + [e];
    }
  }

  /** Concatenation of a sequence of sequences, in order. */
  function Flatten<T>(ss: seq<seq<T>>): seq<T>
  {
    if ss == [] then [] else ss[0] + Flatten(ss[1..])
  }

  lemma {:induction false} FlattenConcat<T>(a: seq<seq<T>>, b: seq<seq<T>>)
    ensures Flatten(a + b) == Flatten(a) + Flatten(b)
  {
    if a == [] {
      assert a + b == b;
    } else {
      assert (a + b)[1..] == a[1..] + b;
      FlattenConcat(a[1..], b);
    }
  }

  lemma FlattenSnoc<T>(a: seq<seq<T>>, x: seq<T>)
    ensures Flatten(a + [x]) == Flatten(a) + x
  {
    FlattenConcat(a, [x]);
    assert Flatten([x]) == x + Flatten([]);
  }

  /** s read from its last element to its first. */
  function Reversed<T>(s: seq<T>): seq<T>
  {
    seq(|s|, k requires 0 <= k < |s| => s[|s| - 1 - k])
  }

  lemma ReversedCons<T>(x: T, s: seq<T>)
    ensures Reversed([x] + s) == Reversed(s) + [x]
  {
  }

  lemma ReversedSnoc<T>(s: seq<T>, x: T)
    ensures Reversed(s + [x]) == [x] + Reversed(s)
  {
  }
}
