/** List idioms the pipeline uses: flattening with `extend` and "the first index that matches". */
module Sequences {
  import opened Wrappers

  /** The concatenation of a list of lists, as a loop of `extend` calls builds it. */
  function Concat<T>(ss: seq<seq<T>>): seq<T>
    decreases |ss|
  {
    if ss == [] then [] else Concat(ss[..|ss| - 1]) + ss[|ss| - 1]
  }

  lemma {:induction false} ConcatAppend<T>(a: seq<seq<T>>, b: seq<seq<T>>)
    ensures Concat(a + b) == Concat(a) + Concat(b)
    decreases |b|
  {
    if b == [] {
      assert a + b == a;
    } else {
      var init := b[..|b| - 1];
      assert a + b == (a + init) + [b[|b| - 1]];
      ConcatAppend(a, init);
    }
  }

  /** Appending is associative; a log that grows by appending needs it at every step. */
  lemma AppendAssoc<T>(a: seq<T>, b: seq<T>, c: seq<T>)
    ensures (a + b) + c == a + (b + c)
  {
  }

  lemma ConcatOne<T>(x: seq<T>)
    ensures Concat([x]) == x
  {
    assert [x][..0] == [];
  }

  /** The total length of a list of lists. */
  function TotalLength<T>(ss: seq<seq<T>>): nat
    decreases |ss|
  {
    if ss == [] then 0 else TotalLength(ss[..|ss| - 1]) + |ss[|ss| - 1]|
  }

  lemma {:induction false} ConcatLength<T>(ss: seq<seq<T>>)
    ensures |Concat(ss)| == TotalLength(ss)
    decreases |ss|
  {
    if ss != [] {
      ConcatLength(ss[..|ss| - 1]);
    }
  }

  /**
   * The first index `k` in `[from, n)` with `p(k)`: what a `for` loop that
   * returns (or breaks) at its first hit finds, or None when it runs out.
   */
  function FirstWhere(n: nat, p: nat -> bool, from: nat): (r: Option<nat>)
    requires from <= n
    ensures r.Some? ==> from <= r.value < n && p(r.value)
    ensures r.Some? ==> forall j :: from <= j < r.value ==> !p(j)
    ensures r.None? ==> forall j :: from <= j < n ==> !p(j)
    decreases n - from
  {
    if from == n then None
    else if p(from) then Some(from)
    else FirstWhere(n, p, from + 1)
  }

  /** The first hit is `k` when `p(k)` holds and nothing before it matches. */
  lemma {:induction false} FirstWhereIs(n: nat, p: nat -> bool, from: nat, k: nat)
    requires from <= k < n && p(k)
    requires forall j :: from <= j < k ==> !p(j)
    ensures FirstWhere(n, p, from) == Some(k)
    decreases k - from
  {
    if from < k {
      FirstWhereIs(n, p, from + 1, k);
    }
  }

  /** There is no hit when nothing in `[from, n)` matches. */
  lemma {:induction false} FirstWhereNone(n: nat, p: nat -> bool, from: nat)
    requires from <= n
    requires forall j :: from <= j < n ==> !p(j)
    ensures FirstWhere(n, p, from) == None
    decreases n - from
  {
    if from < n {
      FirstWhereNone(n, p, from + 1);
    }
  }

  /** The first hit depends only on which indexes match. */
  lemma {:induction false} FirstWhereSame(n: nat, p: nat -> bool, q: nat -> bool, from: nat)
    requires from <= n
    requires forall k :: from <= k < n ==> p(k) == q(k)
    ensures FirstWhere(n, p, from) == FirstWhere(n, q, from)
    decreases n - from
  {
    if from < n {
      FirstWhereSame(n, p, q, from + 1);
    }
  }
}
