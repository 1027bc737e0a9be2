/** Bytes, and the few definitions and facts about sequences that several models share. */
module Bytes {
  newtype byte = x: int | 0 <= x < 256

  datatype Option<T> = None | Some(value: T)

  function Min(a: nat, b: nat): nat {
    if a <= b then a else b
  }

  predicate NoDup<T(==)>(q: seq<T>) {
    forall i, j :: 0 <= i < j < |q| ==> q[i] != q[j]
  }

  lemma RemoveNoDup(q: seq<nat>, n: nat, q': seq<nat>)
    requires n < |q| && NoDup(q) && q' == q[..n] + q[n + 1..]
    ensures NoDup(q') && |q'| + 1 == |q| && (forall x :: x in q' ==> x in q && x != q[n])
    ensures forall x :: x in q && x != q[n] ==> x in q'
  {
    assert q == q[..n] + [q[n]] + q[n + 1..];
    forall i | 0 <= i < |q'| ensures q'[i] == q[if i < n then i else i + 1] {
    }
    forall i, j | 0 <= i < j < |q'| ensures q'[i] != q'[j] {
      assert q'[i] == q[if i < n then i else i + 1] && q'[j] == q[if j < n then j else j + 1];
    }
  }

  /** A duplicate-free list of numbers below n has at most n elements. */
  lemma {:induction false} Pigeonhole(q: seq<nat>, n: nat)
    requires NoDup(q) && forall x :: x in q ==> x < n
    ensures |q| <= n
  {
    assert q != [] ==> q[0] in q;
    if n == 0 {
    } else if n - 1 in q {
      var i :| 0 <= i < |q| && q[i] == n - 1;
      var rest := q[..i] + q[i + 1..];
      RemoveNoDup(q, i, rest);
      Pigeonhole(rest, n - 1);
    } else {
      Pigeonhole(q, n - 1);
    }
  }

  function Sum(s: seq<nat>): nat {
    if s == [] then 0 else s[0] + Sum(s[1..])
  }

  lemma {:induction false} SumUpdate(s: seq<nat>, i: nat, v: nat)
    requires i < |s|
    ensures Sum(s[i := v]) == Sum(s) - s[i] + v
  {
    if i == 0 {
      assert s[0 := v] == [v] + s[1..];
    } else {
      SumUpdate(s[1..], i - 1, v);
      assert s[i := v][1..] == s[1..][i - 1 := v];
    }
  }

  lemma {:induction false} SumBound(s: seq<nat>, bound: nat)
    requires forall i :: 0 <= i < |s| ==> s[i] <= bound
    ensures Sum(s) <= |s| * bound
  {
    if s == [] {
    } else {
      SumBound(s[1..], bound);
      assert |s| * bound == bound + (|s| - 1) * bound;
    }
  }

  lemma {:induction false} SumZero(n: nat)
    ensures Sum(seq(n, _ => 0)) == 0
  {
    if n == 0 {
    } else {
      SumZero(n - 1);
      assert seq(n, _ => 0)[1..] == seq(n - 1, _ => 0);
    }
  }

  lemma Extended<T>(s: seq<T>, j: nat)
    requires j < |s|
    ensures s[..j] + [s[j]] == s[..j + 1] && s[..|s|] == s
  {
  }

  lemma Assoc<T>(a: seq<T>, b: seq<T>, c: seq<T>)
    ensures (a + b) + c == a + (b + c)
  {
  }

  lemma DropPrefix<T>(a: seq<T>, b: seq<T>, k: nat)
    requires k <= |a|
    ensures (a + b)[k..] == a[k..] + b
  {
  }

  function Flatten<T>(parts: seq<seq<T>>): seq<T> {
    if parts == [] then [] else parts[0] + Flatten(parts[1..])
  }

  lemma {:induction false} FlattenAppend<T>(a: seq<seq<T>>, b: seq<seq<T>>)
    ensures Flatten(a + b) == Flatten(a) + Flatten(b)
  {
    if a == [] {
      assert a + b == b;
    } else {
      FlattenAppend(a[1..], b);
      assert (a + b)[1..] == a[1..] + b && (a + b)[0] == a[0];
      Assoc(a[0], Flatten(a[1..]), Flatten(b));
    }
  }

  lemma FlattenOne<T>(part: seq<T>)
    ensures Flatten([part]) == part
  {
    assert Flatten([part]) == part + Flatten([]);
  }

  lemma {:induction false} FlattenEmpty<T>(parts: seq<seq<T>>)
    requires forall i :: 0 <= i < |parts| ==> parts[i] == []
    ensures Flatten(parts) == []
  {
    if parts == [] {
    } else {
      FlattenEmpty(parts[1..]);
    }
  }

  /** `_buffer_size_count`: the number of chunks the constructor creates. */
  function PoolSize(bufferSize: nat, elemSize: nat): nat
    requires elemSize > 0
  {
    bufferSize / elemSize + (if bufferSize % elemSize != 0 then 1 else 0)
  }

  /** The pool covers the configured size and is less than one chunk larger. */
  lemma PoolFits(bufferSize: nat, elemSize: nat)
    requires elemSize > 0
    ensures bufferSize <= PoolSize(bufferSize, elemSize) * elemSize < bufferSize + elemSize
  {
    var q, r := bufferSize / elemSize, bufferSize % elemSize;
    assert bufferSize == q * elemSize + r;
    assert (q + 1) * elemSize == q * elemSize + elemSize;
  }
}
