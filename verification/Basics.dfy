/** Small shared vocabulary: optional values and counting over sequences. */
module Basics {

  datatype Option<+T> = None | Some(value: T)

  function Max(a: int, b: int): (m: int)
    ensures m >= a && m >= b && (m == a || m == b)
  {
    if a >= b then a else b
  }

  function Ceil(x: real): (n: int)
    ensures x <= n as real < x + 1.0
  {
    -((-x).Floor)
  }

  function Get<K, V>(m: map<K, V>, k: K, default: V): V {
    if k in m then m[k] else default
  }

  lemma Reassociate<T>(a: seq<T>, b: seq<T>, c: seq<T>)
    ensures a + (b + c) == (a + b) + c
  {
  }

  /** How many elements of `q` satisfy `f`. */
  function Count<T>(q: seq<T>, f: T -> bool): (n: nat)
    ensures n <= |q|
  {
    if q == [] then 0
    else Count(q[..|q| - 1], f) + (if f(q[|q| - 1]) then 1 else 0)
  }

  lemma {:induction false} CountConcat<T>(a: seq<T>, b: seq<T>, f: T -> bool)
    ensures Count(a + b, f) == Count(a, f) + Count(b, f)
  {
    if b == [] {
      assert a + b == a;
    } else {
      assert (a + b)[..|a + b| - 1] == a + b[..|b| - 1];
      CountConcat(a, b[..|b| - 1], f);
    }
  }

  function Without<T>(q: seq<T>, k: nat): (r: seq<T>)
    requires k < |q|
    ensures |r| == |q| - 1
  {
    q[..k] + q[k + 1..]
  }

  lemma {:induction false} CountWithout<T>(q: seq<T>, k: nat, f: T -> bool)
    requires k < |q|
    ensures Count(q, f) == Count(Without(q, k), f) + (if f(q[k]) then 1 else 0)
  {
    var front := q[..|q| - 1];
    if k == |q| - 1 {
      assert Without(q, k) == front;
    } else {
      CountWithout(front, k, f);
      assert Without(q, k)[..|q| - 2] == Without(front, k);
    }
  }

  /** Pointwise implication bounds one count by another. */
  lemma {:induction false} CountMono<T>(q: seq<T>, f: T -> bool, r: seq<T>, g: T -> bool)
    requires |q| == |r|
    requires forall i :: 0 <= i < |q| && f(q[i]) ==> g(r[i])
    ensures Count(q, f) <= Count(r, g)
  {
    if q == [] {
    } else {
      CountMono(q[..|q| - 1], f, r[..|r| - 1], g);
    }
  }

  lemma {:induction false} CountZero<T>(q: seq<T>, f: T -> bool)
    requires forall i :: 0 <= i < |q| ==> !f(q[i])
    ensures Count(q, f) == 0
  {
    if q == [] {
    } else {
      CountZero(q[..|q| - 1], f);
    }
  }

  /** Sum of the weights of the elements of `q`. */
  function Weigh<T>(q: seq<T>, f: T -> int): int {
    if q == [] then 0 else Weigh(q[..|q| - 1], f) + f(q[|q| - 1])
  }

  lemma WeighAppend<T>(q: seq<T>, x: T, f: T -> int)
    ensures Weigh(q + [x], f) == Weigh(q, f) + f(x)
  {
    assert (q + [x])[..|q|] == q;
  }

  lemma {:induction false} WeighWithout<T>(q: seq<T>, k: nat, f: T -> int)
    requires k < |q|
    ensures Weigh(q, f) == Weigh(Without(q, k), f) + f(q[k])
  {
    var front := q[..|q| - 1];
    if k == |q| - 1 {
      assert Without(q, k) == front;
    } else {
      WeighWithout(front, k, f);
      assert Without(q, k)[..|q| - 2] == Without(front, k);
    }
  }

  lemma {:induction false} WeighUpdate<T>(q: seq<T>, k: nat, x: T, f: T -> int)
    requires k < |q|
    ensures Weigh(q[k := x], f) == Weigh(q, f) - f(q[k]) + f(x)
  {
    var front := q[..|q| - 1];
    if k == |q| - 1 {
      assert q[k := x][..|q| - 1] == front;
    } else {
      WeighUpdate(front, k, x, f);
      assert q[k := x][..|q| - 1] == front[k := x];
    }
  }

  /** Pointwise order of weights carries over to the sums. */
  lemma {:induction false} WeighMono<T>(q: seq<T>, f: T -> int, g: T -> int)
    requires forall i :: 0 <= i < |q| ==> f(q[i]) <= g(q[i])
    ensures Weigh(q, f) <= Weigh(q, g)
  {
    if q == [] {
    } else {
      WeighMono(q[..|q| - 1], f, g);
    }
  }

  lemma {:induction false} WeighNonNegative<T>(q: seq<T>, f: T -> int)
    requires forall i :: 0 <= i < |q| ==> f(q[i]) >= 0
    ensures Weigh(q, f) >= 0
  {
    if q == [] {
    } else {
      WeighNonNegative(q[..|q| - 1], f);
    }
  }

  lemma {:induction false} WeighZero<T>(q: seq<T>, f: T -> int)
    requires forall i :: 0 <= i < |q| ==> f(q[i]) == 0
    ensures Weigh(q, f) == 0
  {
    if q == [] {
    } else {
      WeighZero(q[..|q| - 1], f);
    }
  }

  lemma WeighSame<T>(q: seq<T>, f: T -> int, g: T -> int)
    requires forall i :: 0 <= i < |q| ==> f(q[i]) == g(q[i])
    ensures Weigh(q, f) == Weigh(q, g)
  {
    WeighMono(q, f, g);
    WeighMono(q, g, f);
  }

  /** The elements of `q` that satisfy `f`, in order. */
  function Filter<T(!new)>(q: seq<T>, f: T -> bool): (r: seq<T>)
    ensures forall x :: x in r <==> x in q && f(x)
    ensures |r| <= |q|
  {
    if q == [] then [] else (if f(q[0]) then [q[0]] else []) + Filter(q[1..], f)
  }

  lemma {:induction false} FilterSame<T(!new)>(q: seq<T>, f: T -> bool, g: T -> bool)
    requires forall x :: x in q ==> f(x) == g(x)
    ensures Filter(q, f) == Filter(q, g)
  {
    if q == [] {
    } else {
      FilterSame(q[1..], f, g);
    }
  }

  lemma {:induction false} FilterNone<T(!new)>(q: seq<T>, f: T -> bool)
    requires forall x :: x in q ==> !f(x)
    ensures Filter(q, f) == []
  {
    if q == [] {
    } else {
      FilterNone(q[1..], f);
    }
  }

  predicate NoRepeats<T(==)>(q: seq<T>) {
    forall i, j :: 0 <= i < j < |q| ==> q[i] != q[j]
  }

  lemma {:induction false} CountedOnce<T>(q: seq<T>, x: T)
    requires NoRepeats(q)
    ensures multiset(q)[x] <= 1
  {
    if q == [] {
    } else {
      var front := q[..|q| - 1];
      CountedOnce(front, x);
      assert q == front + [q[|q| - 1]];
    }
  }

  lemma CountedTwice<T>(q: seq<T>, i: nat, j: nat)
    requires i < j < |q| && q[i] == q[j]
    ensures multiset(q)[q[i]] >= 2
  {
    assert q == q[..j] + q[j..];
    assert q[..j][i] in multiset(q[..j]) && q[j..][0] in multiset(q[j..]);
  }

  lemma PermutationKeepsDistinct<T>(a: seq<T>, b: seq<T>)
    requires multiset(a) == multiset(b) && NoRepeats(b)
    ensures NoRepeats(a)
  {
    forall i, j | 0 <= i < j < |a|
      ensures a[i] != a[j]
    {
      CountedOnce(b, a[i]);
      if a[i] == a[j] {
        CountedTwice(a, i, j);
      }
    }
  }

  lemma {:induction false} FilterAll<T(!new)>(q: seq<T>, f: T -> bool)
    requires forall x :: x in q ==> f(x)
    ensures Filter(q, f) == q
  {
    if q == [] {
    } else {
      FilterAll(q[1..], f);
      assert q == [q[0]] + q[1..];
    }
  }

  lemma {:induction false} FilterConcat<T(!new)>(a: seq<T>, b: seq<T>, f: T -> bool)
    ensures Filter(a + b, f) == Filter(a, f) + Filter(b, f)
  {
    if a == [] {
      assert a + b == b;
    } else {
      var head := if f(a[0]) then [a[0]] else [];
      FilterConcat(a[1..], b, f);
      assert (a + b)[1..] == a[1..] + b;
      Reassociate(head, Filter(a[1..], f), Filter(b, f));
    }
  }

  // ---- Strings in the order of their characters ----

  predicate StringBefore(a: string, b: string) {
    b != "" && (a == "" || a[0] < b[0] || (a[0] == b[0] && StringBefore(a[1..], b[1..])))
  }

  /** `a` is a proper beginning of `b`, or smaller at the first character where they differ. */
  predicate Precedes(a: string, b: string) {
    exists n: nat :: n <= |a| && n <= |b| && a[..n] == b[..n] && n < |b| && (n == |a| || a[n] < b[n])
  }

  lemma {:induction false} StringsCompare(a: string, b: string)
    ensures StringBefore(a, b) <==> Precedes(a, b)
  {
    if a != [] && b != [] && a[0] == b[0] {
      StringsCompare(a[1..], b[1..]);
      if Precedes(a[1..], b[1..]) {
        var n: nat :| n <= |a[1..]| && n <= |b[1..]| && a[1..][..n] == b[1..][..n] && n < |b[1..]| && (n == |a[1..]| || a[1..][n] < b[1..][n]);
        PrefixGrows(a, b, n);
      }
      if Precedes(a, b) {
        var n: nat :| n <= |a| && n <= |b| && a[..n] == b[..n] && n < |b| && (n == |a| || a[n] < b[n]);
        assert n > 0;
        assert a[1..][..n - 1] == a[..n][1..] == b[..n][1..] == b[1..][..n - 1];
      }
    } else if b != [] {
      assert a[..0] == b[..0];
      if Precedes(a, b) && a != [] {
        var n: nat :| n <= |a| && n <= |b| && a[..n] == b[..n] && n < |b| && (n == |a| || a[n] < b[n]);
        if n > 0 {
          FirstsAgree(a, b, n);
        }
      }
    }
  }

  lemma FirstsAgree(a: string, b: string, n: nat)
    requires 0 < n <= |a| && n <= |b| && a[..n] == b[..n]
    ensures a[0] == b[0]
  {
    assert a[..n][0] == b[..n][0];
  }

  lemma PrefixGrows(a: string, b: string, n: nat)
    requires a != [] && b != [] && a[0] == b[0] && n < |b| - 1 && n <= |a| - 1 && a[1..][..n] == b[1..][..n]
    requires n == |a| - 1 || a[1..][n] < b[1..][n]
    ensures Precedes(a, b)
  {
    assert a[..n + 1] == [a[0]] + a[1..][..n] && b[..n + 1] == [b[0]] + b[1..][..n];
  }

  lemma {:induction false} StringsChain(a: string, b: string, c: string)
    ensures StringBefore(a, b) ==> !StringBefore(b, a)
    ensures !StringBefore(b, a) && StringBefore(b, c) ==> !StringBefore(c, a)
  {
    if a != "" && b != "" && c != "" {
      StringsChain(a[1..], b[1..], c[1..]);
    } else if a != "" && b != "" {
      StringsChain(a[1..], b[1..], "");
    }
  }

  lemma {:induction false} StringsTransitive(a: string, b: string, c: string)
    requires StringBefore(a, b) && StringBefore(b, c)
    ensures StringBefore(a, c)
  {
    if a != "" && a[0] == b[0] && b[0] == c[0] {
      StringsTransitive(a[1..], b[1..], c[1..]);
    }
  }
}
