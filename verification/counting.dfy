/** Occurrence counting over sequences and the cursor arithmetic shared by the
    two round-robin strategies. */
module Counting {

  /** Number of occurrences of `x` in `s`. */
  function Count<T(==)>(s: seq<T>, x: T): nat
  {
    if |s| == 0 then 0
    else Count(s[..|s| - 1], x) + (if s[|s| - 1] == x then 1 else 0)
  }

  lemma {:induction false} CountAppend<T>(a: seq<T>, b: seq<T>, x: T)
    ensures Count(a + b, x) == Count(a, x) + Count(b, x)
    decreases |b|
  {
    if |b| == 0 {
      assert a + b == a;
    } else {
      var b' := b[..|b| - 1];
      assert (a + b)[..|a + b| - 1] == a + b';
      CountAppend(a, b', x);
    }
  }

  lemma CountSnoc<T>(s: seq<T>, y: T, x: T)
    ensures Count(s + [y], x) == Count(s, x) + (if y == x then 1 else 0)
  {
    assert (s + [y])[..|s|] == s;
  }

  /** `w` copies of `y`. */
  function Repeat<T>(y: T, w: nat): (s: seq<T>)
    ensures |s| == w && forall j :: 0 <= j < w ==> s[j] == y
  {
    if w == 0 then [] else Repeat(y, w - 1) + [y]
  }

  lemma {:induction false} CountRepeat<T>(y: T, w: nat, x: T)
    ensures Count(Repeat(y, w), x) == if y == x then w else 0
  {
    if w > 0 {
      assert Repeat(y, w)[..w - 1] == Repeat(y, w - 1);
      CountRepeat(y, w - 1, x);
    }
  }

  /** Stepping a cursor modulo `n` from `k mod n` lands on `(k+1) mod n`; a
      cursor already below `n` is its own remainder. */
  lemma ModSucc(k: nat, n: nat)
    requires 0 < n
    ensures (k % n + 1) % n == (k + 1) % n
    ensures k < n ==> k % n == k
  {
    if k < n {
      DivModUnique(k, n, 0, k);
    }
    var q, r := k / n, k % n;
    assert k == q * n + r;
    if r + 1 < n {
      DivModUnique(k + 1, n, q, r + 1);
    } else {
      assert k + 1 == (q + 1) * n;
      DivModUnique(k + 1, n, q + 1, 0);
    }
  }

  /** How `k/n` and `k mod n` move when `k` grows by one. */
  lemma DivModSucc(k: nat, n: nat)
    requires 0 < n
    ensures k % n + 1 < n ==> (k + 1) / n == k / n && (k + 1) % n == k % n + 1
    ensures k % n + 1 == n ==> (k + 1) / n == k / n + 1 && (k + 1) % n == 0
  {
    var q, r := k / n, k % n;
    assert k == q * n + r;
    if r + 1 < n {
      DivModUnique(k + 1, n, q, r + 1);
    } else {
      assert k + 1 == (q + 1) * n;
      DivModUnique(k + 1, n, q + 1, 0);
    }
  }

  lemma DivModUnique(a: nat, n: nat, q: nat, r: nat)
    requires 0 < n && r < n && a == q * n + r
    ensures a / n == q && a % n == r
  {
    var q', r' := a / n, a % n;
    assert a == q' * n + r';
    if q' < q {
      MulMono(q' + 1, q, n);
      assert false;
    } else if q < q' {
      MulMono(q + 1, q', n);
      assert false;
    }
  }

  lemma MulMono(x: nat, y: nat, n: nat)
    requires x <= y
    ensures x * n <= y * n
  {
  }
}
