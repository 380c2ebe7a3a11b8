/** Euclidean division and circular indices, shared by the carousel, the
    cursor trail's ring buffer and the countdown's time arithmetic. */
module Arithmetic {

  /** A positive multiple of `n` is at least `n`. */
  lemma MultipleAtLeast(d: int, n: int)
    requires d >= 1 && n >= 0
    ensures d * n >= n
  {
    assert d * n == (d - 1) * n + n;
    assert (d - 1) * n >= 0;
  }

  /** Division with remainder is unique: writing `a` as `q * n + r` with
      `0 <= r < n` fixes both the quotient and the remainder. */
  lemma DivModUnique(a: int, n: int, q: int, r: int)
    requires 0 <= r < n && a == q * n + r
    ensures a / n == q && a % n == r
  {
    var q', r' := a / n, a % n;
    assert a == q' * n + r';
    assert (q - q') * n == q * n - q' * n;
    assert (q - q') * n == r' - r;
    if q > q' {
      MultipleAtLeast(q - q', n);
    } else if q < q' {
      assert (q' - q) * n == q' * n - q * n;
      MultipleAtLeast(q' - q, n);
    }
  }

  /** Index after `i` in a circular list of `n` entries: `(i + 1) % n`. */
  function NextIndex(i: nat, n: nat): (r: nat)
    requires i < n
    ensures r < n
    ensures i + 1 < n ==> r == i + 1
    ensures i + 1 == n ==> r == 0
  {
    (i + 1) % n
  }

  /** Index before `i` in a circular list of `n` entries: `(i - 1 + n) % n`. */
  function PrevIndex(i: nat, n: nat): (r: nat)
    requires i < n
    ensures r < n
    ensures i > 0 ==> r == i - 1
    ensures i == 0 ==> r == n - 1
    ensures n >= 2 ==> r != i
  {
    (i - 1 + n) % n
  }

  /** Going forward and back, or back and forward, returns to the same index. */
  lemma NextPrevInverse(i: nat, n: nat)
    requires i < n
    ensures PrevIndex(NextIndex(i, n), n) == i
    ensures NextIndex(PrevIndex(i, n), n) == i
  {
  }
}
