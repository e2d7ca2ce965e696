/** The scan cursor shared by the switch-access screens: every tick moves
    the highlighted position one step forward, wrapping to the start
    (`(prev + 1) % length`). */
module ScanCycle {

  function NextIndex(i: int, n: int): (r: int)
    requires n > 0
    ensures 0 <= r < n
  {
    (i + 1) % n
  }

  /** The index after `k` ticks from `i`. */
  function AfterTicks(i: int, n: int, k: nat): int
    requires n > 0
  {
    if k == 0 then i else NextIndex(AfterTicks(i, n, k - 1), n)
  }

  /** A tick from an in-range index is the successor, with the last position wrapping to 0. */
  lemma NextIndexStep(i: int, n: int)
    requires 0 <= i < n
    ensures NextIndex(i, n) == if i == n - 1 then 0 else i + 1
  {
  }

  /** Euclidean division is unique: any quotient/remainder pair in range is the one `%` gives. */
  lemma {:induction false} ModUnique(a: int, n: int, q: int, r: int)
    requires n > 0 && a == q * n + r && 0 <= r < n
    ensures a % n == r
  {
    var q', r' := a / n, a % n;
    assert a == q' * n + r';
    assert (q - q') * n == r' - r;
    if q > q' {
      MulAtLeast(q - q', n);
      assert false;
    } else if q < q' {
      MulAtLeast(q' - q, n);
      assert false;
    }
  }

  lemma MulAtLeast(d: int, n: int)
    requires d >= 1 && n > 0
    ensures d * n >= n
  {
  }

  /** Starting from 0, `k` ticks land on `k mod n`: the scan visits every item in order and
      comes back to the first after exactly `n` ticks. */
  lemma {:induction false} AfterTicksFromZero(n: int, k: nat)
    requires n > 0
    ensures AfterTicks(0, n, k) == k % n
  {
    if k == 0 {
      ModUnique(0, n, 0, 0);
    } else {
      AfterTicksFromZero(n, k - 1);
      var q, p := (k - 1) / n, (k - 1) % n;
      assert k - 1 == q * n + p;
      NextIndexStep(p, n);
      if p == n - 1 {
        assert k == (q + 1) * n + 0;
        ModUnique(k, n, q + 1, 0);
      } else {
        ModUnique(k, n, q, p + 1);
      }
    }
  }

  /** A full round of `n` ticks returns to the starting item. */
  lemma FullRound(n: int)
    requires n > 0
    ensures AfterTicks(0, n, n) == 0
  {
    AfterTicksFromZero(n, n);
  }
}
