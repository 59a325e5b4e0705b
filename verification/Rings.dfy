/** Rings shared with the kernel: cells in an array, and positions that only ever grow, kept modulo a power of two. */
module Rings {

  /** The cell of position p in a ring of n cells: what masking p picks. */
  function Slot(p: nat, n: nat): (slot: nat)
    requires n > 0
    ensures slot < n
  {
    p % n
  }

  /** The cells from position `at` on hold `live`. */
  ghost predicate Mirrors<T>(cells: seq<T>, at: nat, live: seq<T>) {
    && |live| <= |cells| && |cells| > 0
    && forall k :: 0 <= k < |live| ==> live[k] == cells[Slot(at + k, |cells|)]
  }

  lemma {:induction false} SlotOfMultiple(n: nat, k: nat, r: nat)
    requires n > 0
    ensures (n * k + r) % n == r % n
    decreases k
  {
    if k > 0 {
      SlotOfMultiple(n, k - 1, r);
      assert n * k + r == (n * (k - 1) + r) + n;
      OneRound(n * (k - 1) + r, n);
    }
  }

  lemma OneRound(p: nat, n: nat)
    requires n > 0
    ensures (p + n) % n == p % n
  {
    var q := p / n;
    assert p == n * q + p % n;
    assert p + n == n * (q + 1) + p % n;
    Remainder(p + n, n, q + 1, p % n);
  }

  /** Division with remainder is unique. */
  lemma Remainder(p: nat, n: nat, q: nat, r: nat)
    requires n > 0 && p == n * q + r && r < n
    ensures p % n == r && p / n == q
  {
    var d := p / n - q;
    assert n * d == r - p % n;
    assert d >= 1 ==> n * d >= n;
    assert d <= -1 ==> n * d + n <= 0;
  }

  /** Two positions less than w apart are the same position exactly when they agree modulo w. */
  lemma SamePlace(a: nat, b: nat, w: nat)
    requires w > 0 && a <= b < a + w
    ensures a % w == b % w <==> a == b
  {
    var d := b / w - a / w;
    assert b - a == w * d + (b % w - a % w);
    assert d >= 1 ==> w * d >= w;
    assert d <= -1 ==> w * d + w <= 0;
  }

  /** The next position after a full one keeps its cell apart from those of the live ones. */
  lemma Apart(at: nat, k: nat, m: nat, n: nat)
    requires k < m < n
    ensures Slot(at + k, n) != Slot(at + m, n)
  {
    SamePlace(at + k, at + m, n);
  }

  lemma CellAt<T>(cells: seq<T>, at: nat, live: seq<T>, k: nat)
    requires Mirrors(cells, at, live) && k < |live|
    ensures live[k] == cells[Slot(at + k, |cells|)]
  {
  }

  lemma Pushed<T>(cells: seq<T>, at: nat, live: seq<T>, x: T)
    requires Mirrors(cells, at, live) && |live| < |cells|
    ensures Mirrors(cells[Slot(at + |live|, |cells|) := x], at, live + [x])
  {
    var next := cells[Slot(at + |live|, |cells|) := x];
    forall k | 0 <= k < |live| + 1
      ensures (live + [x])[k] == next[Slot(at + k, |next|)]
    {
      if k < |live| {
        Apart(at, k, |live|, |cells|);
      }
    }
  }

  lemma Pulled<T>(cells: seq<T>, at: nat, live: seq<T>)
    requires Mirrors(cells, at, live) && live != []
    ensures Mirrors(cells, at + 1, live[1..]) && live[0] == cells[Slot(at, |cells|)]
  {
    forall k | 0 <= k < |live[1..]|
      ensures live[1..][k] == cells[Slot(at + 1 + k, |cells|)]
    {
      assert live[1..][k] == live[k + 1] == cells[Slot(at + (k + 1), |cells|)];
    }
    assert live[0] == cells[Slot(at + 0, |cells|)];
  }

  /** A ring of n cells goes round a whole number of times before its positions wrap. */
  ghost predicate Divides(n: nat, rounds: nat, wrap: nat) {
    n > 0 && rounds > 1 && n * rounds == wrap
  }

  /** `kept` is position p in 32 bits, wrapped `laps` times so far. */
  ghost predicate Kept32(kept: nat, laps: nat, p: nat) {
    kept < 0x1_0000_0000 && p == laps * 0x1_0000_0000 + kept
  }

  ghost predicate Kept16(kept: nat, laps: nat, p: nat) {
    kept < 0x1_0000 && p == laps * 0x1_0000 + kept
  }

  /** Adding one in 32 bits. */
  function Next32(kept: nat): nat {
    if kept == 0xFFFF_FFFF then 0 else kept + 1
  }

  function Next16(kept: nat): nat {
    if kept == 0xFFFF then 0 else kept + 1
  }

  /** A kept position picks its own cell. */
  lemma Picks32(kept: nat, laps: nat, p: nat, n: nat, rounds: nat)
    requires Kept32(kept, laps, p) && Divides(n, rounds, 0x1_0000_0000)
    ensures Slot(kept, n) == Slot(p, n)
  {
    Picks(kept, laps, p, n, rounds, 0x1_0000_0000);
  }

  lemma Picks16(kept: nat, laps: nat, p: nat, n: nat, rounds: nat)
    requires Kept16(kept, laps, p) && Divides(n, rounds, 0x1_0000)
    ensures Slot(kept, n) == Slot(p, n)
  {
    Picks(kept, laps, p, n, rounds, 0x1_0000);
  }

  lemma Picks(kept: nat, laps: nat, p: nat, n: nat, rounds: nat, wrap: nat)
    requires p == laps * wrap + kept && Divides(n, rounds, wrap)
    ensures Slot(kept, n) == Slot(p, n)
  {
    assert laps * wrap == n * (rounds * laps);
    SlotOfMultiple(n, rounds * laps, kept);
  }

  /** Kept positions tell apart positions no further from each other than the ring is long. */
  lemma Tells32(a: nat, la: nat, p: nat, b: nat, lb: nat, q: nat, n: nat, rounds: nat)
    requires Kept32(a, la, p) && Kept32(b, lb, q) && Divides(n, rounds, 0x1_0000_0000) && p <= q <= p + n
    ensures a == b <==> p == q
  {
    assert n * rounds >= n * 2;
  }
}
