/**
 The aimed read: one recvmsg() scattered over the caller's buffer and the place core hinted, so that the run core expects
 lands where it belongs. Whatever arrives, core sees either that run in place or what a plain read would have left.
 */
module DirectRead {
  import opened Wrappers

  const WRAP32: nat := 0x1_0000_0000

  /** Core's hint: the run's framing to the byte but for its count, and how many bytes may go to the hinted place. */
  datatype Hint = Hint(framing: seq<Byte>, countAt: nat, unit: nat, bytes: nat)

  /** The count lies within the framing. */
  predicate WellAimed(h: Hint) {
    h.countAt + 2 <= |h.framing|
  }

  /** The 16-bit count in a framing, in this machine's order (little-endian). */
  function CountIn(bytes: seq<Byte>, at: nat): nat
    requires at + 2 <= |bytes|
  {
    bytes[at] as nat + 256 * (bytes[at + 1] as nat)
  }

  function PayloadOf(h: Hint, bytes: seq<Byte>): nat
    requires h.countAt + 2 <= |bytes|
  {
    CountIn(bytes, h.countAt) * h.unit % WRAP32
  }

  /** A datagram that is the hinted run, or a shorter one of the same sample from the same place. */
  predicate IsHintedRun(h: Hint, d: seq<Byte>)
    requires WellAimed(h)
  {
    var n := |h.framing|;
    && |d| >= n && CountIn(d, h.countAt) != 0
    && PayloadOf(h, d) <= h.bytes && |d| == n + PayloadOf(h, d)
    && d[..h.countAt] == h.framing[..h.countAt] && d[h.countAt + 2..n] == h.framing[h.countAt + 2..]
  }

  function Min(a: nat, b: nat): nat {
    if a < b then a else b
  }

  /** What recvmsg() reads of a datagram into `len` bytes. */
  function CutTo(d: seq<Byte>, len: nat): seq<Byte> {
    d[..Min(|d|, len)]
  }

  /** What a plain recvmsg() leaves in a buffer: the datagram, cut to the buffer, and the rest as it was. */
  function PlainRead(before: seq<Byte>, d: seq<Byte>): seq<Byte> {
    CutTo(d, |before|) + before[Min(|d|, |before|)..]
  }

  /** recvmsg() into one piece. */
  method Recvmsg(buf: array<Byte>, d: seq<Byte>) returns (got: nat)
    modifies buf
    ensures buf[..] == PlainRead(old(buf[..]), d) && got == Min(|d|, buf.Length)
  {
    got := Min(|d|, buf.Length);
    forall i | 0 <= i < got {
      buf[i] := d[i];
    }
  }

  /** A datagram lies scattered: up to n and from n + m on in the buffer, what is between in the other place. */
  ghost predicate Scattered(buf0: seq<Byte>, dest0: seq<Byte>, d: seq<Byte>, n: nat, m: nat,
                            buf: seq<Byte>, dest: seq<Byte>)
  {
    && |buf| == |buf0| && |dest| == |dest0|
    && (forall i :: 0 <= i < |buf| ==> buf[i] == if i < |d| && (i < n || n + m <= i) then d[i] else buf0[i])
    && (forall i :: 0 <= i < |dest| ==> dest[i] == if n + i < Min(|d|, |buf|) && i < m then d[n + i] else dest0[i])
  }

  /** recvmsg() into three pieces: buf up to n, dest up to m, buf from n + m on. */
  method Scatter(buf: array<Byte>, dest: array<Byte>, d: seq<Byte>, n: nat, m: nat) returns (got: nat)
    requires buf != dest && n + m <= buf.Length && m <= dest.Length
    modifies buf, dest
    ensures got == Min(|d|, buf.Length)
    ensures Scattered(old(buf[..]), old(dest[..]), d, n, m, buf[..], dest[..])
  {
    got := Min(|d|, buf.Length);
    forall i | 0 <= i < got && (i < n || n + m <= i) {
      buf[i] := d[i];
    }
    forall i | 0 <= i < m && n + i < got {
      dest[i] := d[n + i];
    }
  }

  /** direct_is_hinted_run(): the test on what the read left in the buffer is the test of the datagram it read. */
  method IsHinted(h: Hint, buf: array<Byte>, got: nat, ghost d: seq<Byte>) returns (yes: bool)
    requires WellAimed(h) && |h.framing| + h.bytes <= buf.Length && got == |d|
    requires forall i :: 0 <= i < |h.framing| && i < |d| ==> buf[i] == d[i]
    ensures yes <==> IsHintedRun(h, d)
  {
    SameFraming(h, d, buf[..]);
    var count := buf[h.countAt] as nat + 256 * (buf[h.countAt + 1] as nat);
    var payload := count * h.unit % WRAP32;
    yes := count != 0 && payload <= h.bytes && got == |h.framing| + payload
           && buf[..h.countAt] == h.framing[..h.countAt]
           && buf[h.countAt + 2..|h.framing|] == h.framing[h.countAt + 2..];
  }

  /** The hinted run as it lies: its framing in the buffer, its payload in the hinted place, nothing past it touched. */
  ghost predicate InPlace(n: nat, buf0: seq<Byte>, dest0: seq<Byte>, d: seq<Byte>, buf: seq<Byte>, dest: seq<Byte>) {
    && n <= |d| <= n + |dest| && n <= |buf| == |buf0| && |dest| == |dest0|
    && buf[..n] == d[..n] && buf[n..] == buf0[n..]
    && dest[..|d| - n] == d[n..] && dest[|d| - n..] == dest0[|d| - n..]
  }

  lemma RunInPlace(buf0: seq<Byte>, dest0: seq<Byte>, d: seq<Byte>, n: nat, m: nat, buf: seq<Byte>, dest: seq<Byte>)
    requires Scattered(buf0, dest0, d, n, m, buf, dest) && n <= |CutTo(d, |buf|)| <= n + m <= |buf| && m <= |dest|
    ensures InPlace(n, buf0, dest0, CutTo(d, |buf|), buf, dest)
  {
  }

  /** The test made on the buffer is the test of the datagram read. */
  lemma SameFraming(h: Hint, d: seq<Byte>, buf: seq<Byte>)
    requires WellAimed(h) && |h.framing| + h.bytes <= |buf|
    requires forall i :: 0 <= i < |h.framing| && i < |d| ==> buf[i] == d[i]
    ensures IsHintedRun(h, d) <==>
            && CountIn(buf, h.countAt) != 0 && PayloadOf(h, buf) <= h.bytes && |d| == |h.framing| + PayloadOf(h, buf)
            && buf[..h.countAt] == h.framing[..h.countAt]
            && buf[h.countAt + 2..|h.framing|] == h.framing[h.countAt + 2..]
  {
    var n := |h.framing|;
    if |d| >= n {
      assert buf[h.countAt] == d[h.countAt] && buf[h.countAt + 1] == d[h.countAt + 1];
      assert buf[..h.countAt] == d[..h.countAt] && buf[h.countAt + 2..n] == d[h.countAt + 2..n];
    }
  }

  /** The bytes that went to the other place copied back: the buffer is what a plain read leaves. */
  method PutBack(buf: array<Byte>, dest: array<Byte>, n: nat, m: nat, got: nat,
                 ghost buf0: seq<Byte>, ghost dest0: seq<Byte>, ghost d: seq<Byte>)
    requires Scattered(buf0, dest0, d, n, m, buf[..], dest[..]) && got == Min(|d|, buf.Length)
    requires n + m <= buf.Length && m <= dest.Length && buf != dest
    modifies buf
    ensures buf[..] == PlainRead(buf0, d)
  {
    if got > n {
      var back := Min(got - n, m);
      forall i | 0 <= i < back {
        buf[n + i] := dest[i];
      }
      assert forall i :: 0 <= i < back ==> dest[..][i] == d[n + i];
      assert forall i :: n <= i < n + back ==> buf[i] == dest[i - n];
    }
  }

  /**
   direct_recvmsg(): `h.bytes` is direct_bytes as loaded before the read and `after` as loaded after it, `merged` whether
   UDP_GRO's size came with the read. Split exactly when what was read is the hinted run and the hint still stands;
   otherwise the buffer is what a plain read would have left, and the hinted place is written within the hint at most.
   */
  method DirectRecvmsg(h: Hint, after: nat, merged: bool, buf: array<Byte>, dest: array<Byte>, d: seq<Byte>)
    returns (got: nat, split: bool)
    requires WellAimed(h) && buf != dest && h.bytes <= dest.Length
    modifies buf, dest
    ensures got == Min(|d|, buf.Length)
    ensures split <==> && h.bytes != 0 && |h.framing| + h.bytes <= buf.Length && !merged && after == h.bytes
                       && IsHintedRun(h, CutTo(d, buf.Length))
    ensures split ==> InPlace(|h.framing|, old(buf[..]), old(dest[..]), CutTo(d, buf.Length), buf[..], dest[..])
    ensures !split ==> buf[..] == PlainRead(old(buf[..]), d)
    ensures dest[h.bytes..] == old(dest[h.bytes..])
  {
    var n := |h.framing|;
    if h.bytes == 0 || buf.Length < n + h.bytes {
      got := Recvmsg(buf, d);
      return got, false;
    }
    got := Scatter(buf, dest, d, n, h.bytes);
    var run := IsHinted(h, buf, got, CutTo(d, buf.Length));
    if !merged && run && after == h.bytes {
      RunInPlace(old(buf[..]), old(dest[..]), d, n, h.bytes, buf[..], dest[..]);
      return got, true;
    }
    PutBack(buf, dest, n, h.bytes, got, old(buf[..]), old(dest[..]), d);
    return got, false;
  }
}
