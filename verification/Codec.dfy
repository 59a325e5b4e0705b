/** Strings in a datagram: a 16-bit length in the sender's byte order, the bytes, and the final NUL the length counts. */
module Codec {
  import opened Wrappers

  const MAX_STRING_LENGTH: nat := 65535
  const WRAP16: nat := 0x1_0000

  datatype Order = Little | Big

  /** A decoded string, and the cursor after it. */
  datatype Text = Text(str: seq<Byte>, next: nat)

  function U16(n: nat, order: Order): (bytes: seq<Byte>)
    requires n < WRAP16
    ensures |bytes| == 2
  {
    if order == Little then [n % 256, n / 256] else [n / 256, n % 256]
  }

  function FromU16(bytes: seq<Byte>, order: Order): (n: nat)
    requires |bytes| == 2
    ensures n < WRAP16
  {
    if order == Little then bytes[0] as nat + 256 * (bytes[1] as nat) else bytes[1] as nat + 256 * (bytes[0] as nat)
  }

  /** _tt_bswap_16(). */
  function Swapped(n: nat): (m: nat)
    requires n < WRAP16
    ensures m < WRAP16
  {
    n % 256 * 256 + n / 256
  }

  lemma SwapReadsOther(bytes: seq<Byte>)
    requires |bytes| == 2
    ensures Swapped(FromU16(bytes, Little)) == FromU16(bytes, Big)
    ensures Swapped(FromU16(bytes, Big)) == FromU16(bytes, Little)
  {
  }

  lemma U16RoundTrip(n: nat, order: Order)
    requires n < WRAP16
    ensures FromU16(U16(n, order), order) == n
  {
  }

  // ---- What the bytes are

  /** How much of a string is sent: its bytes up to the limit, and the byte that follows them. */
  function Sent(s: seq<Byte>): seq<Byte> {
    if |s| < MAX_STRING_LENGTH then s + [0]
    else s[..MAX_STRING_LENGTH] + [if |s| > MAX_STRING_LENGTH then s[MAX_STRING_LENGTH] else 0]
  }

  function Encoded(s: seq<Byte>, order: Order): seq<Byte> {
    U16(|Sent(s)| % WRAP16, order) + Sent(s)
  }

  /** tt_decode_string() on bytes[head..tail], whose length is in `order`: the string's bytes and the cursor after it. */
  function Decoded(bytes: seq<Byte>, head: nat, tail: nat, order: Order): Option<Text>
    requires tail <= |bytes|
  {
    if head + 2 > tail then None else
    var n := FromU16(bytes[head..head + 2], order);
    if head + 2 + n > tail || n == 0 || bytes[head + 2 + n - 1] != 0 then None
    else Some(Text(bytes[head + 2..head + 2 + n - 1], head + 2 + n))
  }

  /** What lies at a cursor: a length, then the bytes that were sent. */
  lemma Laid(bytes: seq<Byte>, head: nat, s: seq<Byte>, order: Order)
    requires head + |Encoded(s, order)| <= |bytes| && bytes[head..head + |Encoded(s, order)|] == Encoded(s, order)
    ensures |Encoded(s, order)| == 2 + |Sent(s)|
    ensures FromU16(bytes[head..head + 2], order) == |Sent(s)| % WRAP16
    ensures bytes[head + 2..head + 2 + |Sent(s)|] == Sent(s)
  {
    var e := Encoded(s, order);
    assert bytes[head..head + 2] == e[..2] == U16(|Sent(s)| % WRAP16, order);
    assert bytes[head + 2..head + 2 + |Sent(s)|] == e[2..] == Sent(s);
    U16RoundTrip(|Sent(s)| % WRAP16, order);
  }

  lemma ShortDecodes(bytes: seq<Byte>, head: nat, tail: nat, s: seq<Byte>, order: Order)
    requires head + 2 + |s| + 1 <= tail <= |bytes| && |s| + 1 < WRAP16
    requires FromU16(bytes[head..head + 2], order) == |s| + 1 && bytes[head + 2..head + 2 + (|s| + 1)] == s + [0]
    ensures Decoded(bytes, head, tail, order) == Some(Text(s, head + 2 + |s| + 1))
  {
    var body := bytes[head + 2..head + 2 + (|s| + 1)];
    assert bytes[head + 2 + |s|] == body[|s|] == (s + [0])[|s|];
    assert bytes[head + 2..head + 2 + |s|] == body[..|s|] == s;
  }

  /** Whatever surrounds it, an encoded string decodes to itself and advances by its own length - if that fits 16 bits. */
  lemma RoundTrip(bytes: seq<Byte>, head: nat, tail: nat, s: seq<Byte>, order: Order)
    requires head + |Encoded(s, order)| <= tail <= |bytes|
    requires bytes[head..head + |Encoded(s, order)|] == Encoded(s, order)
    ensures Decoded(bytes, head, tail, order)
         == if |s| < MAX_STRING_LENGTH then Some(Text(s, head + |Encoded(s, order)|)) else None
  {
    Laid(bytes, head, s, order);
    if |s| < MAX_STRING_LENGTH {
      ShortDecodes(bytes, head, tail, s, order);
    } else {
      assert |Sent(s)| == WRAP16;
    }
  }

  /** Nothing is accepted without its final NUL, nor past the tail. */
  lemma DecodedEndsInNul(bytes: seq<Byte>, head: nat, tail: nat, order: Order)
    requires tail <= |bytes|
    ensures var d := Decoded(bytes, head, tail, order);
            d.Some? ==> head + 2 < d.value.next <= tail && bytes[d.value.next - 1] == 0
                        && d.value.str == bytes[head + 2..d.value.next - 1]
  {
  }

  // ---- The functions themselves

  function Overwritten(b: seq<Byte>, at: nat, bytes: seq<Byte>): seq<Byte>
    requires at + |bytes| <= |b|
  {
    b[..at] + bytes + b[at + |bytes|..]
  }

  /** Two writes, one right after the other, are one. */
  lemma OverwrittenTwice(b: seq<Byte>, at: nat, x: seq<Byte>, y: seq<Byte>)
    requires at + |x| + |y| <= |b|
    ensures Overwritten(Overwritten(b, at, x), at + |x|, y) == Overwritten(b, at, x + y)
  {
  }

  /** memcpy() into a buffer at a cursor. */
  method CopyIn(buffer: array<Byte>, at: nat, bytes: seq<Byte>)
    requires at + |bytes| <= buffer.Length
    modifies buffer
    ensures buffer[..] == Overwritten(old(buffer[..]), at, bytes)
  {
    forall i | 0 <= i < |bytes| {
      buffer[at + i] := bytes[i];
    }
  }

  /**
   tt_encode_string(): fails, having written nothing, for no string or when the encoding would not leave one byte of the
   buffer free; otherwise the encoding is at the cursor and the cursor past it.
   */
  method EncodeString(buffer: array<Byte>, tail: nat, size: nat, str: Option<seq<Byte>>, native: Order)
    returns (ok: bool, newTail: nat)
    requires size <= buffer.Length
    modifies buffer
    ensures ok <==> str.Some? && tail + |Encoded(str.value, native)| < size
    ensures !ok ==> newTail == tail && buffer[..] == old(buffer[..])
    ensures ok ==> newTail == tail + |Encoded(str.value, native)|
                   && buffer[..] == Overwritten(old(buffer[..]), tail, Encoded(str.value, native))
  {
    if str.None? {
      return false, tail;
    }
    var sent := Sent(str.value);
    if tail + 2 + |sent| >= size {
      return false, tail;
    }
    OverwrittenTwice(buffer[..], tail, U16(|sent| % WRAP16, native), sent);
    CopyIn(buffer, tail, U16(|sent| % WRAP16, native));
    CopyIn(buffer, tail + 2, sent);
    return true, tail + 2 + |sent|;
  }

  /** tt_decode_string(): the length read in this machine's order, swapped for a sender of the other. */
  method DecodeString(buffer: array<Byte>, head: nat, tail: nat, native: Order, reverse: bool)
    returns (str: Option<seq<Byte>>, newHead: nat)
    requires tail <= buffer.Length
    ensures var d := Decoded(buffer[..], head, tail, if reverse then Other(native) else native);
            if d.Some? then str == Some(d.value.str) && newHead == d.value.next else str == None
  {
    if head + 2 > tail {
      return None, head;
    }
    var raw := FromU16(buffer[head..head + 2], native);
    SwapReadsOther(buffer[head..head + 2]);
    var n := if reverse then Swapped(raw) else raw;
    assert buffer[..][head..head + 2] == buffer[head..head + 2];
    newHead := head + 2;
    if newHead + n > tail {
      return None, newHead;
    }
    if n == 0 || buffer[newHead + n - 1] != 0 {
      return None, newHead;
    }
    str := Some(buffer[newHead..newHead + n - 1]);
    newHead := newHead + n;
  }

  function Other(order: Order): Order {
    if order == Little then Big else Little
  }
}
