/** The SetBool response on the wire: a flag, a byte of padding, the message, and zeros to a multiple of four. */
module SetBool {
  import opened Wrappers
  import opened Codec

  /** `message`: None for NULL. */
  datatype Response = Response(success: bool, message: Option<seq<Byte>>)

  const CUT: int := -1
  const BAD: int := -2
  const MISSING: int := -3

  /** How many zeros bring n to a multiple of four: the low two bits of -n. */
  function Pad(n: nat): (p: nat)
    ensures p < 4 && (n + p) % 4 == 0
  {
    (4 - n % 4) % 4
  }

  function Zeros(n: nat): seq<Byte> {
    seq(n, _ => 0)
  }

  /** The message and the zeros after it, at offset 2. */
  function MessagePart(message: seq<Byte>, order: Order): seq<Byte>
    requires |message| + 1 <= MAX_STRING_LENGTH
  {
    U16(|message| + 1, order) + (message + [0]) + Zeros(Pad(4 + (|message| + 1)))
  }

  function Flag(success: bool): seq<Byte> {
    [if success then 1 else 0]
  }

  /** The response's wire form, its message short enough to send. */
  function Wire(d: Response, order: Order): seq<Byte>
    requires d.message.Some? && |d.message.value| + 1 <= MAX_STRING_LENGTH
  {
    Flag(d.success) + [0] + MessagePart(d.message.value, order)
  }

  /** What encoding answers: the wire form's length, or the error - whichever is met first in `len` bytes. */
  function Answer(d: Response, len: nat, order: Order): int {
    if len < 2 then CUT
    else if d.message.None? then MISSING
    else if |d.message.value| + 1 > MAX_STRING_LENGTH then BAD
    else if len < |Wire(d, order)| then CUT
    else |Wire(d, order)|
  }

  /** SetBoolResponse_encode_size(): the wire form's length, whatever the byte order, or why there is none. */
  method EncodeSize(d: Response) returns (size: int)
    ensures if d.message.None? then size == MISSING
            else if |d.message.value| + 1 > MAX_STRING_LENGTH then size == BAD
            else size == |Wire(d, Little)| == |Wire(d, Big)|
  {
    size := 2;
    if d.message.None? {
      return MISSING;
    }
    if |d.message.value| + 1 > MAX_STRING_LENGTH {
      return BAD;
    }
    size := size + 2 + |d.message.value| + 1;
    size := size + Pad(size);
  }

  /** The message's part of SetBoolResponse_encode(), from offset 2 on. */
  method EncodeMessage(message: seq<Byte>, payload: array<Byte>, native: Order) returns (r: int)
    requires |message| + 1 <= MAX_STRING_LENGTH && payload.Length >= 2
    modifies payload
    ensures r == if payload.Length < 2 + |MessagePart(message, native)| then CUT else 2 + |MessagePart(message, native)|
    ensures r >= 0 ==> payload[..] == Overwritten(old(payload[..]), 2, MessagePart(message, native))
  {
    ghost var before := payload[..];
    var n := |message| + 1;
    if payload.Length < 4 {
      return CUT;
    }
    CopyIn(payload, 2, U16(n, native));
    if payload.Length < 4 + n {
      return CUT;
    }
    CopyIn(payload, 4, message + [0]);
    var pad := Pad(4 + n);
    if payload.Length < 4 + n + pad {
      return CUT;
    }
    OverwrittenTwice(before, 2, U16(n, native), message + [0]);
    OverwrittenTwice(before, 2, U16(n, native) + (message + [0]), Zeros(pad));
    CopyIn(payload, 4 + n, Zeros(pad));
    r := 4 + n + pad;
  }

  /** SetBoolResponse_encode(): the wire form in this machine's byte order at the start of the payload. */
  method Encode(d: Response, payload: array<Byte>, native: Order) returns (r: int)
    modifies payload
    ensures r == Answer(d, payload.Length, native)
    ensures r >= 0 ==> payload[..] == Overwritten(old(payload[..]), 0, Wire(d, native))
  {
    ghost var before := payload[..];
    if payload.Length < 1 {
      return CUT;
    }
    CopyIn(payload, 0, Flag(d.success));
    if payload.Length < 2 {
      return CUT;
    }
    CopyIn(payload, 1, [0]);
    if d.message.None? {
      return MISSING;
    }
    if |d.message.value| + 1 > MAX_STRING_LENGTH {
      return BAD;
    }
    r := EncodeMessage(d.message.value, payload, native);
    if r >= 0 {
      OverwrittenTwice(before, 0, Flag(d.success), [0]);
      OverwrittenTwice(before, 0, Flag(d.success) + [0], MessagePart(d.message.value, native));
    }
  }

  /** What decoding answers: the response and the bytes it took, or the error. */
  datatype Parsed = Ok(response: Response, taken: nat) | Err(code: int)

  function Parse(bytes: seq<Byte>, order: Order): Parsed {
    if |bytes| < 4 then Err(CUT) else
    var n := FromU16(bytes[2..4], order);
    if n == 0 then Err(BAD)
    else if |bytes| < 4 + n then Err(CUT)
    else if bytes[4 + n - 1] != 0 then Err(BAD)
    else if |bytes| < 4 + n + Pad(4 + n) then Err(CUT)
    else Ok(Response(bytes[0] != 0, Some(bytes[4..4 + n - 1])), 4 + n + Pad(4 + n))
  }

  /** SetBoolResponse_decode(). */
  method Decode(payload: array<Byte>, native: Order, isNative: bool) returns (p: Parsed)
    ensures p == Parse(payload[..], if isNative then native else Other(native))
  {
    if payload.Length < 4 {
      return Err(CUT);
    }
    var success := payload[0] != 0;
    var n := FromU16(payload[2..4], native);
    assert payload[..][2..4] == payload[2..4];
    SwapReadsOther(payload[2..4]);
    if !isNative {
      n := Swapped(n);
    }
    if n == 0 {
      return Err(BAD);
    }
    if payload.Length < 4 + n {
      return Err(CUT);
    }
    if payload[4 + n - 1] != 0 {
      return Err(BAD);
    }
    var decoded := 4 + n + Pad(4 + n);
    if payload.Length < decoded {
      return Err(CUT);
    }
    assert payload[..][4..4 + n - 1] == payload[4..4 + n - 1];
    return Ok(Response(success, Some(payload[4..4 + n - 1])), decoded);
  }

  /** A response sent in either byte order is received as it was sent, and takes exactly its wire form. */
  lemma RoundTrip(d: Response, bytes: seq<Byte>, order: Order)
    requires d.message.Some? && |d.message.value| + 1 <= MAX_STRING_LENGTH
    requires |Wire(d, order)| <= |bytes| && bytes[..|Wire(d, order)|] == Wire(d, order)
    ensures Parse(bytes, order) == Ok(d, |Wire(d, order)|)
  {
    var w, n := Wire(d, order), |d.message.value| + 1;
    assert forall i :: 0 <= i < |w| ==> bytes[i] == w[i];
    assert bytes[2..4] == U16(n, order);
    U16RoundTrip(n, order);
    assert w[4 + n - 1] == 0;
    assert bytes[4..4 + n - 1] == d.message.value;
  }

  /** What is accepted ends in a NUL, lies within the payload, and takes a multiple of four bytes. */
  lemma AcceptedIsTerminated(bytes: seq<Byte>, order: Order)
    ensures var p := Parse(bytes, order);
            p.Ok? ==>
              && p.taken <= |bytes| && p.taken % 4 == 0 && p.response.message.Some?
              && var end := 4 + |p.response.message.value|;
                 end < p.taken && bytes[end] == 0 && bytes[4..end] == p.response.message.value
  {
  }
}
