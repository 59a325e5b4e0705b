/**
 A merged read (UDP_GRO) handed out one datagram at a time: in place in the buffer it was read into, or copied to the
 start of the caller's buffer - which may be the very same one.
 */
module MergedRead {
  import opened Wrappers
  import opened Sequences
  import opened Rings

  /** A datagram handed out: where it lies in the caller's buffer. */
  datatype Slice = Slice(offset: nat, size: nat)

  /** How many datagrams `end` bytes cut at `segment` make: rounded up. */
  function Slices(end: nat, segment: nat): nat
    requires segment > 0
  {
    (end + segment - 1) / segment
  }

  /** Nothing is lost or added by the cut, and it has the number of slices gro_read() counts. */
  lemma {:induction false} CutExact(bytes: seq<Byte>, segment: nat)
    requires segment > 0
    ensures Joined(Cut(bytes, segment)) == bytes && |Cut(bytes, segment)| == Slices(|bytes|, segment)
    decreases |bytes|
  {
    if |bytes| > segment {
      CutExact(bytes[segment..], segment);
      OneMore(|bytes| - segment, segment);
      JoinedFront(Cut(bytes, segment));
      assert Cut(bytes, segment)[1..] == Cut(bytes[segment..], segment);
      assert bytes[..segment] + bytes[segment..] == bytes;
    } else if bytes != [] {
      OneMore(0, segment);
      Between(|bytes| + segment - 1, segment);
      JoinedFront([bytes]);
      assert [bytes][1..] == [];
    }
  }

  lemma OneMore(end: nat, segment: nat)
    requires segment > 0
    ensures Slices(end + segment, segment) == Slices(end, segment) + 1
  {
    var n := end + segment - 1;
    Remainder(n + segment, segment, n / segment + 1, n % segment);
  }

  lemma Between(n: nat, segment: nat)
    requires segment <= n < 2 * segment
    ensures n / segment == 1
  {
  }

  /** memcpy() to the start of a buffer, which may be the one copied from: only bytes before `offset` change there. */
  method CopyToStart(buf: array<Byte>, from: array<Byte>, offset: nat, size: nat)
    requires size <= buf.Length && size <= offset && offset + size <= from.Length
    modifies buf
    ensures buf[..size] == old(from[offset..offset + size]) && buf[size..] == old(buf[size..])
    ensures forall i :: offset <= i < from.Length ==> from[i] == old(from[i])
  {
    forall i | 0 <= i < size {
      buf[i] := from[offset + i];
    }
  }

  class Slicer {
    var base: array<Byte>
    var segment: nat
    var next: nat
    var end: nat
    var left: nat

    /** The datagrams not handed out yet. */
    ghost function Rest(): seq<seq<Byte>>
      reads this, base
      requires segment > 0 && next <= end <= base.Length
    {
      Cut(base[next..end], segment)
    }

    /** They lie whole in the buffer, the first of them past one that was handed out. */
    ghost predicate Valid()
      reads this, base
    {
      && segment > 0 && next <= end <= base.Length && left == |Rest()|
      && (left > 0 ==> segment <= next < end)
    }

    constructor (buf: array<Byte>)
      ensures Valid() && left == 0 && base == buf
    {
      base, segment, next, end, left := buf, 1, 0, 0, 0;
    }

    /** A merged read of `end` bytes in buf: its first datagram is returned, the rest kept. */
    method Keep(buf: array<Byte>, seg: nat, end: nat)
      requires 0 < seg <= end <= buf.Length
      modifies this
      ensures Valid() && base == buf && [buf[..seg]] + Rest() == Cut(buf[..end], seg)
    {
      FirstAndRest(buf[..end], seg);
      assert buf[..end][..seg] == buf[..seg] && buf[..end][seg..] == buf[seg..end];
      base, segment, next, this.end := buf, seg, seg, end;
      left := Slices(end, seg) - 1;
    }

    /**
     gro_read() on a read of d whose UDP_GRO size is seg (0: none): a merged read keeps all but its first datagram,
     which is returned; one cut by the buffer loses the datagram it was cut in.
     */
    method GroRead(buf: array<Byte>, d: seq<Byte>, seg: nat) returns (ret: nat)
      requires Valid() && left == 0
      modifies this, buf
      ensures Valid() && ret <= buf.Length
      ensures var got := if |d| < buf.Length then |d| else buf.Length;
              && buf[..got] == d[..got]
              && if seg == 0 || got <= seg then ret == got && left == 0
                 else base == buf && [buf[..ret]] + Rest() == Cut(d[..Uncut(got, |d| > buf.Length, seg)], seg)
    {
      var got := if |d| < buf.Length then |d| else buf.Length;
      forall i | 0 <= i < got {
        buf[i] := d[i];
      }
      if seg == 0 || got <= seg {
        base, next, end := buf, 0, 0;
        return got;
      }
      var kept := got;
      if |d| > buf.Length {
        kept := got - got % seg;
        Whole(got, seg);
      }
      Keep(buf, seg, kept);
      assert buf[..kept] == d[..kept];
      return seg;
    }

    /** On to the next datagram: where it lies. */
    method Advance() returns (offset: nat, size: nat)
      requires Valid() && left > 0
      modifies `next, `left
      ensures Valid() && Rest() == old(Rest())[1..] && left == old(left) - 1
      ensures size <= segment <= offset && offset + size == next <= base.Length
      ensures base[offset..next] == old(Rest())[0]
    {
      offset := next;
      size := if end - offset < segment then end - offset else segment;
      NextSlice(base[offset..end], segment, size);
      assert base[offset..end][..size] == base[offset..offset + size];
      assert base[offset..end][size..] == base[offset + size..end];
      next := offset + size;
      left := left - 1;
    }

    /** The copy made before the first byte still to come: those bytes stay. */
    method CopyOut(buf: array<Byte>, offset: nat, size: nat)
      requires Valid() && size <= buf.Length && size <= offset && offset + size <= next
      modifies buf
      ensures Valid() && Rest() == old(Rest()) && buf[0..size] == old(base[offset..offset + size])
    {
      ghost var rest := base[next..end];
      CopyToStart(buf, base, offset, size);
      assert base[next..end] == rest;
      assert buf[0..size] == buf[..size];
    }

    /** gro_take_pending(): the next datagram, in place or copied to the start of the caller's buffer. */
    method GroTakePending(buf: array<Byte>) returns (r: Option<Slice>)
      requires Valid()
      modifies this, buf
      ensures Valid() && base == old(base) && segment == old(segment)
      ensures old(left) == 0 ==> r == None && left == 0
      ensures old(left) > 0 ==>
                && old(Rest()) != [] && Rest() == old(Rest())[1..] && left == old(left) - 1
                && r.Some? && r.value.offset + r.value.size <= buf.Length
                && buf[r.value.offset..r.value.offset + r.value.size]
                   == if |old(Rest())[0]| <= buf.Length then old(Rest())[0] else old(Rest())[0][..buf.Length]
    {
      if left == 0 {
        return None;
      }
      var offset, size := Advance();
      if buf == base && offset % 4 == 0 {
        return Some(Slice(offset, size));
      }
      var copied := if size < buf.Length then size else buf.Length;
      assert base[offset..offset + copied] == base[offset..next][..copied];
      CopyOut(buf, offset, copied);
      return Some(Slice(0, copied));
    }
  }

  /** How much of a merged read of `got` bytes is whole datagrams: all of it unless the buffer cut it. */
  function Uncut(got: nat, truncated: bool, seg: nat): (kept: nat)
    requires seg > 0
    ensures kept <= got
  {
    if truncated then got - got % seg else got
  }

  lemma FirstAndRest(bytes: seq<Byte>, seg: nat)
    requires 0 < seg <= |bytes|
    ensures Cut(bytes, seg) == [bytes[..seg]] + Cut(bytes[seg..], seg)
    ensures |Cut(bytes[seg..], seg)| == Slices(|bytes|, seg) - 1
  {
    CutExact(bytes, seg);
    if |bytes| == seg {
      assert bytes[..seg] == bytes && bytes[seg..] == [];
    }
  }

  lemma NextSlice(bytes: seq<Byte>, segment: nat, size: nat)
    requires segment > 0 && bytes != [] && size == if |bytes| < segment then |bytes| else segment
    ensures Cut(bytes, segment)[0] == bytes[..size] && Cut(bytes, segment)[1..] == Cut(bytes[size..], segment)
  {
    if |bytes| <= segment {
      assert bytes[..size] == bytes && bytes[size..] == [];
    }
  }

  lemma Whole(got: nat, seg: nat)
    requires 0 < seg < got
    ensures seg <= got - got % seg
  {
    assert got == seg * (got / seg) + got % seg && got / seg >= 1;
    assert seg * (got / seg) >= seg;
  }

  /** Every datagram of a merged read, for any buffers the caller brings, the read's own among them or not. */
  method HandOutAll(s: Slicer, bufs: seq<array<Byte>>) returns (slices: seq<seq<Byte>>)
    requires s.Valid() && |bufs| == s.left && forall k :: 0 <= k < |bufs| ==> bufs[k].Length >= s.segment
    modifies s, bufs
    ensures slices == old(s.Rest()) && s.left == 0
  {
    slices := [];
    for k := 0 to |bufs|
      invariant s.Valid() && s.base == old(s.base) && s.segment == old(s.segment) && s.left == |bufs| - k
      invariant slices + s.Rest() == old(s.Rest())
    {
      ghost var rest := s.Rest();
      SliceFits(s.base[s.next..s.end], s.segment);
      var r := s.GroTakePending(bufs[k]);
      slices := slices + [bufs[k][r.value.offset..r.value.offset + r.value.size]];
      assert rest == [rest[0]] + rest[1..];
    }
  }

  lemma SliceFits(bytes: seq<Byte>, segment: nat)
    requires segment > 0 && bytes != []
    ensures |Cut(bytes, segment)[0]| <= segment
  {
  }
}
