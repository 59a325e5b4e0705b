/**
 Who owns each of the drain's buffers: the kernel, through the buffer ring; a completion not handed out yet; or the
 HAL, copying a datagram out of it.
 */
module BufferOwners {
  import opened Sequences
  import opened Datagrams
  import opened Drains

  /** A completion as it lies in the ring: a buffer's id, an end, or anything else. */
  datatype Cqe = Recv(sock: Sock, bid: nat, more: bool) | End(sock: Sock, why: Why) | Note

  /** Where a buffer is, positions counted since the rings were set up. */
  datatype Place = OnRing(p: nat) | InEntry(p: nat) | WithHal

  function Recvs(ring: seq<Cqe>): nat {
    if ring == [] then 0 else Recvs(ring[..|ring| - 1]) + if ring[|ring| - 1].Recv? then 1 else 0
  }

  lemma RecvsAppend(ring: seq<Cqe>, e: Cqe)
    ensures Recvs(ring + [e]) == Recvs(ring) + if e.Recv? then 1 else 0
  {
    Appended(ring, e);
  }

  lemma {:induction false} RecvsHead(ring: seq<Cqe>)
    requires ring != []
    ensures Recvs(ring) == (if ring[0].Recv? then 1 else 0) + Recvs(ring[1..])
  {
    if |ring| > 1 {
      RecvsHead(ring[..|ring| - 1]);
      Inner(ring);
    }
  }

  /** Both rings and the HAL: `free` from position `first` of the buffer ring, `ring` from `head` of the completions. */
  datatype Books = Books(owner: seq<Place>, free: seq<nat>, first: nat, ring: seq<Cqe>, head: nat, hal: seq<nat>)

  predicate Lives(b: Books, id: nat)
    requires id < |b.owner|
  {
    match b.owner[id]
    case OnRing(p) => b.first <= p < b.first + |b.free| && b.free[p - b.first] == id
    case InEntry(p) => b.head <= p < b.head + |b.ring| && b.ring[p - b.head].Recv? && b.ring[p - b.head].bid == id
    case WithHal => b.hal == [id]
  }

  predicate FreeWell(b: Books, k: nat)
    requires k < |b.free|
  {
    b.free[k] < |b.owner| && b.owner[b.free[k]] == OnRing(b.first + k)
  }

  predicate EntryWell(b: Books, k: nat)
    requires k < |b.ring|
  {
    b.ring[k].Recv? ==> b.ring[k].bid < |b.owner| && b.owner[b.ring[k].bid] == InEntry(b.head + k)
  }

  ghost predicate Owned(b: Books) {
    && (forall id {:trigger Lives(b, id)} :: 0 <= id < |b.owner| ==> Lives(b, id))
    && (forall k {:trigger FreeWell(b, k)} :: 0 <= k < |b.free| ==> FreeWell(b, k))
    && (forall k {:trigger EntryWell(b, k)} :: 0 <= k < |b.ring| ==> EntryWell(b, k))
    && |b.hal| <= 1 && (b.hal != [] ==> b.hal[0] < |b.owner| && b.owner[b.hal[0]] == WithHal)
    && |b.free| + Recvs(b.ring) + |b.hal| == |b.owner|
  }

  ghost predicate OnBufferRing(b: Books, id: nat) {
    exists k :: 0 <= k < |b.free| && b.free[k] == id
  }

  ghost predicate InCompletion(b: Books, id: nat) {
    exists k :: 0 <= k < |b.ring| && b.ring[k].Recv? && b.ring[k].bid == id
  }

  /** Every buffer is in exactly one place: the kernel's ring, a held completion, or the HAL's hands. */
  lemma ExactlyOnePlace(b: Books, id: nat)
    requires Owned(b) && id < |b.owner|
    ensures OnBufferRing(b, id) || InCompletion(b, id) || id in b.hal
    ensures !(OnBufferRing(b, id) && InCompletion(b, id))
    ensures !(OnBufferRing(b, id) && id in b.hal) && !(InCompletion(b, id) && id in b.hal)
    ensures forall j, k :: 0 <= j < k < |b.free| ==> b.free[j] != b.free[k]
    ensures forall j, k :: 0 <= j < k < |b.ring| && b.ring[j].Recv? && b.ring[k].Recv? ==> b.ring[j].bid != b.ring[k].bid
  {
    assert Lives(b, id);
    assert forall k {:trigger b.free[k]} :: 0 <= k < |b.free| ==> FreeWell(b, k);
    assert forall k {:trigger b.ring[k]} :: 0 <= k < |b.ring| ==> EntryWell(b, k);
  }

  /** Whenever the HAL has a buffer, the kernel's ring has room for it. */
  lemma RoomToGiveBack(b: Books)
    requires Owned(b) && b.hal != []
    ensures |b.free| < |b.owner|
  {
  }

  /** As set up: every buffer on the kernel's ring, in order. */
  function AllGiven(count: nat): Books {
    Books(seq(count, k requires 0 <= k => OnRing(k)), seq(count, k requires 0 <= k => k), 0, [], 0, [])
  }

  lemma AllGivenOwned(count: nat)
    ensures Owned(AllGiven(count))
  {
    var b := AllGiven(count);
    assert forall id :: 0 <= id < count ==> Lives(b, id);
    assert forall k :: 0 <= k < count ==> FreeWell(b, k);
  }

  function KernelFills(b: Books, s: Sock, more: bool): Books
    requires b.free != [] && b.free[0] < |b.owner|
  {
    Books(b.owner[b.free[0] := InEntry(b.head + |b.ring|)], b.free[1..], b.first + 1,
          b.ring + [Recv(s, b.free[0], more)], b.head, b.hal)
  }

  lemma FillsLives(b: Books, s: Sock, more: bool, id: nat)
    requires Owned(b) && b.free != [] && b.free[0] < |b.owner| && id < |b.owner|
    ensures Lives(KernelFills(b, s, more), id)
  {
    assert Lives(b, id);
    assert FreeWell(b, 0);
  }

  lemma KernelFillsKeeps(b: Books, s: Sock, more: bool)
    requires Owned(b) && b.free != []
    ensures b.free[0] < |b.owner| && Owned(KernelFills(b, s, more))
  {
    assert FreeWell(b, 0);
    RecvsAppend(b.ring, Recv(s, b.free[0], more));
    var next := KernelFills(b, s, more);
    forall id | 0 <= id < |next.owner|
      ensures Lives(next, id)
    {
      FillsLives(b, s, more, id);
    }
    forall k | 0 <= k < |next.free|
      ensures FreeWell(next, k)
    {
      assert FreeWell(b, k + 1);
    }
    forall k | 0 <= k < |next.ring|
      ensures EntryWell(next, k)
    {
      if k < |b.ring| {
        assert EntryWell(b, k);
      }
    }
  }

  lemma NotedKeeps(b: Books, e: Cqe)
    requires Owned(b) && !e.Recv?
    ensures Owned(b.(ring := b.ring + [e]))
  {
    RecvsAppend(b.ring, e);
    var next := b.(ring := b.ring + [e]);
    forall id | 0 <= id < |b.owner|
      ensures Lives(next, id)
    {
      assert Lives(b, id);
    }
    forall k | 0 <= k < |b.free|
      ensures FreeWell(next, k)
    {
      assert FreeWell(b, k);
    }
    forall k | 0 <= k < |next.ring|
      ensures EntryWell(next, k)
    {
      if k < |b.ring| {
        assert EntryWell(b, k);
      }
    }
  }

  /** The oldest completion leaves the ring; a datagram's buffer is the HAL's from there on. */
  function Pops(b: Books): Books
    requires b.ring != [] && (b.ring[0].Recv? ==> b.ring[0].bid < |b.owner|)
  {
    var rest := b.(ring := b.ring[1..], head := b.head + 1);
    if b.ring[0].Recv? then rest.(owner := b.owner[b.ring[0].bid := WithHal], hal := [b.ring[0].bid]) else rest
  }

  lemma PopsKeeps(b: Books)
    requires Owned(b) && b.ring != [] && (b.ring[0].Recv? ==> b.hal == [])
    ensures (b.ring[0].Recv? ==> b.ring[0].bid < |b.owner|) && Owned(Pops(b))
  {
    assert EntryWell(b, 0);
    RecvsHead(b.ring);
    var next := Pops(b);
    forall id | 0 <= id < |next.owner|
      ensures Lives(next, id)
    {
      assert Lives(b, id);
    }
    forall k | 0 <= k < |next.free|
      ensures FreeWell(next, k)
    {
      assert FreeWell(b, k);
    }
    forall k | 0 <= k < |next.ring|
      ensures EntryWell(next, k)
    {
      assert EntryWell(b, k + 1);
    }
  }

  /** drain_give_back(). */
  function GivesBack(b: Books): Books
    requires b.hal != [] && b.hal[0] < |b.owner|
  {
    b.(owner := b.owner[b.hal[0] := OnRing(b.first + |b.free|)], free := b.free + [b.hal[0]], hal := [])
  }

  lemma GivesBackKeeps(b: Books)
    requires Owned(b) && b.hal != []
    ensures Owned(GivesBack(b))
  {
    var next := GivesBack(b);
    forall id | 0 <= id < |next.owner|
      ensures Lives(next, id)
    {
      assert Lives(b, id);
    }
    forall k | 0 <= k < |next.free|
      ensures FreeWell(next, k)
    {
      if k < |b.free| {
        assert FreeWell(b, k);
      }
    }
    forall k | 0 <= k < |next.ring|
      ensures EntryWell(next, k)
    {
      assert EntryWell(b, k);
    }
  }
}
