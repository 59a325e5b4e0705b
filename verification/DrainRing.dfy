/**
 The drain on the memory it shares with the kernel: a completion ring and a buffer ring in arrays, positions kept modulo
 2^32 and 2^16, payloads in the buffers the completions name. Every operation is proved to do to the drain's abstract
 value what Drains says, and every buffer stays in exactly one place (BufferOwners).
 */
module DrainRings {
  import opened Datagrams
  import opened Drains
  import opened Rings
  import opened BufferOwners

  /** A provided buffer: what its recvmsg header says, and the payload. */
  datatype Buffer = Buffer(group: Group, sized: bool, cut: bool)

  /** A completion together with what its buffer holds. */
  function Shown(e: Cqe, mem: seq<Buffer>): Completion {
    match e
    case Recv(s, bid, more) =>
      if bid < |mem| then Took(s, mem[bid].group, mem[bid].sized, mem[bid].cut, more) else Other
    case End(s, why) => Ended(s, why)
    case Note => Other
  }

  function ShownAll(ring: seq<Cqe>, mem: seq<Buffer>): seq<Completion> {
    seq(|ring|, k requires 0 <= k < |ring| => Shown(ring[k], mem))
  }

  lemma {:induction false} HoldingShown(ring: seq<Cqe>, mem: seq<Buffer>)
    requires forall k :: 0 <= k < |ring| && ring[k].Recv? ==> ring[k].bid < |mem|
    ensures Holding(ShownAll(ring, mem)) == Recvs(ring)
  {
    if ring != [] {
      var n := |ring| - 1;
      HoldingShown(ring[..n], mem);
      assert ShownAll(ring, mem)[..n] == ShownAll(ring[..n], mem);
    }
  }

  /** The kernel fills a buffer no completion names: what the others show is unchanged. */
  lemma ShownPast(ring: seq<Cqe>, mem: seq<Buffer>, id: nat, buf: Buffer, e: Cqe)
    requires id < |mem|
    requires forall k :: 0 <= k < |ring| && ring[k].Recv? ==> ring[k].bid != id
    ensures ShownAll(ring + [e], mem[id := buf]) == ShownAll(ring, mem) + [Shown(e, mem[id := buf])]
  {
    forall k | 0 <= k < |ring|
      ensures Shown(ring[k], mem[id := buf]) == Shown(ring[k], mem)
    {
    }
  }

  /** The rings, the buffers and the positions kept of them, at one moment. */
  datatype Shared = Shared(
    cells: seq<Cqe>,
    slots: seq<nat>,
    mem: seq<Buffer>,
    cqHead: nat,
    cqTail: nat,
    scan: nat,
    bufHead: nat,
    bufTail: nat,
    pending: nat)

  /** Positions since set-up, how often each kept one has wrapped, and who owns what. */
  datatype Truth = Truth(
    books: Books,
    seen: nat,
    headLaps: nat,
    tailLaps: nat,
    scanLaps: nat,
    bufLaps: nat,
    cqRounds: nat,
    bufRounds: nat)

  ghost predicate Shaped(m: Shared, t: Truth) {
    Divides(|m.cells|, t.cqRounds, 0x1_0000_0000) && Divides(|m.slots|, t.bufRounds, 0x1_0000)
  }

  ghost predicate Placed(m: Shared, t: Truth) {
    && Kept32(m.cqHead, t.headLaps, t.books.head)
    && Kept32(m.cqTail, t.tailLaps, t.books.head + |t.books.ring|)
    && Kept32(m.scan, t.scanLaps, t.seen)
    && t.books.head <= t.seen <= t.books.head + |t.books.ring|
    && m.bufHead == t.books.first
    && Kept16(m.bufTail, t.bufLaps, t.books.first + |t.books.free|)
  }

  /** drain_pending is the number of datagrams among the completions looked at. */
  ghost predicate Counted(m: Shared, t: Truth) {
    t.books.head <= t.seen <= t.books.head + |t.books.ring| && m.pending == Recvs(t.books.ring[..t.seen - t.books.head])
  }

  ghost predicate Laid(m: Shared, t: Truth) {
    && Mirrors(m.cells, t.books.head, t.books.ring) && Mirrors(m.slots, t.books.first, t.books.free)
    && |t.books.owner| == |m.slots| == |m.mem| && Owned(t.books)
  }

  /** How often a position has wrapped once it has moved past `kept`. */
  function Laps32(laps: nat, kept: nat): nat {
    if kept == 0xFFFF_FFFF then laps + 1 else laps
  }

  function Laps16(laps: nat, kept: nat): nat {
    if kept == 0xFFFF then laps + 1 else laps
  }

  /** The completions held, with their payloads. */
  function Cq(m: Shared, t: Truth): seq<Completion> {
    ShownAll(t.books.ring, m.mem)
  }

  /** A split in progress: `left` datagrams of buffer `bid` to go, from datagram `next` on. */
  datatype SplitAt = SplitAt(bid: nat, next: nat, left: nat, from: Sock)

  /** The drain's fields at one moment. */
  datatype Fields = Fields(
    m: Shared,
    t: Truth,
    split: SplitAt,
    running: bool,
    armed: set<Sock>,
    flying: Per<nat>,
    rearm: set<Sock>,
    returned: nat,
    size: nat,
    truncated: nat)

  /** The buffer the HAL has is the split's. */
  ghost predicate SplitWell(mem: seq<Buffer>, hal: seq<nat>, at: SplitAt) {
    if at.left == 0 then hal == []
    else hal == [at.bid] && at.bid < |mem| && at.next + at.left == |mem[at.bid].group|
  }

  function SplitOf(mem: seq<Buffer>, at: SplitAt): seq<Datagram> {
    if 0 < at.left && at.bid < |mem| && at.next <= |mem[at.bid].group| then mem[at.bid].group[at.next..] else []
  }

  ghost predicate Good(f: Fields) {
    && Shaped(f.m, f.t) && Placed(f.m, f.t) && Counted(f.m, f.t) && Laid(f.m, f.t)
    && SplitWell(f.m.mem, f.t.books.hal, f.split)
  }

  /** How many completions have been looked at. */
  function Looks(t: Truth): nat {
    if t.books.head <= t.seen then t.seen - t.books.head else 0
  }

  /** The abstract drain the fields stand for. */
  function View(f: Fields): Drain {
    Drain(f.running, f.armed, f.flying, Cq(f.m, f.t), Looks(f.t), f.m.pending, f.rearm, f.returned,
          |f.m.slots|, f.size, f.truncated, SplitOf(f.m.mem, f.split), f.split.from, false, |f.t.books.free|)
  }

  // ---- The kernel's steps

  function Filled(m: Shared, s: Sock, buf: Buffer, more: bool): Shared
    requires |m.cells| > 0 && |m.slots| > 0 && m.slots[Slot(m.bufHead, |m.slots|)] < |m.mem|
  {
    var id := m.slots[Slot(m.bufHead, |m.slots|)];
    m.(mem := m.mem[id := buf], cells := m.cells[Slot(m.cqTail, |m.cells|) := Recv(s, id, more)],
       cqTail := Next32(m.cqTail), bufHead := m.bufHead + 1)
  }

  function FilledTruth(m: Shared, t: Truth, s: Sock, more: bool): Truth
    requires t.books.free != [] && t.books.free[0] < |t.books.owner|
  {
    t.(books := KernelFills(t.books, s, more), tailLaps := Laps32(t.tailLaps, m.cqTail))
  }

  lemma FillPlaced(m: Shared, t: Truth, s: Sock, buf: Buffer, more: bool)
    requires Shaped(m, t) && Placed(m, t) && Counted(m, t) && Laid(m, t) && t.books.free != []
    ensures m.slots[Slot(m.bufHead, |m.slots|)] == t.books.free[0] < |m.mem|
    ensures Slot(m.cqTail, |m.cells|) == Slot(t.books.head + |t.books.ring|, |m.cells|)
    ensures var m', t' := Filled(m, s, buf, more), FilledTruth(m, t, s, more);
            Shaped(m', t') && Placed(m', t') && Counted(m', t')
  {
    var b := t.books;
    assert FreeWell(b, 0);
    Pulled(m.slots, b.first, b.free);
    Picks32(m.cqTail, t.tailLaps, b.head + |b.ring|, |m.cells|, t.cqRounds);
    assert KernelFills(b, s, more).ring[..t.seen - b.head] == b.ring[..t.seen - b.head];
  }

  lemma FillLaid(m: Shared, t: Truth, s: Sock, buf: Buffer, more: bool)
    requires Laid(m, t) && t.books.free != [] && |t.books.ring| < |m.cells|
    requires m.slots[Slot(m.bufHead, |m.slots|)] == t.books.free[0] < |m.mem|
    requires Slot(m.cqTail, |m.cells|) == Slot(t.books.head + |t.books.ring|, |m.cells|)
    ensures var m', t' := Filled(m, s, buf, more), FilledTruth(m, t, s, more);
            && Laid(m', t')
            && Cq(m', t') == Cq(m, t) + [Took(s, buf.group, buf.sized, buf.cut, more)]
            && t.books.free[0] !in t.books.hal
  {
    var b := t.books;
    var e := Recv(s, b.free[0], more);
    Pulled(m.slots, b.first, b.free);
    Pushed(m.cells, b.head, b.ring, e);
    KernelFillsKeeps(b, s, more);
    ExactlyOnePlace(b, b.free[0]);
    ShownPast(b.ring, m.mem, b.free[0], buf, e);
  }

  function FilledFields(f: Fields, s: Sock, buf: Buffer, more: bool): Fields
    requires |f.m.cells| > 0 && |f.m.slots| > 0 && f.m.slots[Slot(f.m.bufHead, |f.m.slots|)] < |f.m.mem|
    requires f.t.books.free != [] && f.t.books.free[0] < |f.t.books.owner|
  {
    f.(m := Filled(f.m, s, buf, more), t := FilledTruth(f.m, f.t, s, more),
       flying := if more then f.flying else Landing(f.flying, s))
  }

  lemma FillRefines(f: Fields, s: Sock, buf: Buffer, more: bool)
    requires Good(f) && f.t.books.free != [] && |f.t.books.ring| < |f.m.cells|
    ensures f.m.slots[Slot(f.m.bufHead, |f.m.slots|)] == f.t.books.free[0] < |f.m.mem|
    ensures Good(FilledFields(f, s, buf, more))
    ensures View(FilledFields(f, s, buf, more))
         == Post(View(f).(flying := if more then f.flying else Landing(f.flying, s), free := |f.t.books.free| - 1),
                 Took(s, buf.group, buf.sized, buf.cut, more))
  {
    FillPlaced(f.m, f.t, s, buf, more);
    FillLaid(f.m, f.t, s, buf, more);
    assert f.split.left > 0 ==> f.split.bid in f.t.books.hal;
  }

  /** An end or another completion without a datagram is posted. */
  function Noted(f: Fields, e: Cqe): Fields
    requires |f.m.cells| > 0
  {
    var m := f.m.(cells := f.m.cells[Slot(f.m.cqTail, |f.m.cells|) := e], cqTail := Next32(f.m.cqTail));
    var t := f.t.(books := f.t.books.(ring := f.t.books.ring + [e]), tailLaps := Laps32(f.t.tailLaps, f.m.cqTail));
    f.(m := m, t := t, flying := if e.End? then Landing(f.flying, e.sock) else f.flying)
  }

  lemma NotedPlaced(f: Fields, e: Cqe)
    requires Shaped(f.m, f.t) && Placed(f.m, f.t) && Counted(f.m, f.t) && !e.Recv?
    ensures var m', t' := Noted(f, e).m, Noted(f, e).t;
            Shaped(m', t') && Placed(m', t') && Counted(m', t')
    ensures Slot(f.m.cqTail, |f.m.cells|) == Slot(f.t.books.head + |f.t.books.ring|, |f.m.cells|)
  {
    var b := f.t.books;
    Picks32(f.m.cqTail, f.t.tailLaps, b.head + |b.ring|, |f.m.cells|, f.t.cqRounds);
    assert (b.ring + [e])[..f.t.seen - b.head] == b.ring[..f.t.seen - b.head];
  }

  lemma NotedLaid(f: Fields, e: Cqe)
    requires Laid(f.m, f.t) && !e.Recv? && |f.t.books.ring| < |f.m.cells|
    requires Slot(f.m.cqTail, |f.m.cells|) == Slot(f.t.books.head + |f.t.books.ring|, |f.m.cells|)
    ensures Laid(Noted(f, e).m, Noted(f, e).t)
    ensures Cq(Noted(f, e).m, Noted(f, e).t) == Cq(f.m, f.t) + [Shown(e, f.m.mem)]
  {
    Pushed(f.m.cells, f.t.books.head, f.t.books.ring, e);
    NotedKeeps(f.t.books, e);
  }

  lemma NotedRefines(f: Fields, e: Cqe)
    requires Good(f) && !e.Recv? && |f.t.books.ring| < |f.m.cells|
    ensures Good(Noted(f, e))
    ensures View(Noted(f, e)) == Post(View(f).(flying := Noted(f, e).flying), Shown(e, f.m.mem))
  {
    NotedPlaced(f, e);
    NotedLaid(f, e);
  }

  // ---- drain_look()

  /** The scan position is the tail's exactly when every completion has been looked at. */
  lemma ScanEnd(f: Fields)
    requires Good(f)
    ensures f.m.scan == f.m.cqTail <==> f.t.seen == f.t.books.head + |f.t.books.ring|
    ensures f.m.scan == f.m.cqTail <==> View(f).scan >= |View(f).cq|
  {
    var b := f.t.books;
    Tells32(f.m.scan, f.t.scanLaps, f.t.seen, f.m.cqTail, f.t.tailLaps, b.head + |b.ring|, |f.m.cells|, f.t.cqRounds);
  }

  /** The cell at the scan position holds the first completion not looked at. */
  lemma ScanCell(f: Fields)
    requires Good(f) && f.t.seen < f.t.books.head + |f.t.books.ring|
    ensures f.m.cells[Slot(f.m.scan, |f.m.cells|)] == f.t.books.ring[f.t.seen - f.t.books.head]
  {
    Picks32(f.m.scan, f.t.scanLaps, f.t.seen, |f.m.cells|, f.t.cqRounds);
    CellAt(f.m.cells, f.t.books.head, f.t.books.ring, f.t.seen - f.t.books.head);
  }

  function ScannedMemory(m: Shared, e: Cqe): Shared {
    m.(scan := Next32(m.scan), pending := if e.Recv? then m.pending + 1 else m.pending)
  }

  function ScannedTruth(m: Shared, t: Truth): Truth {
    t.(seen := t.seen + 1, scanLaps := Laps32(t.scanLaps, m.scan))
  }

  /** drain_look()'s loop body on the entry e. */
  function Scans(f: Fields, e: Cqe): Fields {
    var next := f.(m := ScannedMemory(f.m, e), t := ScannedTruth(f.m, f.t));
    match e
    case Note => next
    case Recv(s, _, more) => if more then next else next.(armed := f.armed - {s})
    case End(s, why) =>
      if why == NoBuffers && f.running then next.(armed := f.armed - {s}, rearm := f.rearm + {s}, returned := 0)
      else next.(armed := f.armed - {s})
  }

  lemma ScansCounted(m: Shared, t: Truth, e: Cqe)
    requires Counted(m, t) && t.seen < t.books.head + |t.books.ring| && e == t.books.ring[t.seen - t.books.head]
    ensures Counted(ScannedMemory(m, e), ScannedTruth(m, t))
  {
    var b, k := t.books, t.seen - t.books.head;
    RecvsAppend(b.ring[..k], b.ring[k]);
    assert b.ring[..k + 1] == b.ring[..k] + [b.ring[k]];
  }

  lemma ScansGood(f: Fields, e: Cqe)
    requires Good(f) && f.t.seen < f.t.books.head + |f.t.books.ring| && e == f.t.books.ring[f.t.seen - f.t.books.head]
    ensures Good(Scans(f, e)) && (e.Recv? ==> e.bid < |f.m.mem|)
  {
    ScansCounted(f.m, f.t, e);
    assert EntryWell(f.t.books, f.t.seen - f.t.books.head);
    var m, t := ScannedMemory(f.m, e), ScannedTruth(f.m, f.t);
    assert Scans(f, e).m == m && Scans(f, e).t == t && Scans(f, e).split == f.split;
    assert Placed(m, t) && Laid(m, t);
  }

  lemma ScansView(f: Fields, e: Cqe)
    requires f.t.books.head <= f.t.seen < f.t.books.head + |f.t.books.ring|
    requires e == f.t.books.ring[f.t.seen - f.t.books.head] && (e.Recv? ==> e.bid < |f.m.mem|)
    ensures Looks(f.t) < |Cq(f.m, f.t)| && View(Scans(f, e)) == ScanOne(View(f))
  {
    assert Cq(f.m, f.t)[f.t.seen - f.t.books.head] == Shown(e, f.m.mem);
  }

  lemma HeadCell(f: Fields)
    requires Good(f)
    ensures f.m.cqHead == f.m.scan <==> f.t.seen == f.t.books.head
    ensures f.t.books.ring != [] ==> f.m.cells[Slot(f.m.cqHead, |f.m.cells|)] == f.t.books.ring[0]
  {
    var b := f.t.books;
    Tells32(f.m.cqHead, f.t.headLaps, b.head, f.m.scan, f.t.scanLaps, f.t.seen, |f.m.cells|, f.t.cqRounds);
    Picks32(f.m.cqHead, f.t.headLaps, b.head, |f.m.cells|, f.t.cqRounds);
    if b.ring != [] {
      Pulled(f.m.cells, b.head, b.ring);
    }
  }

  /** The positions and books as the head entry leaves, whatever it is. */
  function PoppedMemory(m: Shared, e: Cqe): Shared
    requires e.Recv? ==> m.pending > 0
  {
    m.(cqHead := Next32(m.cqHead), pending := if e.Recv? then m.pending - 1 else m.pending)
  }

  function PoppedTruth(m: Shared, t: Truth): Truth
    requires t.books.ring != [] && (t.books.ring[0].Recv? ==> t.books.ring[0].bid < |t.books.owner|)
  {
    t.(books := Pops(t.books), headLaps := Laps32(t.headLaps, m.cqHead))
  }

  lemma PopsPlaced(m: Shared, t: Truth)
    requires Placed(m, t) && Counted(m, t) && Owned(t.books) && t.books.head < t.seen
    ensures t.books.ring[0].Recv? ==> t.books.ring[0].bid < |t.books.owner| && m.pending > 0
    ensures var m', t' := PoppedMemory(m, t.books.ring[0]), PoppedTruth(m, t);
            Placed(m', t') && Counted(m', t')
  {
    var b := t.books;
    var k := t.seen - b.head;
    assert EntryWell(b, 0);
    RecvsHead(b.ring[..k]);
    assert b.ring[..k][1..] == b.ring[1..][..k - 1];
  }

  lemma PopsLaid(m: Shared, t: Truth)
    requires Laid(m, t) && t.books.ring != [] && (t.books.ring[0].Recv? ==> t.books.hal == [])
    requires t.books.ring[0].Recv? ==> t.books.ring[0].bid < |t.books.owner| && m.pending > 0
    ensures var m', t' := PoppedMemory(m, t.books.ring[0]), PoppedTruth(m, t);
            Laid(m', t') && Cq(m', t') == Cq(m, t)[1..] && Cq(m, t)[0] == Shown(t.books.ring[0], m.mem)
  {
    Pulled(m.cells, t.books.head, t.books.ring);
    PopsKeeps(t.books);
  }

  /** The head position moves past an entry without a datagram. */
  function Drops(f: Fields): Fields
    requires f.t.books.ring != [] && !f.t.books.ring[0].Recv?
  {
    f.(m := PoppedMemory(f.m, f.t.books.ring[0]), t := PoppedTruth(f.m, f.t))
  }

  lemma DropsGood(f: Fields)
    requires Good(f) && f.t.books.head < f.t.seen && !f.t.books.ring[0].Recv?
    ensures Good(Drops(f))
    ensures var d := View(f);
            d.cq != [] && d.scan > 0 && !d.cq[0].Took? && View(Drops(f)) == d.(cq := d.cq[1..], scan := d.scan - 1)
  {
    PopsPlaced(f.m, f.t);
    PopsLaid(f.m, f.t);
  }

  /** A pending datagram lies in an entry that was looked at. */
  lemma PendingSeen(f: Fields)
    requires Good(f) && f.m.pending > 0
    ensures f.t.books.head < f.t.seen
  {
  }

  /** drain_pending is the number of datagram-holding completions between the head and the scan position. */
  lemma PendingIsCount(f: Fields)
    requires Good(f)
    ensures f.m.pending == Holding(View(f).cq[..View(f).scan])
  {
    var looked := f.t.books.ring[..Looks(f.t)];
    assert ShownAll(looked, f.m.mem) == View(f).cq[..View(f).scan];
    forall k | 0 <= k < |looked| && looked[k].Recv?
      ensures looked[k].bid < |f.m.mem|
    {
      assert EntryWell(f.t.books, k);
    }
    HoldingShown(looked, f.m.mem);
  }

  /** The rings account for every buffer as the abstract drain does. */
  lemma ViewStocked(f: Fields)
    requires Good(f)
    ensures Stocked(View(f))
  {
    forall k | 0 <= k < |f.t.books.ring| && f.t.books.ring[k].Recv?
      ensures f.t.books.ring[k].bid < |f.m.mem|
    {
      assert EntryWell(f.t.books, k);
    }
    HoldingShown(f.t.books.ring, f.m.mem);
    assert View(f).split != [] <==> f.split.left > 0;
  }

  lemma HeadEntry(f: Fields)
    requires Good(f) && f.t.books.ring != [] && f.t.books.ring[0].Recv?
    ensures f.t.books.ring[0].bid < |f.m.mem| && View(f).cq[0] == Shown(f.t.books.ring[0], f.m.mem)
  {
    assert EntryWell(f.t.books, 0);
  }

  lemma HeadShown(f: Fields)
    requires Good(f) && f.t.books.head < f.t.seen && f.t.books.ring[0].Recv?
    ensures View(f).cq != [] && View(f).cq[0].Took?
  {
    assert EntryWell(f.t.books, 0);
  }

  // ---- Buffers going back

  function Returned(m: Shared, bid: nat): Shared
    requires |m.slots| > 0
  {
    m.(slots := m.slots[Slot(m.bufTail, |m.slots|) := bid], bufTail := Next16(m.bufTail))
  }

  function ReturnedTruth(m: Shared, t: Truth): Truth
    requires t.books.hal != [] && t.books.hal[0] < |t.books.owner|
  {
    t.(books := GivesBack(t.books), bufLaps := Laps16(t.bufLaps, m.bufTail))
  }

  lemma BackPlaced(m: Shared, t: Truth)
    requires Shaped(m, t) && Placed(m, t) && Counted(m, t) && t.books.hal != [] && t.books.hal[0] < |t.books.owner|
    ensures Slot(m.bufTail, |m.slots|) == Slot(t.books.first + |t.books.free|, |m.slots|)
    ensures var m', t' := Returned(m, t.books.hal[0]), ReturnedTruth(m, t);
            Shaped(m', t') && Placed(m', t') && Counted(m', t')
  {
    Picks16(m.bufTail, t.bufLaps, t.books.first + |t.books.free|, |m.slots|, t.bufRounds);
  }

  lemma BackLaid(m: Shared, t: Truth)
    requires Laid(m, t) && t.books.hal != []
    requires Slot(m.bufTail, |m.slots|) == Slot(t.books.first + |t.books.free|, |m.slots|)
    ensures var m', t' := Returned(m, t.books.hal[0]), ReturnedTruth(m, t);
            Laid(m', t') && Cq(m', t') == Cq(m, t)
  {
    RoomToGiveBack(t.books);
    Pushed(m.slots, t.books.first, t.books.free, t.books.hal[0]);
    GivesBackKeeps(t.books);
  }

  // ---- rx_take_drained()'s head, and splits

  /** The head's datagram copied out or dropped, and its buffer given back. */
  function Takes(f: Fields, e: Cqe, cut: bool): Fields
    requires e.Recv? && f.m.pending > 0 && |f.m.slots| > 0
    requires f.t.books.ring != [] && f.t.books.ring[0] == e && e.bid < |f.t.books.owner|
  {
    var m, t := PoppedMemory(f.m, e), PoppedTruth(f.m, f.t);
    f.(m := Returned(m, e.bid), t := ReturnedTruth(m, t), returned := f.returned + 1,
       truncated := if cut then f.truncated + 1 else f.truncated)
  }

  lemma TakesGood(f: Fields, e: Cqe, cut: bool)
    requires Good(f) && f.t.books.head < f.t.seen && f.t.books.ring[0] == e && e.Recv? && f.split.left == 0
    ensures f.m.pending > 0 && e.bid < |f.m.mem| && Good(Takes(f, e, cut))
    ensures Cq(Takes(f, e, cut).m, Takes(f, e, cut).t) == Cq(f.m, f.t)[1..]
  {
    PopsPlaced(f.m, f.t);
    PopsLaid(f.m, f.t);
    var m, t := PoppedMemory(f.m, e), PoppedTruth(f.m, f.t);
    BackPlaced(m, t);
    BackLaid(m, t);
  }

  lemma TakesView(f: Fields, e: Cqe, next: Fields)
    requires f.m.pending > 0 && |f.m.slots| > 0 && f.t.books.head < f.t.seen && f.split.left == 0
    requires f.t.books.ring != [] && f.t.books.ring[0] == e && e.Recv? && e.bid < |f.m.mem| == |f.t.books.owner|
    requires !Merged(Shown(e, f.m.mem)) && next == Takes(f, e, f.m.mem[e.bid].cut) && Cq(next.m, next.t) == Cq(f.m, f.t)[1..]
    ensures View(next) == Popped(View(f))
  {
    assert Cq(f.m, f.t)[0] == Shown(e, f.m.mem);
  }

  /** The head's datagrams are to be handed out one at a time: its buffer stays with the HAL. */
  function Splits(f: Fields, e: Cqe): Fields
    requires e.Recv? && f.m.pending > 0 && e.bid < |f.m.mem|
    requires f.t.books.ring != [] && f.t.books.ring[0] == e && e.bid < |f.t.books.owner|
  {
    f.(m := PoppedMemory(f.m, e), t := PoppedTruth(f.m, f.t), split := SplitAt(e.bid, 0, |f.m.mem[e.bid].group|, e.sock))
  }

  lemma SplitsGood(f: Fields, e: Cqe)
    requires Good(f) && f.t.books.head < f.t.seen && f.t.books.ring[0] == e && e.Recv? && f.split.left == 0
    requires e.bid < |f.m.mem| ==> Merged(Shown(e, f.m.mem))
    ensures f.m.pending > 0 && e.bid < |f.m.mem| && Good(Splits(f, e)) && View(Splits(f, e)) == Popped(View(f))
  {
    PopsPlaced(f.m, f.t);
    PopsLaid(f.m, f.t);
  }

  /** The split's next datagram leaves; the buffer goes back with the last one. */
  function SplitStep(f: Fields): Fields
    requires f.split.left > 0 && |f.m.slots| > 0
    requires f.t.books.hal == [f.split.bid] && f.split.bid < |f.t.books.owner|
  {
    var next := f.(split := f.split.(next := f.split.next + 1, left := f.split.left - 1));
    if f.split.left > 1 then next
    else next.(m := Returned(f.m, f.split.bid), t := ReturnedTruth(f.m, f.t), returned := f.returned + 1)
  }

  lemma SplitStepGood(f: Fields)
    requires Good(f) && f.split.left > 0
    ensures Good(SplitStep(f))
    ensures Cq(SplitStep(f).m, SplitStep(f).t) == Cq(f.m, f.t)
  {
    if f.split.left == 1 {
      BackPlaced(f.m, f.t);
      BackLaid(f.m, f.t);
    }
  }

  lemma SplitStepView(f: Fields)
    requires f.split.left > 0 && |f.m.slots| > 0
    requires f.t.books.hal == [f.split.bid] && f.split.bid < |f.t.books.owner| == |f.m.mem|
    requires f.split.next + f.split.left == |f.m.mem[f.split.bid].group|
    requires Cq(SplitStep(f).m, SplitStep(f).t) == Cq(f.m, f.t)
    ensures View(f).split != [] && View(f).split[0] == f.m.mem[f.split.bid].group[f.split.next]
    ensures View(SplitStep(f)) == SplitOne(View(f))
  {
    var group := f.m.mem[f.split.bid].group;
    assert group[f.split.next..][1..] == group[f.split.next + 1..];
  }

  lemma GivenLaid(slots: seq<nat>, count: nat)
    requires |slots| == count > 0 && forall k :: 0 <= k < count ==> slots[k] == k
    ensures Mirrors(slots, 0, AllGiven(count).free)
  {
    forall k | 0 <= k < count
      ensures AllGiven(count).free[k] == slots[Slot(0 + k, count)]
    {
      assert k % count == k;
    }
  }

  class DrainRing {
    const cqes: array<Cqe>
    const bufs: array<nat>
    const buffers: array<Buffer>
    const size: nat

    // shared with the kernel
    var cqHead: nat
    var cqTail: nat
    var bufTail: nat
    var bufHead: nat

    // the HAL's own
    var scan: nat
    var pending: nat
    var split: SplitAt
    var running: bool
    var armed: set<Sock>
    var rearm: set<Sock>
    var returned: nat
    var truncated: nat

    ghost var flying: Per<nat>
    ghost var truth: Truth

    ghost function Now(): Fields
      reads this, cqes, bufs, buffers
    {
      Fields(Shared(cqes[..], bufs[..], buffers[..], cqHead, cqTail, scan, bufHead, bufTail, pending), truth, split,
             running, armed, flying, rearm, returned, size, truncated)
    }

    method KernelWrites(s: Sock, buf: Buffer, more: bool)
      requires cqes.Length > 0 && bufs.Length > 0 && bufs[Slot(bufHead, bufs.Length)] < buffers.Length
      modifies `cqTail, `bufHead, cqes, buffers
      ensures Now() == old(Now()).(m := Filled(old(Now()).m, s, buf, more))
    {
      var id := bufs[Slot(bufHead, bufs.Length)];
      buffers[id] := buf;
      cqes[Slot(cqTail, cqes.Length)] := Recv(s, id, more);
      cqTail := Next32(cqTail);
      bufHead := bufHead + 1;
    }

    /** drain_setup(): empty rings, and every buffer given to the kernel. */
    constructor (entries: nat, count: nat, size: nat, ghost cqRounds: nat, ghost bufRounds: nat)
      requires Divides(entries, cqRounds, 0x1_0000_0000) && Divides(count, bufRounds, 0x1_0000)
      ensures Good(Now()) && fresh(cqes) && fresh(bufs) && fresh(buffers)
      ensures View(Now()) == Drain(false, {}, Per(0, 0), [], 0, 0, {}, 0, count, size, 0, [], WellKnown, false, count)
    {
      cqes := new Cqe[entries](_ => Note);
      bufs := new nat[count](i => i);
      buffers := new Buffer[count](_ => Buffer([], false, false));
      this.size := size;
      cqHead, cqTail, scan, bufHead, bufTail, pending := 0, 0, 0, 0, count, 0;
      split := SplitAt(0, 0, 0, WellKnown);
      running, armed, rearm, returned, truncated, flying := false, {}, {}, 0, 0, Per(0, 0);
      truth := Truth(AllGiven(count), 0, 0, 0, 0, 0, cqRounds, bufRounds);
      new;
      AllGivenOwned(count);
      GivenLaid(bufs[..], count);
      assert count < 0x1_0000 by {
        assert count * bufRounds >= count * 2;
      }
    }

    /** The kernel takes a datagram into the buffer given back longest ago. */
    method KernelTake(s: Sock, buf: Buffer, more: bool)
      requires Good(Now()) && flying.At(s) > 0 && truth.books.free != [] && |truth.books.ring| < cqes.Length
      modifies `cqTail, `bufHead, `flying, `truth, cqes, buffers
      ensures Good(Now())
      ensures View(Now()) == Post(old(View(Now())).(flying := if more then old(flying) else Landing(old(flying), s),
                                                    free := |old(truth).books.free| - 1),
                                  Took(s, buf.group, buf.sized, buf.cut, more))
    {
      ghost var f := Now();
      FillRefines(f, s, buf, more);
      KernelWrites(s, buf, more);
      flying := if more then flying else Landing(flying, s);
      truth := FilledTruth(f.m, f.t, s, more);
      assert Now() == FilledFields(f, s, buf, more);
    }

    /** The kernel posts the end of a recvmsg, or a completion about neither socket. */
    method KernelPost(e: Cqe)
      requires Good(Now()) && !e.Recv? && (e.End? ==> flying.At(e.sock) > 0) && |truth.books.ring| < cqes.Length
      modifies `cqTail, `flying, `truth, cqes
      ensures Good(Now())
      ensures View(Now()) == Post(old(View(Now())).(flying := flying), Shown(e, []))
      ensures flying == if e.End? then Landing(old(flying), e.sock) else old(flying)
    {
      ghost var f := Now();
      NotedRefines(f, e);
      cqes[Slot(cqTail, cqes.Length)] := e;
      cqTail := Next32(cqTail);
      flying := Noted(f, e).flying;
      truth := Noted(f, e).t;
      assert Now() == Noted(f, e);
    }

    /** What drain_look() does with the completion e. */
    method Marks(e: Cqe)
      modifies `scan, `pending, `armed, `rearm, `returned
      ensures Now().(t := Scans(old(Now()), e).t) == Scans(old(Now()), e)
    {
      scan := Next32(scan);
      match e {
        case Note =>
        case Recv(s, _, more) =>
          pending := pending + 1;
          armed := if more then armed else armed - {s};
        case End(s, why) =>
          armed := armed - {s};
          if why == NoBuffers && running {
            rearm := rearm + {s};
            returned := 0;
          }
      }
    }

    method ScanNext()
      requires Good(Now()) && scan != cqTail
      modifies `scan, `pending, `armed, `rearm, `returned, `truth
      ensures Good(Now())
      ensures old(View(Now())).scan < |old(View(Now())).cq| && View(Now()) == ScanOne(old(View(Now())))
    {
      ghost var f := Now();
      ScanEnd(f);
      ScanCell(f);
      var e := cqes[Slot(scan, cqes.Length)];
      ScansGood(f, e);
      ScansView(f, e);
      Marks(e);
      truth := Scans(f, e).t;
      assert Now() == Scans(f, e);
    }

    method DropNext()
      requires Good(Now()) && cqHead != scan && cqes.Length > 0 && !cqes[Slot(cqHead, cqes.Length)].Recv?
      modifies `cqHead, `truth
      ensures Good(Now())
      ensures var d := old(View(Now()));
              d.cq != [] && d.scan > 0 && !d.cq[0].Took? && View(Now()) == d.(cq := d.cq[1..], scan := d.scan - 1)
    {
      ghost var f := Now();
      HeadCell(f);
      DropsGood(f);
      cqHead := Next32(cqHead);
      truth := PoppedTruth(f.m, f.t);
      assert Now() == Drops(f);
    }

    /** drain_look()'s first loop: the completions that came since the last look. */
    method ScanAll()
      requires Good(Now())
      modifies `scan, `pending, `armed, `rearm, `returned, `truth
      ensures Good(Now()) && View(Now()) == Scanned(old(View(Now())))
    {
      ghost var was := View(Now());
      while scan != cqTail
        invariant Good(Now()) && Scanned(View(Now())) == Scanned(was)
        decreases |View(Now()).cq| - View(Now()).scan
      {
        ghost var d := View(Now());
        ScanNext();
        ScanMoves(d);
      }
      ScanEnd(Now());
    }

    /** drain_look()'s second loop: completions without a datagram at the head are let go. */
    method DropAll()
      requires Good(Now())
      modifies `cqHead, `truth
      ensures Good(Now()) && View(Now()) == DropEnds(old(View(Now())))
    {
      while cqHead != scan && !cqes[Slot(cqHead, cqes.Length)].Recv?
        invariant Good(Now()) && DropEnds(View(Now())) == DropEnds(old(View(Now())))
        decreases |View(Now()).cq|
      {
        DropNext();
      }
      HeadCell(Now());
      if cqHead != scan {
        HeadShown(Now());
      }
    }

    method Look()
      requires Good(Now())
      modifies `cqHead, `scan, `pending, `armed, `rearm, `returned, `truth
      ensures Good(Now()) && View(Now()) == Looked(old(View(Now())))
    {
      ScanAll();
      DropAll();
    }

    /** drain_give_back(). */
    method GiveBack(bid: nat)
      requires bufs.Length > 0
      modifies `bufTail, `returned, bufs
      ensures Now() == old(Now()).(m := Returned(old(Now()).m, bid), returned := old(returned) + 1)
    {
      bufs[Slot(bufTail, bufs.Length)] := bid;
      bufTail := Next16(bufTail);
      returned := returned + 1;
    }

    /**
     rx_take_drained() on the head: its entry leaves the ring, and what it holds is handed out whole (returned), dropped
     as truncated, or begins a split.
     */
    method TakeHead() returns (taken: seq<Group>)
      requires Good(Now()) && pending > 0 && split.left == 0
      modifies `cqHead, `pending, `bufTail, `returned, `truncated, `split, `truth, bufs
      ensures Good(Now())
      ensures var d := old(View(Now()));
              && d.cq != [] && d.scan > 0 && View(Now()) == Popped(d)
              && taken == if Whole(d.cq[0]) then [d.cq[0].group] else []
    {
      ghost var f := Now();
      PendingSeen(f);
      HeadCell(f);
      var e := cqes[Slot(cqHead, cqes.Length)];
      if !e.Recv? {
        DropNext();
        return [];
      }
      HeadEntry(f);
      var buffer := buffers[e.bid];
      if !buffer.cut && buffer.sized && |buffer.group| > 1 {
        SplitBegin(e);
        return [];
      }
      TakeWhole(e, buffer.cut);
      return if buffer.cut then [] else [buffer.group];
    }

    /** drain_split_begin(). */
    method SplitBegin(e: Cqe)
      requires Good(Now()) && truth.books.head < truth.seen && truth.books.ring[0] == e && e.Recv? && split.left == 0
      requires e.bid < buffers.Length && Merged(Shown(e, buffers[..]))
      modifies `cqHead, `pending, `split, `truth
      ensures Good(Now())
      ensures var d := old(View(Now())); d.cq != [] && d.scan > 0 && d.pending > 0 && View(Now()) == Popped(d)
    {
      ghost var f := Now();
      SplitsGood(f, e);
      cqHead := Next32(cqHead);
      pending := pending - 1;
      split := SplitAt(e.bid, 0, |buffers[e.bid].group|, e.sock);
      truth := PoppedTruth(f.m, f.t);
      assert Now() == Splits(f, e);
    }

    method LetGo(e: Cqe, cut: bool)
      requires bufs.Length > 0 && pending > 0 && e.Recv?
      modifies `cqHead, `pending, `bufTail, `returned, `truncated, bufs
      ensures Now() == old(Now()).(m := Returned(PoppedMemory(old(Now()).m, e), e.bid), returned := old(returned) + 1,
                                   truncated := if cut then old(truncated) + 1 else old(truncated))
    {
      cqHead := Next32(cqHead);
      pending := pending - 1;
      truncated := if cut then truncated + 1 else truncated;
      GiveBack(e.bid);
    }

    /** The head's buffer goes back, its datagram copied out or, when cut, dropped and counted. */
    method TakeWhole(e: Cqe, cut: bool)
      requires Good(Now()) && truth.books.head < truth.seen && truth.books.ring[0] == e && e.Recv? && split.left == 0
      requires e.bid < buffers.Length && !Merged(Shown(e, buffers[..])) && cut == buffers[e.bid].cut
      modifies `cqHead, `pending, `bufTail, `returned, `truncated, `truth, bufs
      ensures Good(Now())
      ensures var d := old(View(Now())); d.cq != [] && d.scan > 0 && d.pending > 0 && View(Now()) == Popped(d)
    {
      ghost var f := Now();
      TakesGood(f, e, cut);
      TakesView(f, e, Takes(f, e, cut));
      LetGo(e, cut);
      truth := Takes(f, e, cut).t;
      assert Now() == Takes(f, e, cut);
    }

    /** drain_take_split(). */
    method TakeSplit() returns (d: Datagram)
      requires Good(Now()) && split.left > 0
      modifies `split, `bufTail, `returned, `truth, bufs
      ensures Good(Now())
      ensures var was := old(View(Now()));
              was.split != [] && View(Now()) == SplitOne(was) && d == was.split[0]
    {
      ghost var f := Now();
      SplitStepGood(f);
      SplitStepView(f);
      d := buffers[split.bid].group[split.next];
      split := split.(next := split.next + 1, left := split.left - 1);
      if split.left == 0 {
        GiveBack(split.bid);
        truth := ReturnedTruth(f.m, f.t);
      }
      assert Now() == SplitStep(f);
    }
  }
}
