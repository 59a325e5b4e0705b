/**
 The receive drain's book-keeping as a value: the completion ring's entries from its head on, how far they have been
 looked at, and which multishot recvmsgs are in flight. DrainRing implements it on the shared rings themselves.
 */
module Drains {
  import opened Sequences
  import opened Datagrams

  datatype Why = NoBuffers | Cancelled | Unsupported

  /** A completion: a datagram (or merged run) taken, the end of a socket's recvmsg, or one that concerns neither. */
  datatype Completion =
    | Took(sock: Sock, group: Group, sized: bool, cut: bool, more: bool)
    | Ended(sock: Sock, why: Why)
    | Other
  {
    predicate About(s: Sock) {
      !Other? && sock == s
    }

    /** The completion ends s's recvmsg: it carries no IORING_CQE_F_MORE. */
    predicate Ends(s: Sock) {
      About(s) && (Took? ==> !more)
    }
  }

  /**
   `flying`: how many recvmsgs the kernel really has in flight; `armed`: what the HAL believes of them. `free`: buffers
   the kernel has to fill; `classic`: provided buffers, which come back to it only at the next start.
   */
  datatype Drain = Drain(
    running: bool,
    armed: set<Sock>,
    flying: Per<nat>,
    cq: seq<Completion>,
    scan: nat,
    pending: nat,
    rearm: set<Sock>,
    returned: nat,
    count: nat,
    size: nat,
    truncated: nat,
    split: seq<Datagram>,
    splitFrom: Sock,
    classic: bool,
    free: nat)

  /** drain_split_begin()'s test: UDP_GRO's size came with it, and more than one datagram of that size. */
  predicate Merged(c: Completion) {
    c.Took? && !c.cut && c.sized && |c.group| > 1
  }

  /** Handed out as one datagram. */
  predicate Whole(c: Completion) {
    c.Took? && !c.cut && !Merged(c)
  }

  /** How many of the completions hold a datagram. */
  function Holding(cq: seq<Completion>): nat {
    if cq == [] then 0 else Holding(cq[..|cq| - 1]) + if cq[|cq| - 1].Took? then 1 else 0
  }

  /** The datagrams a completion holds for s. */
  function Of(c: Completion, s: Sock): seq<Datagram> {
    if c.Took? && c.sock == s then c.group else []
  }

  /** The datagrams s's completions hold, oldest first. */
  function FlatOf(cq: seq<Completion>, s: Sock): seq<Datagram> {
    if cq == [] then [] else Of(cq[0], s) + FlatOf(cq[1..], s)
  }

  /** One completion looked at: the body of drain_look()'s loop. */
  function ScanOne(d: Drain): Drain
    requires d.scan < |d.cq|
  {
    var next := d.(scan := d.scan + 1);
    match d.cq[d.scan]
    case Other => next
    case Took(s, _, _, _, more) => next.(pending := d.pending + 1, armed := if more then d.armed else d.armed - {s})
    case Ended(s, why) =>
      if why == NoBuffers && d.running && !d.classic then next.(armed := d.armed - {s}, rearm := d.rearm + {s}, returned := 0)
      else next.(armed := d.armed - {s})
  }

  lemma ScanMoves(d: Drain)
    requires d.scan < |d.cq|
    ensures ScanOne(d).scan == d.scan + 1 && ScanOne(d).cq == d.cq
  {
  }

  function Scanned(d: Drain): Drain
    decreases |d.cq| - d.scan
  {
    if d.scan >= |d.cq| then d else Scanned(ScanOne(d))
  }

  /** Completions without a datagram at the head are let go. */
  function DropEnds(d: Drain): Drain
    decreases |d.cq|
  {
    if d.cq == [] || d.scan == 0 || d.cq[0].Took? then d
    else DropEnds(d.(cq := d.cq[1..], scan := d.scan - 1))
  }

  /** drain_look(). */
  function Looked(d: Drain): Drain {
    DropEnds(Scanned(d))
  }

  /** The kernel posts a completion. */
  function Post(d: Drain, c: Completion): Drain {
    d.(cq := d.cq + [c])
  }

  /** A datagram's buffer goes back to the kernel. */
  function GiveBack(d: Drain): Drain {
    if d.classic then d else d.(returned := d.returned + 1, free := d.free + 1)
  }

  /** The buffers that hold what is still to be handed out. */
  function InUse(d: Drain): nat {
    Holding(d.cq) + if d.split != [] then 1 else 0
  }

  /** Every buffer is the kernel's to fill or in use. */
  predicate Stocked(d: Drain) {
    if d.classic then d.free <= d.count else d.free + InUse(d) == d.count
  }

  /** rx_take_drained() on the oldest completion: cut, it is dropped and counted; merged and sized, its split begins. */
  function Popped(d: Drain): Drain
    requires d.cq != [] && d.scan > 0 && d.pending > 0
  {
    var c := d.cq[0];
    var popped := d.(cq := d.cq[1..], scan := d.scan - 1);
    if !c.Took? then popped else
    var taken := popped.(pending := d.pending - 1);
    if c.cut then GiveBack(taken).(truncated := d.truncated + 1)
    else if Merged(c) then taken.(split := c.group, splitFrom := c.sock)
    else GiveBack(taken)
  }

  /** drain_take_split(): the split's next datagram leaves, its buffer with the last one. */
  function SplitOne(d: Drain): Drain
    requires d.split != []
  {
    var rest := d.(split := d.split[1..]);
    if rest.split == [] then GiveBack(rest) else rest
  }

  /** The end of s's recvmsg is in the ring and not yet looked at. */
  ghost predicate EndUnseen(d: Drain, s: Sock) {
    exists k {:trigger d.cq[k].Ends(s)} :: d.scan <= k < |d.cq| && d.cq[k].Ends(s)
  }

  predicate Flies(d: Drain, s: Sock) {
    d.flying.At(s) > 0
  }

  /** One recvmsg on s fewer. */
  function Landing(flying: Per<nat>, s: Sock): Per<nat> {
    if flying.At(s) == 0 then flying else flying.With(s, flying.At(s) - 1)
  }

  /** What is pending is what the completions looked at hold. */
  ghost predicate Booked(d: Drain) {
    d.scan <= |d.cq| && d.pending == Holding(d.cq[..d.scan])
  }

  /** What ties the HAL's view of the drain to the kernel's. */
  ghost predicate DrainInv(d: Drain) {
    && Booked(d)
    && (forall s :: d.flying.At(s) <= 1 && (Flies(d, s) ==> s in d.armed))
    && (forall s :: s in d.armed ==> Flies(d, s) || EndUnseen(d, s))
    && d.rearm !! d.armed && (d.running || d.rearm == {})
    && (forall k, s {:trigger d.cq[k].About(s)} :: d.scan <= k < |d.cq| && d.cq[k].About(s) ==> s in d.armed)
    && (forall k, s {:trigger d.cq[k].Ends(s)} :: d.scan <= k < |d.cq| && d.cq[k].Ends(s) ==> !Flies(d, s))
    && (forall k, l, s {:trigger d.cq[k].Ends(s), d.cq[l].About(s)} ::
          d.scan <= k < l < |d.cq| && d.cq[k].Ends(s) ==> !d.cq[l].About(s))
  }

  lemma HoldingAppend(cq: seq<Completion>, c: Completion)
    ensures Holding(cq + [c]) == Holding(cq) + if c.Took? then 1 else 0
  {
    Appended(cq, c);
  }

  lemma {:induction false} HoldingHead(cq: seq<Completion>)
    requires cq != []
    ensures Holding(cq) == (if cq[0].Took? then 1 else 0) + Holding(cq[1..])
  {
    if |cq| > 1 {
      HoldingHead(cq[..|cq| - 1]);
      Inner(cq);
    }
  }

  lemma {:induction false} FlatOfAppend(cq: seq<Completion>, c: Completion, s: Sock)
    ensures FlatOf(cq + [c], s) == FlatOf(cq, s) + Of(c, s)
  {
    if cq == [] {
      assert cq + [c] == [c];
    } else {
      FlatOfAppend(cq[1..], c, s);
      Appended(cq, c);
      Assoc(Of(cq[0], s), FlatOf(cq[1..], s), Of(c, s));
    }
  }

  /** A ring of completions that hold no datagram holds none for either socket. */
  lemma {:induction false} NoneHeld(cq: seq<Completion>, s: Sock)
    requires Holding(cq) == 0
    ensures FlatOf(cq, s) == []
  {
    if cq != [] {
      HoldingHead(cq);
      NoneHeld(cq[1..], s);
    }
  }

  lemma ScanOneEnds(d: Drain, s: Sock)
    requires d.scan < |d.cq| && s in ScanOne(d).armed && (Flies(d, s) || EndUnseen(d, s))
    ensures Flies(ScanOne(d), s) || EndUnseen(ScanOne(d), s)
  {
    if !Flies(d, s) {
      var k :| d.scan <= k < |d.cq| && d.cq[k].Ends(s);
      assert ScanOne(d).cq[k].Ends(s);
    }
  }

  lemma ScanOneArmed(d: Drain, k: nat, s: Sock)
    requires DrainInv(d) && d.scan < k < |d.cq| && d.cq[k].About(s)
    ensures s in ScanOne(d).armed
  {
    assert !d.cq[d.scan].Ends(s);
  }

  lemma ScanOneBooks(d: Drain)
    requires Booked(d) && d.scan < |d.cq|
    ensures Booked(ScanOne(d))
  {
    assert d.cq[..d.scan + 1] == d.cq[..d.scan] + [d.cq[d.scan]];
    HoldingAppend(d.cq[..d.scan], d.cq[d.scan]);
  }

  lemma ScanOneKeeps(d: Drain)
    requires DrainInv(d) && d.scan < |d.cq|
    ensures DrainInv(ScanOne(d))
  {
    ScanOneBooks(d);
    var e := ScanOne(d);
    assert forall s :: Flies(d, s) && s !in e.armed ==> d.cq[d.scan].Ends(s);
    forall k, s | e.scan <= k < |e.cq| && e.cq[k].About(s)
      ensures s in e.armed
    {
      ScanOneArmed(d, k, s);
    }
    forall s | s in e.armed
      ensures Flies(e, s) || EndUnseen(e, s)
    {
      ScanOneEnds(d, s);
    }
  }

  lemma {:induction false} ScannedBooks(d: Drain)
    requires Booked(d)
    ensures Booked(Scanned(d))
    ensures Scanned(d) == d.(scan := |d.cq|, pending := Scanned(d).pending, armed := Scanned(d).armed,
                             rearm := Scanned(d).rearm, returned := Scanned(d).returned)
    ensures d.pending <= Scanned(d).pending
    ensures !d.running ==> Scanned(d).rearm == d.rearm
    decreases |d.cq| - d.scan
  {
    if d.scan < |d.cq| {
      ScanOneBooks(d);
      ScannedBooks(ScanOne(d));
    }
  }

  lemma {:induction false} ScannedKeeps(d: Drain)
    requires DrainInv(d)
    ensures DrainInv(Scanned(d))
    decreases |d.cq| - d.scan
  {
    if d.scan < |d.cq| {
      ScanOneKeeps(d);
      ScannedKeeps(ScanOne(d));
    }
  }

  lemma {:induction false} DropEndsBooks(d: Drain, s: Sock)
    requires Booked(d) && d.scan == |d.cq|
    ensures Booked(DropEnds(d))
    ensures var e := DropEnds(d);
            e == d.(cq := e.cq, scan := |e.cq|) && |e.cq| <= |d.cq| && (e.cq != [] ==> e.cq[0].Took?)
            && FlatOf(e.cq, s) == FlatOf(d.cq, s) && Holding(e.cq) == Holding(d.cq)
    decreases |d.cq|
  {
    if d.cq != [] && !d.cq[0].Took? {
      HoldingHead(d.cq);
      FullPrefix(d.cq);
      FullPrefix(d.cq[1..]);
      DropEndsBooks(d.(cq := d.cq[1..], scan := d.scan - 1), s);
    }
  }

  lemma DropEndsKeeps(d: Drain)
    requires DrainInv(d) && d.scan == |d.cq|
    ensures DrainInv(DropEnds(d))
  {
    DropEndsBooks(d, Data);
    var e := DropEnds(d);
    forall s | s in e.armed
      ensures Flies(e, s)
    {
      assert !EndUnseen(d, s);
    }
  }

  /** A look keeps the books and changes what is held for neither socket; after it everything has been looked at. */
  lemma LookedBooks(d: Drain, s: Sock)
    requires Booked(d)
    ensures Booked(Looked(d))
    ensures var e := Looked(d);
            && e.scan == |e.cq|
            && FlatOf(e.cq, s) == FlatOf(d.cq, s)
            && (e.cq != [] ==> e.cq[0].Took?)
            && (e.cq == [] <==> e.pending == 0)
            && e.flying == d.flying && e.running == d.running
            && e.split == d.split && e.splitFrom == d.splitFrom
            && e.size == d.size && e.truncated == d.truncated && e.count == d.count
            && e.classic == d.classic && e.free == d.free && InUse(e) == InUse(d)
            && (!d.running ==> e.rearm == d.rearm)
  {
    ScannedBooks(d);
    DropEndsBooks(Scanned(d), s);
    var e := Looked(d);
    FullPrefix(e.cq);
    if e.cq != [] {
      HoldingHead(e.cq);
    }
  }

  /** It keeps the HAL's view tied to the kernel's, and after it the HAL believes in flight only what is. */
  lemma LookedKeeps(d: Drain)
    requires DrainInv(d)
    ensures DrainInv(Looked(d))
    ensures forall s :: s in Looked(d).armed <==> Flies(Looked(d), s)
  {
    LookedBooks(d, Data);
    ScannedKeeps(d);
    ScannedBooks(d);
    DropEndsKeeps(Scanned(d));
    var e := Looked(d);
    forall s | s in e.armed
      ensures Flies(e, s)
    {
      assert !EndUnseen(e, s);
    }
  }
}
