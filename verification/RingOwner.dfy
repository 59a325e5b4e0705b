/**
 Which thread owns the wait ring. The owner waits and reads through it; another thread takes it over once it has read
 enough data-socket datagrams in a row while the owner read none, and each move doubles what the next one needs.
 */
module RingOwner {
  import opened Sequences

  const MOVE_WAITS: nat := 2
  const MOVE_MAX: nat := 65536
  const STREAK_MAX: nat := 0xFFFF_FFFF

  /** What the threads did: a wait by one that does not own the ring, or a data-socket datagram one read. */
  datatype Act = Claim(thread: nat) | Read(thread: nat, owner: bool)

  function Pow2(n: nat): nat {
    if n == 0 then 1 else 2 * Pow2(n - 1)
  }

  /** What the m-th move needs, counted from 0: 2, 4, 8, ... up to the cap. */
  function Needs(m: nat): nat {
    if Pow2(m + 1) < MOVE_MAX then Pow2(m + 1) else MOVE_MAX
  }

  /** What the first m moves need together. */
  function NeedsInAll(m: nat): nat {
    if m == 0 then 0 else NeedsInAll(m - 1) + Needs(m - 1)
  }

  /** Datagrams read by threads that did not own the ring as they read. */
  function Foreign(log: seq<Act>): nat {
    if log == [] then 0
    else Foreign(log[..|log| - 1]) + (if log[|log| - 1].Read? && !log[|log| - 1].owner then 1 else 0)
  }

  function ReadsBy(log: seq<Act>, thread: nat): nat {
    if log == [] then 0
    else ReadsBy(log[..|log| - 1], thread) + (if log[|log| - 1] == Read(thread, false) then 1 else 0)
  }

  /** A stretch with no datagram read by the owner and no wait by a third thread. */
  ghost predicate Unbroken(acts: seq<Act>, rival: nat) {
    forall k :: 0 <= k < |acts| ==> if acts[k].Claim? then acts[k].thread == rival else !acts[k].owner
  }

  lemma Counts(log: seq<Act>, a: Act, thread: nat)
    ensures Foreign(log + [a]) == Foreign(log) + if a.Read? && !a.owner then 1 else 0
    ensures ReadsBy(log + [a], thread) == ReadsBy(log, thread) + if a == Read(thread, false) then 1 else 0
  {
    Appended(log, a);
  }

  lemma {:induction false} Pow2Grows(a: nat, b: nat)
    requires a <= b
    ensures Pow2(a) <= Pow2(b)
  {
    if a < b {
      Pow2Grows(a, b - 1);
    }
  }

  /** Doubling below the cap is the next power of two or the cap. */
  lemma NeedsNext(m: nat)
    ensures Needs(m + 1) == if Needs(m) < MOVE_MAX then 2 * Needs(m) else Needs(m)
  {
    assert Pow2(4) == 16 && Pow2(8) == 256 && Pow2(12) == 4096 && Pow2(16) == 65536;
    if m + 1 < 16 {
      Pow2Grows(m + 2, 16);
      assert m + 1 <= 15;
      Pow2Grows(m + 1, 15);
    } else {
      Pow2Grows(16, m + 1);
    }
  }

  class WaitRingOwner {
    var ring: bool
    var owner: nat
    var rival: nat
    var streak: nat
    var moveAfter: nat
    var moves: nat
    ghost var log: seq<Act>
    ghost var start: nat

    /** The run in progress: since `start`, unbroken, with at least `streak` datagrams read by the rival. */
    ghost predicate Running()
      reads this
    {
      start <= |log| && Unbroken(log[start..], rival) && ReadsBy(log[start..], rival) >= streak
    }

    /** The moves so far were paid for by other threads' datagrams, and the run in progress is on top of that. */
    ghost predicate Valid()
      reads this
    {
      && moveAfter == Needs(moves)
      && Foreign(log) >= NeedsInAll(moves) + streak
      && streak <= STREAK_MAX
      && (owner == 0 ==> rival == 0) && (rival == 0 ==> streak == 0)
      && Running()
    }

    constructor ()
      ensures Valid() && log == [] && moves == 0
    {
      ring, owner, rival, streak, moveAfter, moves := true, 0, 0, 0, MOVE_WAITS, 0;
      log, start := [], 0;
    }

    /** Nothing counts towards a move any more. */
    ghost method Break()
      requires streak == 0
      modifies `start
      ensures start == |log| && Running()
    {
      start := |log|;
      assert log[start..] == [];
    }

    /** wr_enable(): the ring is this thread's, or gone when the kernel refuses. */
    method Enable(self: nat) returns (ok: bool)
      requires Valid() && self > 0 && owner == 0
      modifies `ring, `owner, `streak, `start
      ensures Valid() && streak == 0 && owner == (if ok then self else 0) && (ok || !ring)
    {
      ok := *;
      streak := 0;
      if ok {
        owner := self;
      } else {
        ring := false;
      }
      Break();
    }

    /**
     wr_use() and wr_claim(): whether this thread's wait uses the ring. A move goes only to a thread whose run reached
     what the move needs, with no datagram read by the owner and no third thread's wait in between.
     */
    method Use(self: nat) returns (uses: bool)
      requires Valid() && self > 0
      modifies this
      ensures Valid() && (uses ==> owner == self) && Foreign(log) >= NeedsInAll(moves)
      ensures moves == old(moves) || moves == old(moves) + 1
      ensures old(ring) && (old(owner) == 0 || old(owner) == self) ==> moves == old(moves) && (uses || !ring)
      ensures old(ring) && old(owner) != 0 && old(owner) != self ==>
                (uses <==> moves > old(moves)) && (old(rival) == self && old(streak) >= Needs(old(moves)) ==> uses || !ring)
      ensures moves > old(moves) ==>
                && owner == self && old(rival) == self && old(owner) != self
                && old(start) <= |old(log)| && Unbroken(old(log)[old(start)..], self)
                && ReadsBy(old(log)[old(start)..], self) >= Needs(old(moves))
    {
      if !ring {
        return false;
      }
      if owner == self {
        return true;
      }
      if owner == 0 {
        uses := Enable(self);
        return;
      }
      if rival != self {
        rival, streak := self, 0;
        Break();
        Log(Claim(self));
        return false;
      }
      if streak < moveAfter {
        Log(Claim(self));
        return false;
      }
      Log(Claim(self));
      NeedsNext(moves);
      uses := Move(self);
    }

    /** The ring closed and made again, enabled by this thread. */
    method Move(self: nat) returns (ok: bool)
      requires Valid() && self > 0 && streak >= moveAfter
      modifies `ring, `owner, `rival, `streak, `start, `moveAfter, `moves
      ensures Valid() && log == old(log) && (ok ==> owner == self) && (ok || !ring)
      ensures moves == if ok then old(moves) + 1 else old(moves)
    {
      ok := *;
      owner, rival, streak := 0, 0, 0;
      Break();
      if !ok {
        ring := false;
        return;
      }
      owner := self;
      moves := moves + 1;
      NeedsNext(moves - 1);
      if moveAfter < MOVE_MAX {
        moveAfter := 2 * moveAfter;
      }
    }

    /** wr_failed() on EEXIST: the owner's thread is gone and its id is another's; a ring of nobody's takes its place. */
    method Remake()
      requires Valid()
      modifies `ring, `owner, `rival, `streak, `start
      ensures Valid() && owner == 0 && streak == 0 && moves == old(moves) && Foreign(log) >= NeedsInAll(moves)
    {
      owner, rival, streak := 0, 0, 0;
      Break();
      var created: bool := *;
      ring := created;
    }

    ghost method Log(a: Act)
      requires Valid() && (a.Claim? ==> a.thread == rival) && (a.Read? ==> !a.owner)
      modifies `log
      ensures Valid() && log == old(log) + [a]
      ensures a == Read(rival, false) ==> Foreign(log) >= NeedsInAll(moves) + streak + 1
                                          && ReadsBy(log[start..], rival) >= streak + 1
    {
      Counts(log, a, rival);
      Counts(log[start..], a, rival);
      assert (log + [a])[start..] == log[start..] + [a];
      log := log + [a];
    }

    /** wr_count(): this thread read a data-socket datagram. */
    method Count(self: nat)
      requires Valid() && self > 0
      modifies `streak, `log, `start
      ensures Valid() && log == old(log) + [Read(self, old(owner) == self)]
      ensures streak == if owner == self then 0
                        else if rival == self && old(streak) < STREAK_MAX then old(streak) + 1 else old(streak)
    {
      if owner == self {
        streak := 0;
        Counts(log, Read(self, true), rival);
        log := log + [Read(self, true)];
        Break();
      } else {
        Log(Read(self, false));
        if rival == self && streak < STREAK_MAX {
          streak := streak + 1;
        }
      }
    }
  }

  /** What m moves need: powers of two up to the cap, then the cap each time. */
  lemma {:induction false} NeedsSum(m: nat)
    ensures NeedsInAll(m) == if m <= 15 then Pow2(m + 1) - 2 else Pow2(16) - 2 + (m - 15) * MOVE_MAX
  {
    assert Pow2(4) == 16 && Pow2(8) == 256 && Pow2(12) == 4096 && Pow2(16) == 65536;
    if m > 0 {
      NeedsSum(m - 1);
      if m <= 15 {
        Pow2Grows(m, 15);
      } else {
        Pow2Grows(16, m);
      }
    }
  }

  /** Threads that share the role cannot make the ring move often: fifteen moves, then one for each 65536 datagrams. */
  lemma MovesAreRare(moves: nat, foreign: nat)
    requires foreign >= NeedsInAll(moves)
    ensures moves <= 15 + foreign / MOVE_MAX
  {
    NeedsSum(moves);
    assert Pow2(4) == 16 && Pow2(8) == 256 && Pow2(12) == 4096 && Pow2(16) == 65536;
    assert moves > 15 ==> foreign >= (moves - 15) * 65536;
  }
}
