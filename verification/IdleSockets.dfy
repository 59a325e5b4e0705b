/**
 Which sockets a drain skips: those the last wait did not report, those a read found empty, and - after a run of lone
 datagrams - the one the wake-up read. Skipping must stay bounded, by the clock within a drain that never ends and by a
 count of wake-ups between waits.
 */
module IdleSockets {
  import opened Wrappers
  import opened Datagrams

  const LONE_STREAK: nat := 8
  const LONE_RECHECK: nat := 16
  const WRAP64: nat := 0x1_0000_0000_0000_0000

  /** now - since, in 64 bits. */
  function Elapsed(now: nat, since: nat): nat
    requires since < WRAP64
  {
    if now >= since then now - since else now + WRAP64 - since
  }

  class Skips {
    const recheck: nat
    var idle: set<Sock>
    var since: nat
    var preferData: bool
    var loneStreak: nat
    var loneSkips: nat
    var probe: Option<Sock>

    /**
     The clock of the first return made while some socket was skipped, the wake-ups not probed in a row, and the probes
     in a row that found nothing.
     */
    ghost var first: Option<nat>
    ghost var unprobed: nat
    ghost var empties: nat

    ghost predicate Valid()
      reads this
    {
      && since == (if first.None? then 0 else first.value)
      && (first.Some? ==> 0 < first.value < WRAP64)
      && (idle == {} ==> first == None)
      && unprobed == loneSkips < LONE_RECHECK
      && loneStreak == if empties < LONE_STREAK then empties else LONE_STREAK
    }

    constructor (recheck: nat)
      ensures Valid() && idle == {}
    {
      this.recheck := recheck;
      idle, since, preferData, loneStreak, loneSkips, probe := {}, 0, false, 0, 0, None;
      first, unprobed, empties := None, 0, 0;
    }

    /** tt_receive() about to wait: nothing is skipped on the strength of what was. */
    method BeforeWait()
      requires Valid()
      modifies `idle, `since, `first
      ensures Valid() && idle == {}
    {
      idle, since, first := {}, 0, None;
    }

    /** The wait reported `ready`: the others are skipped by the drain after it. */
    method AfterWait(ready: set<Sock>)
      requires Valid() && idle == {}
      modifies `idle
      ensures Valid() && idle == {WellKnown, Data} - ready
    {
      idle := {WellKnown, Data} - ready;
    }

    /**
     rx_lone_after_wake(): once eight probes in a row found nothing, the socket just read is skipped too, on at most
     fifteen wake-ups in a row.
     */
    method LoneAfterWake(s: Sock)
      requires Valid()
      modifies `idle, `loneSkips, `probe, `unprobed
      ensures Valid() && unprobed <= LONE_RECHECK - 1
      ensures if probe == None then unprobed == old(unprobed) + 1 && idle == old(idle) + {s}
              else probe == Some(s) && unprobed == 0 && idle == old(idle)
      ensures probe == Some(s) <==> empties < LONE_STREAK || old(unprobed) == LONE_RECHECK - 1
    {
      if loneStreak >= LONE_STREAK {
        loneSkips := loneSkips + 1;
        if loneSkips < LONE_RECHECK {
          idle := idle + {s};
          probe := None;
          unprobed := unprobed + 1;
          return;
        }
      }
      loneSkips := 0;
      unprobed := 0;
      probe := Some(s);
    }

    /**
     rx_idle_count_return(): a datagram returned at `now`. No skip survives a return made the recheck interval or more
     after the first one made while skipping.
     */
    method CountReturn(now: nat)
      requires Valid() && 0 < now < WRAP64
      modifies `idle, `since, `first
      ensures Valid() && idle <= old(idle)
      ensures idle != {} ==> idle == old(idle) && first == (if old(first) == None then Some(now) else old(first))
      ensures idle != {} && old(first).Some? ==> Elapsed(now, old(first).value) < recheck
    {
      if idle == {} {
        return;
      }
      if since == 0 {
        since, first := now, Some(now);
        return;
      }
      if Elapsed(now, since) >= recheck {
        idle, since, first := {}, 0, None;
      }
    }

    /** rx_lone_probed(). */
    method LoneProbed(found: bool)
      requires Valid()
      modifies `probe, `loneStreak, `empties
      ensures Valid() && probe == None && empties == if found then 0 else old(empties) + 1
    {
      probe := None;
      empties := if found then 0 else empties + 1;
      if found {
        loneStreak := 0;
      } else if loneStreak < LONE_STREAK {
        loneStreak := loneStreak + 1;
      }
    }

    /** One socket read: an empty one is skipped from here on. */
    method Ask(s: Sock, full: set<Sock>, marks: bool) returns (got: bool)
      requires Valid() && s !in idle
      modifies `idle, `probe, `loneStreak, `empties
      ensures Valid() && (got <==> s in full)
      ensures idle == if got && !marks then old(idle) else old(idle) + {s}
    {
      got := s in full;
      if probe == Some(s) {
        LoneProbed(got);
      }
      if !got || marks {
        idle := idle + {s};
      }
    }

    /**
     tt_try_receive() past what was held, with no drain running: `full` are the sockets with a datagram waiting, `marks`
     whether a read that returns one marks its socket idle too (a short batch, a large sample's run). Only sockets not
     skipped are read, in the alternating order; an answer of nothing leaves no skip behind.
     */
    method TryRead(full: set<Sock>, marks: bool, now: nat) returns (from: Option<Sock>)
      requires Valid() && 0 < now < WRAP64
      modifies this
      ensures Valid() && preferData == !old(preferData)
      ensures from == None ==> idle == {}
      ensures from.Some? ==> from.value in full && from.value !in old(idle)
      ensures from == None <==> full <= old(idle)
      ensures var ahead := if old(preferData) then Data else WellKnown;
              ahead in full && ahead !in old(idle) ==> from == Some(ahead)
    {
      var order := if preferData then [Data, WellKnown] else [WellKnown, Data];
      preferData := !preferData;
      from := None;
      for i := 0 to 2
        invariant Valid() && from == None && preferData == !old(preferData) && old(idle) <= idle
        invariant forall j :: 0 <= j < i && order[j] in full ==> order[j] in old(idle)
        invariant i > 0 && order[0] in full ==> order[0] in old(idle)
        invariant forall j :: i <= j < 2 && order[j] in idle ==> order[j] in old(idle)
      {
        if order[i] !in idle {
          var got := Ask(order[i], full, marks);
          if got {
            from := Some(order[i]);
            break;
          }
        }
      }
      forall s | from == None && s in full
        ensures s in old(idle)
      {
        assert s == order[0] || s == order[1];
      }
      if from == None {
        idle, since, first := {}, 0, None;
      } else {
        CountReturn(now);
      }
    }
  }
}
