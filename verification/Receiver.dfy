/**
 The receive calls as the HAL makes them: tt_receive(), tt_try_receive() and tt_rx_drain_start() over the fields of
 struct tt_hal. Every field update is recorded as a step of ReceiveMachine, so what holds of every run holds of every
 sequence of calls, with the kernel interfering wherever the code looks at a socket, a ring or the clock.
 */
module Receivers {
  import opened Sequences
  import opened Datagrams
  import opened Drains
  import opened ReceiveMachine
  import RP = ReceiveProof
  import RT = ReceiveTheorems

  /** What a call returns: a datagram, nothing (-1), an interrupt (-3), or a rung bell (0 bytes from nobody). */
  datatype Answer = Got(sock: Sock, group: Group) | Nothing | Interrupted | Rung

  /**
   How a wait ends: the sockets reported, the bell, room to send, a wake; `taken`: the wait ring's own recvmsg read the
   data socket, which is then reported too.
   */
  datatype Wake = TimedOut | Woken(ready: set<Sock>, bell: bool, writable: bool, signal: bool, taken: bool)

  lemma DrainSound(env: Env, log: seq<Event>)
    ensures Booked(After(env, log).drain)
    ensures Steady(env) ==> DrainInv(After(env, log).drain) && After(env, log).sq == [] && Provided(After(env, log))
  {
    RT.Reached(env, log);
  }

  predicate Within(a: Per<nat>, b: Per<nat>) {
    a.wellKnown <= b.wellKnown && a.data <= b.data
  }

  /** A start changes the drain and its ring only. */
  lemma StartedShape(a: State, b: State, enter: Enter)
    requires a.drain == b.drain && a.sq == b.sq && (enter.Accepted? ==> enter.n <= |StartSubs(a.drain.classic)|)
    ensures var entered, next := Entered(a, StartSubs(a.drain.classic), enter), Started(b, enter);
            && next == b.(drain := next.drain, sq := entered.sq, mixed := next.mixed)
            && next.drain == if enter.Refused? then entered.drain
                             else entered.drain.(running := true, armed := {WellKnown, Data})
  {
  }

  /** What the kernel does depends on no history. */
  lemma KernelAgrees(env: Env, a: State, b: State, e: Event)
    requires IsKernel(e) && a == b.(given := a.given, mixed := a.mixed) && Enabled(env, a, e)
    ensures Enabled(env, b, e)
    ensures Step(env, a, e) == Step(env, b, e).(given := a.given, mixed := a.mixed)
    ensures Step(env, b, e).given == b.given
  {
  }

  /** What the kernel may change of the drain and the clock. */
  lemma KernelShape(env: Env, st: State, e: Event)
    requires IsKernel(e) && Enabled(env, st, e)
    ensures var next := Step(env, st, e);
            && next.gro == st.gro && next.batch == st.batch && next.sq == st.sq && next.net.now >= st.net.now
            && next.drain == st.drain.(cq := next.drain.cq, flying := next.drain.flying, free := next.drain.free)
            && st.drain.cq <= next.drain.cq && Within(next.drain.flying, st.drain.flying)
            && (e.KernelEnd? ==> next.drain.flying.At(e.sock) < st.drain.flying.At(e.sock))
  {
  }

  /** An io_uring_enter() given `added`; what it takes is the kernel's choice. */
  method ChooseEnter(env: Env, added: nat) returns (enter: Enter)
    ensures MayEnter(env, added, enter)
  {
    enter := *;
    if !MayEnter(env, added, enter) {
      enter := Accepted(added);
    }
  }

  /** A pending datagram's completion is at or behind the head, and was looked at. */
  lemma PendingIsHeld(env: Env, log: seq<Event>)
    requires After(env, log).drain.pending > 0
    ensures After(env, log).drain.cq != [] && After(env, log).drain.scan > 0
  {
    DrainSound(env, log);
  }

  /** From one history to the next, core was given what r returns and nothing else. */
  ghost predicate Grew(before: Per<seq<Hand>>, after: Per<seq<Hand>>, r: Answer) {
    && Delivered(after.wellKnown) == Grown(before.wellKnown, r, WellKnown)
    && Delivered(after.data) == Grown(before.data, r, Data)
  }

  function Grown(hands: seq<Hand>, r: Answer, s: Sock): seq<Datagram> {
    if r.Got? && r.sock == s then Delivered(hands) + r.group else Delivered(hands)
  }

  lemma Handing(given: Per<seq<Hand>>, s: Sock, h: Hand)
    ensures Grew(given, given, Nothing)
    ensures Grew(given, given.With(s, given.At(s) + [h]), if h.lost then Nothing else Got(s, h.group))
  {
    HandedAppend(given.At(s), h);
  }

  lemma HeadOut(st: State)
    requires st.drain.cq != [] && st.drain.pending > 0 && st.drain.scan > 0
    ensures var next, c := HeadTaken(st), st.drain.cq[0];
            && next.gro == st.gro && next.batch == st.batch && next.net == st.net
            && next.drain.running == st.drain.running && next.drain.armed == st.drain.armed
            && |next.drain.cq| < |st.drain.cq| && (!c.Took? ==> next.drain.pending == st.drain.pending)
            && next.drain.split == (if Merged(c) then c.group else st.drain.split)
            && Grew(st.given, next.given, if Whole(c) then Got(c.sock, c.group) else Nothing)
  {
    var c := st.drain.cq[0];
    if c.Took? {
      Handing(st.given, c.sock, Hand(c.group, c.cut));
    }
  }

  lemma HeadsFull(env: Env, log: seq<Event>, s: Sock)
    ensures HeadFull(After(env, log).net, s)
  {
    RT.Reached(env, log);
  }

  lemma PlainUnlessOffload(env: Env, log: seq<Event>)
    requires !env.offload
    ensures After(env, log).gro.state == Plain
  {
    RT.Reached(env, log);
  }

  /** What one read returns: what is queued first, or with the option on its first datagram. */
  function ReadAnswer(st: State, s: Sock): Answer
    requires HeadFull(st.net, s)
  {
    if st.net.queue.At(s) == [] then Nothing
    else Got(s, if st.gro.state == Plain then st.net.queue.At(s)[0] else st.net.queue.At(s)[0][..1])
  }

  lemma ReadOut(st: State, s: Sock)
    requires HeadFull(st.net, s)
    ensures Grew(st.given, ReadOne(st, s).given, ReadAnswer(st, s))
  {
    if st.net.queue.At(s) != [] {
      var g := st.net.queue.At(s)[0];
      assert g[..1] == [g[0]];
      Handing(st.given, s, Hand(if st.gro.state == Plain then g else [g[0]], false));
    } else {
      Handing(st.given, s, Hand([], false));
    }
  }

  /** The switch and the queue after a read, and what it returns. */
  method ReadOff(gro: Gro, net: Net, s: Sock, ghost st: State) returns (gro': Gro, net': Net, r: Answer)
    requires HeadFull(net, s) && st.gro == gro && st.net == net && (gro.state == Plain || gro.state == On)
    requires gro.left == []
    ensures gro' == ReadOne(st, s).gro && net' == ReadOne(st, s).net && r == ReadAnswer(st, s)
    ensures gro'.state == Plain || gro'.state == On
    ensures r.Nothing? ==> gro'.left == []
  {
    if net.queue.At(s) == [] {
      return gro, net, Nothing;
    }
    var g := net.queue.At(s)[0];
    gro', net' := gro, Dequeue(net, s, 1);
    if gro.state == On {
      gro' := gro.(left := g[1..], from := s, quiet := if |g| > 1 || g[0].large then 0 else gro.quiet + 1);
      r := Got(s, g[..1]);
    } else {
      if gro.allowed && g[0].large {
        gro' := gro.(state := On, quiet := 0);
        net' := net'.(option := true);
      }
      r := Got(s, g);
    }
  }

  class Receiver {
    const env: Env
    const maxBatch: nat
    var gro: Gro
    var batch: Batch
    var drain: Drain
    var sq: seq<Sub>
    var net: Net
    var preferData: bool
    ghost var log: seq<Event>

    /** The fields are those of the run logged so far. */
    ghost predicate Tracks()
      reads this
    {
      var st := After(env, log);
      && (maxBatch > 1 ==> !env.offload)
      && gro == st.gro && batch == st.batch && drain == st.drain && sq == st.sq && net == st.net
    }

    /** The fields as a state of the machine, its history left out. */
    function Now(): State
      reads this
    {
      State(gro, batch, drain, sq, net, Per([], []), false)
    }

    /** Between two calls: no decision half made, no recvmsg left behind by a drain that was stopped. */
    ghost predicate Valid()
      reads this
    {
      Tracks() && gro.state != Deciding && (drain.running || drain.armed == {})
    }

    /** What core has been given from s so far. */
    ghost function Out(s: Sock): seq<Datagram>
      reads this
    {
      Delivered(After(env, log).given.At(s))
    }

    /** The call gave core what it returns, and nothing else. */
    twostate predicate Answers(r: Answer)
      reads this
    {
      Grew(old(After(env, log).given), After(env, log).given, r)
    }

    /** Nothing that was read waits to be handed out. */
    ghost predicate Spent()
      reads this
    {
      gro.left == [] && batch.held == [] && drain.split == [] && drain.pending == 0
    }

    /** Since the run was `from` steps long, s's queue was empty at some moment. */
    ghost predicate SawEmpty(from: nat, s: Sock)
      reads this
    {
      exists k :: from <= k <= |log| && After(env, log[..k]).net.queue.At(s) == []
    }

    twostate predicate GaveNothing()
      reads this
    {
      After(env, log).given == old(After(env, log).given)
    }

    constructor (env: Env, maxBatch: nat)
      requires maxBatch > 1 ==> !env.offload
      ensures Valid() && Out(WellKnown) == [] && Out(Data) == [] && log == []
      ensures this.env == env
    {
      this.env, this.maxBatch := env, maxBatch;
      var st := Initial(env);
      gro, batch, drain, sq, net, preferData, log := st.gro, st.batch, st.drain, [], st.net, false, [];
    }

    ghost method Record(e: Event)
      requires var was := After(env, log);
               Enabled(env, was, e)
               && var st := Step(env, was, e);
                  gro == st.gro && batch == st.batch && drain == st.drain && sq == st.sq && net == st.net
      requires maxBatch > 1 ==> !env.offload
      modifies `log
      ensures Tracks() && log == old(log) + [e]
      ensures After(env, log) == Step(env, old(After(env, log)), e)
    {
      RP.RunConcat(env, Initial(env), log, [e]);
      log := log + [e];
    }

    /** Any number of the kernel's steps. */
    method Interfere()
      requires Tracks()
      modifies `net, `drain, `log
      ensures old(log) <= log
      ensures Tracks() && GaveNothing()
      ensures drain == old(drain).(cq := drain.cq, flying := drain.flying, free := drain.free)
      ensures old(drain).cq <= drain.cq && Within(drain.flying, old(drain).flying)
      ensures net.now >= old(net).now
    {
      var script: seq<Event> := *;
      for i := 0 to |script|
        invariant Tracks() && GaveNothing() && old(log) <= log
        invariant drain == old(drain).(cq := drain.cq, flying := drain.flying, free := drain.free)
        invariant old(drain).cq <= drain.cq && Within(drain.flying, old(drain).flying)
        invariant net.now >= old(net).now
      {
        KernelStep(script[i]);
      }
    }

    method KernelStep(e: Event)
      requires Tracks()
      modifies `net, `drain, `log
      ensures old(log) <= log
      ensures Tracks() && GaveNothing()
      ensures drain == old(drain).(cq := drain.cq, flying := drain.flying, free := drain.free)
      ensures old(drain).cq <= drain.cq && Within(drain.flying, old(drain).flying)
      ensures net.now >= old(net).now
      ensures e.KernelEnd? && e.why != NoBuffers && Flies(old(drain), e.sock) ==>
                drain.flying.At(e.sock) < old(drain).flying.At(e.sock)
    {
      ghost var was := After(env, log);
      if IsKernel(e) && Enabled(env, Now(), e) {
        KernelAgrees(env, Now(), was, e);
        KernelShape(env, Now(), e);
        var st := Step(env, Now(), e);
        drain, net := st.drain, st.net;
        Record(e);
      }
    }

    /** A longer run has seen what a shorter one had. */
    lemma StillSaw(before: seq<Event>)
      requires before <= log
      ensures forall from: nat, s {:trigger SawEmpty(from, s)} ::
                (exists k :: from <= k <= |before| && After(env, before[..k]).net.queue.At(s) == []) ==> SawEmpty(from, s)
    {
      forall from: nat, s, k | from <= k <= |before| && After(env, before[..k]).net.queue.At(s) == []
        ensures SawEmpty(from, s)
      {
        assert log[..k] == before[..k];
      }
    }

    // ---- What was read and not yet handed out

    /** gro_take_pending(): the next datagram of the last merged read. */
    method GroTakePending() returns (r: Answer)
      requires Tracks()
      modifies `gro, `log
      ensures old(log) <= log
      ensures Tracks() && Answers(r)
      ensures r == if old(gro).left == [] then Nothing else Got(gro.from, [old(gro).left[0]])
      ensures gro == if old(gro).left == [] then old(gro) else old(gro).(left := old(gro).left[1..])
    {
      if gro.left == [] {
        return Nothing;
      }
      Handing(After(env, log).given, gro.from, Hand([gro.left[0]], false));
      r := Got(gro.from, [gro.left[0]]);
      gro := gro.(left := gro.left[1..]);
      Record(HandMerged);
    }

    /** rx_take_pending(): the next datagram of the last batch. */
    method RxTakePending() returns (r: Answer)
      requires Tracks() && gro.left == []
      modifies `batch, `log
      ensures old(log) <= log
      ensures Tracks() && Answers(r)
      ensures r == if old(batch).held == [] then Nothing else Got(batch.from, old(batch).held[0])
      ensures batch == if old(batch).held == [] then old(batch) else old(batch).(held := old(batch).held[1..])
    {
      if batch.held == [] {
        return Nothing;
      }
      Handing(After(env, log).given, batch.from, Hand(batch.held[0], false));
      r := Got(batch.from, batch.held[0]);
      batch := batch.(held := batch.held[1..]);
      Record(HandBatch);
    }

    // ---- The drain

    /** drain_look(). */
    method DrainLook()
      requires Tracks()
      modifies `net, `drain, `log
      ensures old(log) <= log
      ensures Tracks() && GaveNothing()
      ensures drain.running == old(drain).running && Within(drain.flying, old(drain).flying)
      ensures drain.split == old(drain).split && drain.scan == |drain.cq|
      ensures Steady(env) ==> forall s :: s in drain.armed <==> Flies(drain, s)
      ensures !old(drain).running ==> drain.rearm == old(drain).rearm
      ensures net.now >= old(net).now
    {
      Interfere();
      DrainSound(env, log);
      LookedBooks(drain, Data);
      if Steady(env) {
        LookedKeeps(drain);
      }
      drain := Looked(drain);
      Record(Look);
    }

    /** One io_uring_enter() of drain_stop(): the first with the cancellations queued for it. */
    method StopEnter(to: nat, first: bool) returns (enter: Enter)
      requires Tracks() && !drain.running && if first then to == |Cancels(drain.armed)| else to <= |sq|
      modifies `drain, `sq, `log
      ensures old(log) <= log
      ensures Tracks() && GaveNothing() && MayEnter(env, to, enter)
      ensures drain == old(drain).(cq := drain.cq, flying := drain.flying, free := drain.free)
      ensures enter.Accepted? ==> to - enter.n <= |sq|
      ensures enter.Refused? ==> to <= |sq|
      ensures Steady(env) ==> drain.flying == old(drain).flying
    {
      enter := ChooseEnter(env, to);
      var subs := if first then Cancels(drain.armed) else [];
      DrainSound(env, log);
      RP.EnteredBooks(Now(), subs, enter);
      if Steady(env) {
        RP.EnteredWhole(env, Now(), subs, enter);
        RP.SubmitNotes(drain, subs);
      }
      var st := Entered(Now(), subs, enter);
      drain, sq := st.drain, st.sq;
      Record(if first then CancelAll(enter) else EnterAgain(to, enter));
    }

    /** drain_refused(): the ring goes, with what it holds. */
    method DrainRefused()
      requires Tracks() && !Steady(env) && !drain.running && drain.rearm == {}
      modifies `drain, `sq, `log
      ensures old(log) <= log
      ensures Tracks() && GaveNothing() && drain == Released(old(drain)) && sq == []
    {
      drain, sq := Released(drain), [];
      Record(Refuse);
    }

    /** The wait of that call, and a look: a prompt kernel ends what it was asked to cancel, one wait a recvmsg. */
    method StopWait()
      requires Tracks() && !drain.running
      requires Steady(env) ==> forall s :: s in drain.armed ==> Flies(drain, s)
      modifies `net, `drain, `log
      ensures old(log) <= log
      ensures Tracks() && GaveNothing() && net.now >= old(net).now
      ensures !drain.running && drain.rearm == old(drain).rearm && drain.split == old(drain).split
      ensures Steady(env) ==> forall s :: s in drain.armed <==> Flies(drain, s)
      ensures Steady(env) && old(drain).armed != {} ==> drain.armed < old(drain).armed
      ensures Steady(env) && old(drain).armed == {} ==> drain.armed == {}
    {
      DrainSound(env, log);
      if Steady(env) && drain.armed != {} {
        var s :| s in drain.armed;
        KernelStep(KernelEnd(s, Cancelled));
        assert drain.flying.At(s) == 0;
      }
      DrainLook();
    }

    /**
     drain_stop(): each recvmsg believed in flight is cancelled and waited for, until `tries` waits have passed. An
     error but an interrupt or a timeout is final.
     */
    method DrainStop()
      requires Tracks() && (drain.running || drain.armed == {})
      modifies `net, `drain, `sq, `log
      ensures old(log) <= log
      ensures Tracks() && GaveNothing()
      ensures !drain.running && drain.armed == {} && drain.split == old(drain).split
      ensures Steady(env) ==> drain.flying == Per(0, 0) && sq == []
      ensures !old(drain).running ==> drain == old(drain)
      ensures net.now >= old(net).now
    {
      if drain.running {
        drain := drain.(running := false, rearm := {});
        Record(Stop);
        DrainLook();
        CancelAndWait();
      }
      DrainSound(env, log);
      assert Steady(env) ==> !Flies(drain, WellKnown) && !Flies(drain, Data);
    }

    method CancelAndWait()
      requires Tracks() && !drain.running && drain.rearm == {}
      requires Steady(env) ==> forall s :: s in drain.armed ==> Flies(drain, s)
      modifies `net, `drain, `sq, `log
      ensures old(log) <= log
      ensures Tracks() && GaveNothing() && net.now >= old(net).now
      ensures !drain.running && drain.armed == {} && drain.split == old(drain).split
    {
      var tries: nat, interrupted: bool := *, *;
      var toSubmit: nat, first := |Cancels(drain.armed)|, true;
      while (drain.armed != {} || toSubmit != 0) && (Steady(env) || tries > 0)
        invariant Tracks() && GaveNothing() && net.now >= old(net).now && old(log) <= log
        invariant !drain.running && drain.rearm == {} && drain.split == old(drain).split
        invariant if first then toSubmit == |Cancels(drain.armed)| else toSubmit <= |sq|
        invariant Steady(env) ==> (forall s :: s in drain.armed ==> Flies(drain, s)) && (first || toSubmit == 0)
        decreases if Steady(env) then 0 else tries, drain.armed
      {
        var enter := StopEnter(toSubmit, first);
        first := false;
        if enter.Accepted? {
          toSubmit := toSubmit - enter.n;
        } else if toSubmit != 0 && !interrupted {
          DrainRefused();
          return;
        }
        StopWait();
        tries, interrupted := if tries > 0 then tries - 1 else 0, *;
      }
      if drain.armed != {} {
        DrainRefused();
      }
    }

    /** drain_rearm_now(): once an eighth of the buffers is back, an overrun's recvmsg goes in again. */
    method DrainRearmNow()
      requires Tracks()
      modifies `net, `drain, `sq, `log
      ensures old(log) <= log
      ensures Tracks() && GaveNothing()
      ensures drain.running == old(drain).running && drain.split == old(drain).split
      ensures drain.running && drain.rearm != {} ==> drain.returned < (drain.count + REARM_SHARE - 1) / REARM_SHARE
      ensures !old(drain).running ==> drain == old(drain)
    {
      if !drain.running {
        return;
      }
      DrainLook();
      if drain.rearm == {} || drain.returned < (drain.count + REARM_SHARE - 1) / REARM_SHARE {
        return;
      }
      var enter := ChooseEnter(env, |Recvs(drain.rearm)|);
      DrainSound(env, log);
      RP.EnteredBooks(Now(), Recvs(drain.rearm), enter);
      var st := Rearmed(Now(), enter);
      drain, sq := st.drain, st.sq;
      Record(Rearm(enter));
    }

    /** drain_take_split(): the next datagram of a merged read the drain took. */
    method DrainTakeSplit() returns (r: Answer)
      requires Tracks() && gro.left == [] && batch.held == [] && drain.split != []
      modifies `net, `drain, `sq, `log
      ensures old(log) <= log
      ensures Tracks() && Answers(r)
      ensures r == Got(old(drain).splitFrom, [old(drain).split[0]])
      ensures drain.running == old(drain).running && (drain.running || drain.armed == old(drain).armed)
    {
      r := Got(drain.splitFrom, [drain.split[0]]);
      Handing(After(env, log).given, drain.splitFrom, Hand([drain.split[0]], false));
      drain := drain.(split := drain.split[1..]);
      if drain.split == [] {
        drain := GiveBack(drain);
      }
      Record(HandSplit);
      if drain.split == [] {
        DrainRearmNow();
      }
    }

    /** drain_took_more(). */
    method DrainTookMore(keep: bool) returns (more: bool)
      requires Tracks() && drain.pending == 0 && (drain.running || drain.armed == {})
      modifies `net, `drain, `sq, `log
      ensures old(log) <= log
      ensures Tracks() && GaveNothing() && drain.split == old(drain).split
      ensures more <==> drain.pending > 0
      ensures drain.running ==> old(drain).running && (more || (keep && drain.armed == {WellKnown, Data}))
      ensures !old(drain).running ==> drain == old(drain)
      ensures drain.running || drain.armed == {}
    {
      if !drain.running {
        return false;
      }
      DrainLook();
      if drain.pending != 0 {
        return true;
      }
      if keep && drain.armed == {WellKnown, Data} {
        return false;
      }
      DrainStop();
      return drain.pending != 0;
    }

    /** The oldest completion leaves the ring: let go, dropped as truncated, split, or whole. */
    method DrainPop() returns (head: Completion)
      requires Tracks() && gro.left == [] && batch.held == [] && drain.split == [] && drain.pending > 0
      modifies `drain, `log
      ensures old(log) <= log
      ensures Tracks() && Answers(if Whole(head) then Got(head.sock, head.group) else Nothing)
      ensures drain.running == old(drain).running && drain.armed == old(drain).armed
      ensures |drain.cq| < |old(drain).cq| && (!head.Took? ==> drain.pending == old(drain).pending)
      ensures drain.split == if Merged(head) then head.group else []
    {
      PendingIsHeld(env, log);
      HeadOut(After(env, log));
      head := drain.cq[0];
      drain := Popped(drain);
      Record(TakeHead);
    }

    /** One turn of rx_take_drained()'s inner loop: a datagram returned, or on to the next completion. */
    method DrainTakeHead() returns (r: Answer)
      requires Tracks() && gro.left == [] && batch.held == [] && drain.split == [] && drain.pending > 0
      requires drain.running || drain.armed == {}
      modifies `net, `drain, `sq, `log
      ensures old(log) <= log
      ensures Tracks() && Answers(r) && (r.Got? || r.Nothing?)
      ensures drain.running || drain.armed == {}
      ensures drain.running ==> old(drain).running
      ensures r.Nothing? ==> drain.split == [] && (drain.running ==> drain.pending == old(drain).pending)
      ensures r.Nothing? ==> drain.running != old(drain).running || |drain.cq| < |old(drain).cq|
    {
      var head := DrainPop();
      if !head.Took? {
        return Nothing;
      }
      if head.cut {
        DrainStop();
        return Nothing;
      }
      if Merged(head) {
        r := DrainTakeSplit();
        return;
      }
      DrainRearmNow();
      return Got(head.sock, head.group);
    }

    /** rx_take_drained(). */
    method RxTakeDrained(keep: bool) returns (r: Answer)
      requires Tracks() && gro.left == [] && batch.held == [] && (drain.running || drain.armed == {})
      modifies `net, `drain, `sq, `log
      ensures old(log) <= log
      ensures Tracks() && Answers(r) && (r.Got? || r.Nothing?)
      ensures drain.running || drain.armed == {}
      ensures r.Nothing? ==> drain.pending == 0 && drain.split == []
      ensures r.Nothing? && drain.running ==> keep && drain.armed == {WellKnown, Data}
    {
      if drain.split != [] {
        r := DrainTakeSplit();
        return;
      }
      while true
        invariant Tracks() && Answers(Nothing) && drain.split == [] && old(log) <= log
        invariant drain.running || drain.armed == {}
        decreases if !drain.running then 0 else if drain.pending > 0 then 1 else 2
      {
        ghost var began := drain;
        while drain.pending != 0
          invariant Tracks() && Answers(Nothing) && drain.split == [] && old(log) <= log
          invariant drain.running || drain.armed == {}
          invariant drain.running ==> began.running && drain.pending == began.pending
          decreases drain.running, |drain.cq|
        {
          r := DrainTakeHead();
          if r.Got? {
            return;
          }
        }
        var more := DrainTookMore(keep);
        if !more {
          return Nothing;
        }
      }
    }

    // ---- Receive offload's switch

    /** gro_turn_on() from a settle: what may be merged is never read without the option on. */
    method GroAbort()
      requires Tracks() && !drain.running && drain.armed == {} && (gro.state == Settling || gro.state == Deciding)
      modifies `gro, `net, `log
      ensures old(log) <= log
      ensures Tracks() && GaveNothing()
      ensures gro == old(gro).(state := On, quiet := QUIET_READS / 2) && net == old(net).(option := true)
    {
      gro := gro.(state := On, quiet := QUIET_READS / 2);
      net := net.(option := true);
      Record(Abort);
    }

    /** gro_maybe_settle(); `delay`: from the option going off to the clock being read. */
    method GroMaybeSettle(delay: nat)
      requires Tracks() && gro.left == [] && batch.held == [] && drain.split == [] && drain.pending == 0
      requires !drain.running && drain.armed == {} && gro.state != Deciding
      modifies `gro, `net, `log
      ensures old(log) <= log
      ensures Tracks() && GaveNothing()
      ensures gro.left == [] && gro.state != Deciding
      ensures if old(gro).state == On && old(gro).quiet >= QUIET_READS
              then gro.state == Settling && gro.settleAt == net.now + delay + SETTLE_NS && !net.option
              else gro == old(gro) && net == old(net)
    {
      if gro.state != On || gro.quiet < QUIET_READS {
        return;
      }
      gro := gro.(state := Settling, settleAt := net.now + delay + SETTLE_NS);
      net := net.(option := false);
      Record(Settle(delay));
    }

    /** The second queue's check: plain if it is empty too. */
    method GroCommit()
      requires Tracks() && !drain.running && drain.armed == {} && gro.state == Deciding
      modifies `gro, `net, `log
      ensures old(log) <= log
      ensures Tracks() && GaveNothing()
      ensures (gro.state == Plain || gro.state == On) && gro.left == old(gro).left
      ensures gro.state == Plain && SettleSafe(env) ==> NoneMerged(net)
    {
      if !LooksEmpty(net.queue.data) {
        GroAbort();
        return;
      }
      gro := gro.(state := Plain);
      Record(Commit);
      RT.Reached(env, log);
    }

    /** gro_settle_end(): the deadline reached, plain again if both queues are seen empty, otherwise the option on. */
    method GroSettleEnd()
      requires Tracks() && !drain.running && drain.armed == {} && gro.state != Deciding
      requires gro.state == Settling ==> net.now + env.early >= gro.settleAt
      modifies `gro, `net, `drain, `log
      ensures old(log) <= log
      ensures Tracks() && GaveNothing()
      ensures drain == old(drain).(cq := drain.cq, flying := drain.flying, free := drain.free)
      ensures gro.state != Deciding && gro.state != Settling && gro.left == old(gro).left
      ensures old(gro).state == Settling && gro.state == Plain && SettleSafe(env) ==> NoneMerged(net)
    {
      if gro.state != Settling {
        return;
      }
      Interfere();
      if !LooksEmpty(net.queue.wellKnown) {
        GroAbort();
        return;
      }
      gro := gro.(state := Deciding);
      Record(SeeEmpty);
      Interfere();
      GroCommit();
    }

    /** gro_settle_decide(). */
    method GroSettleDecide()
      requires Tracks() && !drain.running && drain.armed == {} && gro.state != Deciding
      modifies `gro, `net, `drain, `log
      ensures old(log) <= log
      ensures Tracks() && GaveNothing()
      ensures drain == old(drain).(cq := drain.cq, flying := drain.flying, free := drain.free)
      ensures gro.state != Deciding && gro.left == old(gro).left
      ensures gro.state == Settling ==> net.now < gro.settleAt
    {
      Interfere();
      if gro.state == Settling && net.now >= gro.settleAt {
        GroSettleEnd();
      }
    }

    // ---- Waiting

    /**
     A wait of n ns (0: none given): any wake-up, or a timeout no earlier than `early` before its end. The wait ring
     reads only while the sockets read plain (wr_use()).
     */
    method Wait(n: nat) returns (wake: Wake)
      requires Tracks()
      modifies `net, `drain, `log
      ensures old(log) <= log
      ensures Tracks() && GaveNothing()
      ensures drain == old(drain).(cq := drain.cq, flying := drain.flying, free := drain.free)
      ensures net.now >= old(net).now
      ensures wake.TimedOut? && n > 0 ==> net.now + env.early >= old(net).now + n
      ensures wake.Woken? && wake.taken ==> gro.state == Plain && net.queue.data != [] && Data in wake.ready
    {
      var start := net.now;
      Interfere();
      wake := *;
      if wake.TimedOut? && n > 0 && net.now + env.early < start + n {
        wake := Woken({}, false, false, false, false);
      }
      if wake.Woken? && wake.taken && (gro.state != Plain || net.queue.data == [] || Data !in wake.ready) {
        wake := wake.(taken := false);
      }
    }

    /** rx_wait_for(): a wait that stops at a settle's deadline, decides it, and goes on. */
    method RxWaitFor(timeout: nat) returns (wake: Wake)
      requires Tracks() && !drain.running && drain.armed == {} && gro.state != Deciding
      modifies `gro, `net, `drain, `log
      ensures old(log) <= log
      ensures Tracks() && GaveNothing()
      ensures drain == old(drain).(cq := drain.cq, flying := drain.flying, free := drain.free)
      ensures gro.state != Deciding && gro.left == old(gro).left
      ensures wake.Woken? && wake.taken ==> gro.state == Plain && net.queue.data != [] && Data in wake.ready
    {
      var left := timeout;
      if gro.state == Settling {
        Interfere();
        var start := net.now;
        if start < gro.settleAt && (timeout == 0 || gro.settleAt - start < timeout) {
          wake := Wait(gro.settleAt - start);
          if wake.Woken? {
            return;
          }
          if timeout > 0 {
            Interfere();
            if net.now - start >= timeout {
              GroSettleEnd();
              return TimedOut;
            }
            left := timeout - (net.now - start);
          }
          GroSettleEnd();
        } else {
          GroSettleDecide();
        }
      }
      wake := Wait(left);
    }

    // ---- Reading a socket

    /** The read itself. */
    method ReadNow(s: Sock) returns (r: Answer)
      requires Tracks() && gro.left == [] && batch.held == [] && drain.split == [] && drain.pending == 0
      requires !drain.running && drain.armed == {} && (gro.state == Plain || gro.state == On)
      modifies `gro, `net, `log
      ensures old(log) <= log
      ensures Tracks() && Answers(r) && (r.Got? || r.Nothing?) && (r.Got? ==> r.sock == s)
      ensures gro.state == Plain || gro.state == On
      ensures r.Nothing? ==> gro.left == [] && net.queue.At(s) == []
    {
      HeadsFull(env, log, s);
      ReadOut(After(env, log), s);
      gro, net, r := ReadOff(gro, net, s, After(env, log));
      Record(Read(s));
    }

    /** rx_read_one(): a settle is aborted first; what is queued first is read, merged or not as the state allows. */
    method RxReadOne(s: Sock) returns (r: Answer)
      requires Tracks() && gro.left == [] && batch.held == [] && drain.split == [] && drain.pending == 0
      requires !drain.running && drain.armed == {} && gro.state != Deciding
      modifies `gro, `net, `drain, `log
      ensures old(log) <= log
      ensures Tracks() && Answers(r) && (r.Got? || r.Nothing?) && (r.Got? ==> r.sock == s)
      ensures drain == old(drain).(cq := drain.cq, flying := drain.flying, free := drain.free)
      ensures gro.state != Deciding && gro.state != Settling
      ensures r.Nothing? ==> gro.left == [] && net.queue.At(s) == []
    {
      if gro.state == Settling {
        GroAbort();
      }
      Interfere();
      r := ReadNow(s);
    }

    /** wr_take(): the datagram the wait ring's recvmsg read. */
    method WrTake() returns (r: Answer)
      requires Tracks() && gro.left == [] && batch.held == [] && drain.split == [] && drain.pending == 0
      requires !drain.running && drain.armed == {} && gro.state == Plain && net.queue.data != []
      modifies `gro, `net, `log
      ensures old(log) <= log
      ensures Tracks() && Answers(r) && r.Got? && r.sock == Data
      ensures gro.state == Plain || gro.state == On
    {
      HeadsFull(env, log, Data);
      ReadOut(After(env, log), Data);
      gro, net, r := ReadOff(gro, net, Data, After(env, log));
      Record(RingRead);
    }

    /** rx_fill(): one read, or one recvmmsg() of up to maxBatch. */
    method RxFill(s: Sock) returns (r: Answer)
      requires Tracks() && gro.left == [] && batch.held == [] && drain.split == [] && drain.pending == 0
      requires !drain.running && drain.armed == {} && gro.state != Deciding
      modifies `gro, `batch, `net, `drain, `log
      ensures old(log) <= log
      ensures Tracks() && Answers(r) && (r.Got? || r.Nothing?) && (r.Got? ==> r.sock == s)
      ensures drain == old(drain).(cq := drain.cq, flying := drain.flying, free := drain.free)
      ensures gro.state != Deciding
      ensures r.Nothing? ==> gro.left == [] && batch.held == [] && net.queue.At(s) == []
    {
      if maxBatch <= 1 {
        r := RxReadOne(s);
        return;
      }
      Interfere();
      if net.queue.At(s) == [] {
        return Nothing;
      }
      var n := if |net.queue.At(s)| < maxBatch then |net.queue.At(s)| else maxBatch;
      r := FillNow(s, n);
    }

    method FillNow(s: Sock, n: nat) returns (r: Answer)
      requires Tracks() && gro.left == [] && batch.held == [] && drain.split == [] && drain.pending == 0
      requires !drain.running && drain.armed == {} && maxBatch > 1 && 0 < n <= |net.queue.At(s)|
      modifies `batch, `net, `log
      ensures old(log) <= log
      ensures Tracks() && Answers(r) && r.Got? && r.sock == s && gro.state == Plain
    {
      PlainUnlessOffload(env, log);
      var read := net.queue.At(s)[..n];
      Handing(After(env, log).given, s, Hand(read[0], false));
      assert read[1..] == net.queue.At(s)[1..n];
      net := Dequeue(net, s, n);
      batch := Batch(read[1..], s);
      Record(Fill(s, n));
      r := Got(s, read[0]);
    }

    // ---- The calls core makes

    /**
     tt_rx_drain_start(): whether a drain runs; `count`: the buffers a set-up gives it. A refusal for the hold-off or for
     good, growth after an overrun, classic buffers and what the kernel takes of the submissions are the environment's
     choice. A submission that fails leaves what it queued.
     */
    method DrainStart(bytes: nat, count: nat) returns (runs: bool)
      requires Valid() && count > 0
      modifies `net, `drain, `sq, `log
      ensures old(log) <= log
      ensures Valid() && GaveNothing()
      ensures runs == drain.running
      ensures old(drain).running && bytes == 0 ==> drain == old(drain)
      ensures Steady(env) && old(drain).running && old(drain).split != [] && bytes <= MAX_READ ==> drain == old(drain)
      ensures runs && !old(drain).running ==> SizeFor(gro.state, bytes) <= drain.size
    {
      var grows: bool, refused: bool, classic: bool := *, *, *;
      var held := drain.pending != 0 || drain.split != [];
      if drain.running {
        DrainSound(env, log);
        RP.SizeForCovers(gro.state, bytes);
        if bytes == 0 || (SizeFor(gro.state, bytes) <= drain.size && !(grows && !held)) {
          return true;
        }
        DrainStop();
        held := drain.pending != 0 || drain.split != [];
      }
      if refused || bytes == 0 || (held && SizeFor(gro.state, bytes) > drain.size) {
        return false;
      }
      if SizeFor(gro.state, bytes) > drain.size || (grows && !held) {
        DrainRebuild(bytes, count, classic);
      }
      if drain.classic && held {
        return false;
      }
      runs := DrainSubmit(bytes);
    }

    /** The start's submissions: the drain runs unless io_uring_enter() failed. */
    method DrainSubmit(bytes: nat) returns (runs: bool)
      requires Tracks() && !drain.running && drain.armed == {} && gro.state != Deciding
      requires drain.classic ==> drain.pending == 0 && drain.split == []
      requires SizeFor(gro.state, bytes) <= drain.size
      modifies `drain, `sq, `log
      ensures old(log) <= log
      ensures Tracks() && GaveNothing() && runs == drain.running && drain.size == old(drain).size
      ensures drain.armed == if runs then {WellKnown, Data} else {}
      ensures !runs ==> drain == old(drain) && sq == old(sq) + StartSubs(drain.classic)
    {
      var subs := StartSubs(drain.classic);
      var enter := ChooseEnter(env, |subs|);
      DrainSound(env, log);
      RP.EnteredBooks(Now(), subs, enter);
      StartedShape(Now(), After(env, log), enter);
      var st := Entered(Now(), subs, enter);
      drain, sq := st.drain, st.sq;
      runs := enter.Accepted?;
      if runs {
        drain := drain.(running := true, armed := {WellKnown, Data});
      }
      Record(Start(bytes, enter));
    }

    /** drain_release() and drain_setup(). */
    method DrainRebuild(bytes: nat, count: nat, classic: bool)
      requires count > 0 && Tracks() && !drain.running && drain.armed == {} && drain.pending == 0 && drain.split == []
      modifies `drain, `sq, `log
      ensures old(log) <= log
      ensures Tracks() && GaveNothing()
      ensures drain == Rebuilt(old(drain), gro.state, bytes, count, classic) && sq == []
    {
      drain, sq := Rebuilt(drain, gro.state, bytes, count, classic), [];
      Record(Rebuild(bytes, count, classic));
    }

    /** What was read and not handed out yet, in the order the layers hold it. */
    method TakeHeld(keep: bool) returns (r: Answer)
      requires Valid()
      modifies `gro, `batch, `net, `drain, `sq, `log
      ensures old(log) <= log
      ensures Valid() && Answers(r) && (r.Got? || r.Nothing?) && gro.state == old(gro).state
      ensures r.Nothing? ==> Spent() && (drain.running ==> keep)
    {
      r := GroTakePending();
      if r.Nothing? {
        r := RxTakePending();
      }
      if r.Nothing? {
        r := RxTakeDrained(keep);
      }
    }

    /** tt_receive(); `delay` as for GroMaybeSettle. */
    method Receive(timeout: nat, delay: nat) returns (r: Answer)
      requires Valid()
      modifies `gro, `batch, `net, `drain, `sq, `preferData, `log
      ensures old(log) <= log
      ensures Valid() && Answers(r)
      ensures !r.Got? ==> Spent() && !drain.running
    {
      r := TakeHeld(false);
      if r.Got? {
        return;
      }
      GroMaybeSettle(delay);
      var wake := RxWaitFor(timeout);
      if wake.TimedOut? {
        return Nothing;
      }
      if wake.ready == {} && wake.writable && !wake.bell && !wake.signal {
        return Nothing;
      }
      if wake.signal && !wake.taken {
        return Interrupted;
      }
      if wake.ready == {} && wake.bell {
        return Rung;
      }
      var s := if Data in wake.ready && (WellKnown !in wake.ready || preferData) then Data else WellKnown;
      if wake.ready == {WellKnown, Data} {
        preferData := !preferData;
      }
      if wake.taken {
        r := WrTake();
      } else {
        r := RxReadOne(s);
      }
    }

    /** tt_try_receive(); `idle`: the sockets it skips (IdleSockets). */
    method TryReceive(idle: set<Sock>) returns (r: Answer)
      requires Valid()
      modifies `gro, `batch, `net, `drain, `sq, `preferData, `log
      ensures old(log) <= log
      ensures Valid() && Answers(r) && (r.Got? || r.Nothing?)
      ensures r.Nothing? ==> Spent()
      ensures r.Nothing? && !drain.running ==> forall s :: s !in idle ==> SawEmpty(|old(log)|, s)
    {
      if !drain.running && drain.pending == 0 && drain.split == [] {
        GroSettleDecide();
      }
      r := TakeHeld(true);
      if r.Got? || drain.running {
        return;
      }
      var order := if preferData then [Data, WellKnown] else [WellKnown, Data];
      preferData := !preferData;
      for i := 0 to 2
        invariant Valid() && Answers(r) && r.Nothing? && !drain.running && Spent() && old(log) <= log
        invariant forall j :: 0 <= j < i && order[j] !in idle ==> SawEmpty(|old(log)|, order[j])
      {
        if order[i] !in idle {
          ghost var before := log;
          r := RxFill(order[i]);
          if r.Got? {
            return;
          }
          assert log[..|log|] == log && After(env, log[..|log|]).net.queue.At(order[i]) == [];
          StillSaw(before);
        }
      }
      forall s | s !in idle
        ensures SawEmpty(|old(log)|, s)
      {
        assert s == order[0] || s == order[1];
      }
    }
  }

  /** `count`: how many buffers beyond the one a set-up always gives. */
  datatype Call = Receive(timeout: nat, delay: nat) | TryReceive(idle: set<Sock>) | DrainStart(bytes: nat, count: nat)

  /** What a sequence of answers brought from s. */
  function GotFrom(answers: seq<Answer>, s: Sock): seq<Datagram> {
    if answers == [] then [] else
    var last := answers[|answers| - 1];
    GotFrom(answers[..|answers| - 1], s) + if last.Got? && last.sock == s then last.group else []
  }

  lemma OneAnswer(answers: seq<Answer>, r: Answer, s: Sock)
    ensures GotFrom(answers + [r], s) == GotFrom(answers, s) + if r.Got? && r.sock == s then r.group else []
  {
    Appended(answers, r);
  }

  /**
   Any sequence of calls, from bind on, in any environment: the answers for a socket, put together, are what core was
   given from it. In a safe one that is what arrived there first, in order, each datagram alone, with exactly the
   datagrams the drain counted as truncated missing - unless some drain was started in a settle over a merged group.
   */
  method Serve(receiver: Receiver, calls: seq<Call>) returns (answers: seq<Answer>)
    requires receiver.Valid() && receiver.log == []
    modifies receiver
    ensures receiver.Valid() && |answers| == |calls|
    ensures GotFrom(answers, WellKnown) == receiver.Out(WellKnown) && GotFrom(answers, Data) == receiver.Out(Data)
    ensures var end := After(receiver.env, receiver.log);
            && Losses(end.given.wellKnown) + Losses(end.given.data) == receiver.drain.truncated
            && (Safe(receiver.env) && !end.mixed ==> && RT.InOrder(end, WellKnown, GotFrom(answers, WellKnown))
                                                     && RT.InOrder(end, Data, GotFrom(answers, Data)))
  {
    answers := [];
    for i := 0 to |calls|
      invariant receiver.Valid() && |answers| == i
      invariant GotFrom(answers, WellKnown) == receiver.Out(WellKnown) && GotFrom(answers, Data) == receiver.Out(Data)
    {
      var r := Nothing;
      match calls[i] {
        case Receive(timeout, delay) => r := receiver.Receive(timeout, delay);
        case TryReceive(idle) => r := receiver.TryReceive(idle);
        case DrainStart(bytes, count) => var _ := receiver.DrainStart(bytes, count + 1);
      }
      OneAnswer(answers, r, WellKnown);
      OneAnswer(answers, r, Data);
      answers := answers + [r];
    }
    RT.ReceiveIsFifo(receiver.env, receiver.log, Data);
    if Safe(receiver.env) && !After(receiver.env, receiver.log).mixed {
      RT.OutInOrder(receiver.env, receiver.log, WellKnown);
      RT.OutInOrder(receiver.env, receiver.log, Data);
    }
  }
}
