/**
 What every run of the receive path guarantees: plain reads never meet a merged datagram, and each socket is one FIFO.
 Where a guarantee needs a condition, the runs that break it are given too.
 */
module ReceiveTheorems {
  import opened Sequences
  import opened Datagrams
  import opened Drains
  import opened ReceiveMachine
  import opened ReceiveProof

  predicate NoneUp(d: Drain) {
    && !d.running && d.armed == {} && d.flying == Per(0, 0) && d.cq == [] && d.scan == 0 && d.pending == 0
    && d.rearm == {} && d.count == 0 && d.size == 0 && d.split == [] && d.free == 0
  }

  lemma BoundDrain(d: Drain)
    requires NoneUp(d)
    ensures DrainInv(d) && Stocked(d) && !Draining(d)
  {
  }

  lemma NothingYet(st: State, s: Sock)
    requires NothingHeld(st) && st.drain.cq == []
    requires st.given.At(s) == [] && st.net.queue.At(s) == [] && st.net.arrived.At(s) == []
    ensures Conserved(st, s)
  {
    assert Ahead(st, s) == [];
  }

  lemma BoundFlow(st: State)
    requires NoneUp(st.drain) && st.sq == [] && st.gro.left == [] && st.batch.held == []
    requires st.given == Per([], []) && st.net.queue == Per([], []) && st.net.arrived == Per([], [])
    ensures Flow(st) && Provided(st) && Tidy(st)
  {
    BoundDrain(st.drain);
    NothingYet(st, WellKnown);
    NothingYet(st, Data);
  }

  lemma BoundBase(env: Env)
    ensures Base(env, Initial(env)) && GroInv(Initial(env))
  {
  }

  lemma Bound(env: Env)
    ensures Inv(env, Initial(env))
  {
    BoundBase(env);
    BoundFlow(Initial(env));
  }

  lemma Reached(env: Env, log: seq<Event>)
    ensures Inv(env, After(env, log))
  {
    Bound(env);
    RunKeeps(env, Initial(env), log);
  }

  lemma ReachedFlow(env: Env, log: seq<Event>)
    requires Steady(env)
    ensures Flow(After(env, log))
  {
    Reached(env, log);
  }

  lemma ReachedTidy(env: Env, log: seq<Event>)
    requires Safe(env)
    ensures Tidy(After(env, log))
  {
    Reached(env, log);
  }

  // ---- The switch

  /** In state PLAIN, whatever a read that asks for no size may meet is one datagram. */
  ghost predicate PlainIsSafe(st: State) {
    st.gro.state == Plain ==> AllSingle(st.net.queue.wellKnown) && AllSingle(st.net.queue.data)
  }

  lemma NoPlainReadMeetsMerged(env: Env, log: seq<Event>)
    requires SettleSafe(env)
    ensures PlainIsSafe(After(env, log))
  {
    Reached(env, log);
  }

  // ---- One FIFO per socket

  lemma {:induction false} SinglesInOrder(hands: seq<Hand>)
    requires AllHandedWell(hands, false)
    ensures |Handed(hands)| == |hands|
    ensures forall k :: 0 <= k < |hands| ==> hands[k].group == [Handed(hands)[k]]
  {
    if hands != [] {
      var n := |hands| - 1;
      SinglesInOrder(hands[..n]);
      assert hands[n].group == [hands[n].group[0]];
    }
  }

  /** The k-th thing taken off a socket is its k-th arrival, alone; what is not taken yet follows, in order. */
  ghost predicate Fifo(st: State, s: Sock) {
    var hands := st.given.At(s);
    && |hands| <= |st.net.arrived.At(s)|
    && (forall k :: 0 <= k < |hands| ==> hands[k].group == [st.net.arrived.At(s)[k]])
    && st.net.arrived.At(s)[|hands|..] == Held(st, s) + Flat(st.net.queue.At(s))
  }

  lemma FifoFrom(st: State, s: Sock)
    requires Conserved(st, s) && AllHandedWell(st.given.At(s), false)
    ensures Fifo(st, s)
  {
    SinglesInOrder(st.given.At(s));
    var given := Handed(st.given.At(s));
    Assoc(given, Held(st, s), Flat(st.net.queue.At(s)));
  }

  /**
   Every interleaving: what the drain counted as truncated is what was given up as lost. In a steady environment each
   socket's arrivals are, in order, those finished with, those held and those queued; with a safe settle too, and no
   drain started in a settle with something merged in its reach, each is handed out alone.
   */
  lemma ReceiveIsFifo(env: Env, log: seq<Event>, s: Sock)
    ensures var st := After(env, log);
            && Losses(st.given.wellKnown) + Losses(st.given.data) == st.drain.truncated
            && (Steady(env) ==> Handed(st.given.At(s)) + Held(st, s) + Flat(st.net.queue.At(s)) == st.net.arrived.At(s))
            && (Safe(env) && !st.mixed ==> Fifo(st, s))
  {
    LossesCounted(env, log);
    var st := After(env, log);
    if Steady(env) {
      ReachedFlow(env, log);
      assert Conserved(st, s);
    }
    if Safe(env) && !st.mixed {
      ReachedTidy(env, log);
      FifoFrom(st, s);
    }
  }

  lemma LossesCounted(env: Env, log: seq<Event>)
    ensures var st := After(env, log); Losses(st.given.wellKnown) + Losses(st.given.data) == st.drain.truncated
  {
    Reached(env, log);
  }

  /** `out` is `all` with exactly `n` of its elements missing, the rest in order. */
  ghost predicate AllBut(out: seq<Datagram>, all: seq<Datagram>, n: nat)
    decreases |all|
  {
    if all == [] then out == [] && n == 0
    else
      var last := |all| - 1;
      || (out != [] && out[|out| - 1] == all[last] && AllBut(out[..|out| - 1], all[..last], n))
      || (n > 0 && AllBut(out, all[..last], n - 1))
  }

  lemma {:induction false} DeliveredAllBut(hands: seq<Hand>)
    requires AllHandedWell(hands, false)
    ensures AllBut(Delivered(hands), Handed(hands), Losses(hands))
  {
    if hands != [] {
      var n := |hands| - 1;
      var h := hands[n];
      DeliveredAllBut(hands[..n]);
      assert h.group == [h.group[0]];
      Appended(Handed(hands[..n]), h.group[0]);
      Appended(Delivered(hands[..n]), h.group[0]);
      assert h.lost ==> Delivered(hands) == Delivered(hands[..n]);
    }
  }

  /** `out` is what arrived at s first, in order, but for those counted as lost. */
  ghost predicate InOrder(st: State, s: Sock, out: seq<Datagram>) {
    && |st.given.At(s)| <= |st.net.arrived.At(s)|
    && AllBut(out, st.net.arrived.At(s)[..|st.given.At(s)|], Losses(st.given.At(s)))
  }

  lemma InOrderFrom(st: State, s: Sock)
    requires Conserved(st, s) && AllHandedWell(st.given.At(s), false)
    ensures InOrder(st, s, Delivered(st.given.At(s)))
  {
    var hands := st.given.At(s);
    SinglesInOrder(hands);
    DeliveredAllBut(hands);
    Assoc(Handed(hands), Held(st, s), Flat(st.net.queue.At(s)));
    assert Handed(hands) == st.net.arrived.At(s)[..|hands|];
  }

  lemma OutInOrder(env: Env, log: seq<Event>, s: Sock)
    requires Safe(env) && !After(env, log).mixed
    ensures InOrder(After(env, log), s, Delivered(After(env, log).given.At(s)))
  {
    Reached(env, log);
    InOrderFrom(After(env, log), s);
  }

  // ---- The runs that break a guarantee

  const Small := Datagram(0, 100, false)
  const Fragment := Datagram(1, 1472, true)
  const MergedPair: Group := [Datagram(2, 100, false), Datagram(3, 100, false)]

  ghost predicate NothingQueued(net: Net) {
    net.queue.wellKnown == [] && net.queue.data == [] && net.flights.wellKnown == [] && net.flights.data == []
  }

  /** Receive offload on, `quiet` quiet reads behind it, nothing queued, in flight or held. */
  ghost predicate QuietOn(st: State, quiet: nat) {
    && st.gro.allowed && st.gro.state == On && st.gro.quiet == quiet && NothingHeld(st)
    && st.net.option && st.net.now == 0 && NothingQueued(st.net)
    && st.drain == NoDrain && st.sq == [] && !st.mixed
  }

  /** The group on the data socket, nothing else anywhere. */
  ghost predicate Lone(st: State, before: State, g: Group) {
    && st.gro == before.gro && st.batch == before.batch && st.drain == before.drain && st.sq == before.sq
    && st.mixed == before.mixed && st.given == before.given
    && st.net.now == before.net.now && st.net.option == before.net.option
    && st.net.queue.wellKnown == [] && st.net.queue.data == [g]
    && st.net.flights.wellKnown == [] && st.net.flights.data == []
  }

  lemma Arrives(env: Env, st: State, g: Group)
    requires NothingQueued(st.net) && Enabled(env, st, Test(Data, g))
    ensures Lone(Advance(env, Advance(env, st, Test(Data, g)), Enqueue(Data, 0)), st, g)
    ensures Advance(env, Advance(env, st, Test(Data, g)), Enqueue(Data, 0)).net.arrived
         == st.net.arrived.(data := st.net.arrived.data + g)
  {
    var tested := Advance(env, st, Test(Data, g));
    assert tested.net.flights.data == [Flight(g, st.net.now)] && tested.net.flights.wellKnown == [];
  }

  lemma RunOne(env: Env, st: State, e: Event)
    ensures RunFrom(env, st, [e]) == Advance(env, st, e)
  {
    assert [e][1..] == [];
  }

  lemma RunTwo(env: Env, st: State, a: Event, b: Event)
    ensures RunFrom(env, st, [a, b]) == Advance(env, Advance(env, st, a), b)
  {
    assert [a, b][1..] == [b];
    assert RunFrom(env, Advance(env, st, a), [b]) == Advance(env, Advance(env, st, a), b);
  }

  lemma RunThree(env: Env, st: State, a: Event, b: Event, c: Event)
    ensures RunFrom(env, st, [a, b, c]) == Advance(env, Advance(env, Advance(env, st, a), b), c)
  {
    assert [a, b, c][1..] == [b, c];
    RunTwo(env, Advance(env, st, a), b, c);
  }

  lemma FirstFragment(env: Env, st: State)
    requires Lone(st, Initial(env), [Fragment]) && env.offload
    ensures QuietOn(Advance(env, st, Read(Data)), 0)
  {
  }

  lemma QuietRead(env: Env, st: State, before: State, quiet: nat)
    requires QuietOn(before, quiet) && Lone(st, before, [Small])
    ensures QuietOn(Advance(env, st, Read(Data)), quiet + 1)
  {
  }

  lemma {:induction false} QuietRun(env: Env, quiet: nat) returns (log: seq<Event>)
    requires env.lag > 0 && env.offload
    ensures QuietOn(After(env, log), quiet)
  {
    var before, d := Initial(env), Fragment;
    log := [];
    if quiet > 0 {
      log := QuietRun(env, quiet - 1);
      before, d := After(env, log), Small;
    }
    var read := [Test(Data, [d]), Enqueue(Data, 0), Read(Data)];
    RunConcat(env, Initial(env), log, read);
    RunThree(env, before, Test(Data, [d]), Enqueue(Data, 0), Read(Data));
    Arrives(env, before, [d]);
    var queued := Advance(env, Advance(env, before, Test(Data, [d])), Enqueue(Data, 0));
    if quiet > 0 {
      QuietRead(env, queued, before, quiet - 1);
    } else {
      FirstFragment(env, queued);
    }
    log := log + read;
  }

  /** Core was handed several datagrams as one. */
  ghost predicate Glued(st: State, s: Sock) {
    exists k :: 0 <= k < |st.given.At(s)| && !st.given.At(s)[k].lost && |st.given.At(s)[k].group| > 1
  }

  lemma FifoIsSingle(st: State, s: Sock)
    requires Fifo(st, s)
    ensures !Glued(st, s)
  {
    forall k | 0 <= k < |st.given.At(s)|
      ensures |st.given.At(s)[k].group| == 1
    {
      assert st.given.At(s)[k].group == [st.net.arrived.At(s)[k]];
    }
  }

  // ---- A drain started in a settle
  //
  // It reads with the option off, so what was merged before comes without its size.

  ghost predicate NoStart(log: seq<Event>) {
    forall k :: 0 <= k < |log| ==> !log[k].Start?
  }

  predicate Unsized(c: Completion, s: Sock) {
    c.Took? && c.sock == s && !c.sized && !c.cut && |c.group| > 1
  }

  ghost predicate HoldsUnsized(cq: seq<Completion>, s: Sock) {
    exists k :: 0 <= k < |cq| && Unsized(cq[k], s)
  }

  lemma LookHolds(d: Drain, s: Sock)
    requires Booked(d) && HoldsUnsized(d.cq, s)
    ensures var e := Looked(d);
            && Booked(e) && HoldsUnsized(e.cq, s) && e.pending > 0 && e.scan == |e.cq| && |e.cq| <= |d.cq|
            && e.split == d.split
  {
    LookedBooks(d, s);
    var n := LookSuffix(d);
    var k :| 0 <= k < |d.cq| && Unsized(d.cq[k], s);
    assert Looked(d).cq[k - n] == d.cq[k];
  }

  lemma PopHolds(d: Drain, s: Sock)
    requires Booked(d) && HoldsUnsized(d.cq, s) && d.scan > 0 && d.pending > 0 && !Unsized(d.cq[0], s)
    ensures var e := Popped(d);
            Booked(e) && HoldsUnsized(e.cq, s) && |e.cq| < |d.cq|
  {
    PopBooks(d);
    var k :| 0 <= k < |d.cq| && Unsized(d.cq[k], s);
    assert Popped(d).cq[k - 1] == d.cq[k];
  }

  lemma RunAhead(env: Env, st: State, e: Event, more: seq<Event>)
    requires NoStart(more) && !e.Start?
    ensures NoStart([e] + more) && RunFrom(env, st, [e] + more) == RunFrom(env, Advance(env, st, e), more)
  {
    assert ([e] + more)[1..] == more;
  }

  /** What is handed out before the drain's completions. */
  function NextAhead(st: State): Event {
    if st.gro.left != [] then HandMerged else if st.batch.held != [] then HandBatch else HandSplit
  }

  lemma HandsOn(env: Env, st: State)
    requires st.gro.left != [] || st.batch.held != [] || st.drain.split != []
    ensures var next := Advance(env, st, NextAhead(st));
            && next.net == st.net && next.drain.cq == st.drain.cq && next.drain.scan == st.drain.scan
            && next.drain.pending == st.drain.pending
            && |next.gro.left| + |next.batch.held| + |next.drain.split|
               < |st.gro.left| + |st.batch.held| + |st.drain.split|
            && next.drain == if NextAhead(st).HandSplit? then SplitOne(st.drain) else st.drain
  {
  }

  /** What comes before a glued block is handed out, and then the block. */
  lemma {:induction false} HandsGlued(env: Env, st: State, s: Sock) returns (more: seq<Event>)
    requires Booked(st.drain) && HoldsUnsized(st.drain.cq, s)
    ensures NoStart(more) && Glued(RunFrom(env, st, more), s)
    decreases |st.drain.cq|, |st.gro.left| + |st.batch.held| + |st.drain.split|, 1
  {
    if st.gro.left != [] || st.batch.held != [] || st.drain.split != [] {
      HandsOn(env, st);
      more := HandsGlued(env, Advance(env, st, NextAhead(st)), s);
      RunAhead(env, st, NextAhead(st), more);
      return [NextAhead(st)] + more;
    }
    LookHolds(st.drain, s);
    var looked := Advance(env, st, Look);
    more := TakesGlued(env, looked, s);
    RunAhead(env, st, Look, more);
    more := [Look] + more;
  }

  lemma {:induction false} TakesGlued(env: Env, st: State, s: Sock) returns (more: seq<Event>)
    requires Booked(st.drain) && HoldsUnsized(st.drain.cq, s) && st.drain.pending > 0 && st.drain.scan == |st.drain.cq|
    requires st.gro.left == [] && st.batch.held == [] && st.drain.split == []
    ensures NoStart(more) && Glued(RunFrom(env, st, more), s)
    decreases |st.drain.cq|, 0, 0
  {
    var next := Advance(env, st, TakeHead);
    more := [];
    if Unsized(st.drain.cq[0], s) {
      assert next.given.At(s)[|st.given.At(s)|] == Hand(st.drain.cq[0].group, false);
    } else {
      PopHolds(st.drain, s);
      more := HandsGlued(env, next, s);
    }
    RunAhead(env, st, TakeHead, more);
    more := [TakeHead] + more;
  }

  lemma Enqueues(env: Env, st: State, s: Sock, k: nat)
    requires k < |st.net.flights.At(s)| && !Single(st.net.flights.At(s)[k].group)
    ensures var next := Advance(env, st, Enqueue(s, k));
            && next.gro == st.gro && next.batch == st.batch && next.drain == st.drain
            && next.net.option == st.net.option && |next.net.queue.At(s)| == |st.net.queue.At(s)| + 1
            && !Single(next.net.queue.At(s)[|next.net.queue.At(s)| - 1])
  {
  }

  /** The drain's buffers and recvmsgs are as they were, but for what was handed out. */
  ghost predicate SameDrain(st: State, next: State) {
    var d, e := st.drain, next.drain;
    && next.net == st.net && e.flying == d.flying && e.classic == d.classic && e.count == d.count && e.size == d.size
    && Booked(e) && Stocked(e)
  }


  lemma HeadFrees(st: State)
    requires Booked(st.drain) && Stocked(st.drain) && st.drain.cq != [] && st.drain.scan > 0 && st.drain.pending > 0
    requires st.drain.split == []
    ensures SameDrain(st, HeadTaken(st)) && |HeadTaken(st).drain.cq| < |st.drain.cq|
    ensures HeadTaken(st).gro == st.gro && HeadTaken(st).batch == st.batch
  {
    PopBooks(st.drain);
    PoppedProvided(st.drain);
  }

  /** With every buffer in use, handing out what they hold gives one back. */
  lemma {:induction false} Frees(env: Env, st: State) returns (more: seq<Event>)
    requires Booked(st.drain) && Stocked(st.drain) && !st.drain.classic && st.drain.count > 0
    ensures NoStart(more) && SameDrain(st, RunFrom(env, st, more)) && RunFrom(env, st, more).drain.free > 0
    decreases |st.drain.cq|, |st.gro.left| + |st.batch.held| + |st.drain.split|, 1
  {
    if st.drain.free > 0 {
      return [];
    }
    if st.gro.left == [] && st.batch.held == [] && st.drain.split == [] {
      more := LooksAndFrees(env, st);
      return;
    }
    HandsOn(env, st);
    more := Frees(env, Advance(env, st, NextAhead(st)));
    RunAhead(env, st, NextAhead(st), more);
    more := [NextAhead(st)] + more;
  }

  lemma LooksOn(d: Drain)
    requires Booked(d) && Stocked(d) && !d.classic && d.count > 0 && d.free == 0 && d.split == []
    ensures var e := Looked(d);
            && Booked(e) && Stocked(e) && e.cq != [] && e.scan > 0 && e.pending > 0 && |e.cq| <= |d.cq|
            && e.flying == d.flying && e.classic == d.classic && e.count == d.count && e.size == d.size && e.split == []
  {
    LookedBooks(d, Data);
    var n := LookSuffix(d);
    FullPrefix(Looked(d).cq);
  }

  lemma {:induction false} LooksAndFrees(env: Env, st: State) returns (more: seq<Event>)
    requires Booked(st.drain) && Stocked(st.drain) && !st.drain.classic && st.drain.count > 0 && st.drain.free == 0
    requires st.gro.left == [] && st.batch.held == [] && st.drain.split == []
    ensures NoStart(more) && SameDrain(st, RunFrom(env, st, more)) && RunFrom(env, st, more).drain.free > 0
    decreases |st.drain.cq|, 0, 0
  {
    LooksOn(st.drain);
    var looked := st.(drain := Looked(st.drain));
    assert Advance(env, st, Look) == looked && Advance(env, looked, TakeHead) == HeadTaken(looked);
    HeadFrees(looked);
    more := Frees(env, HeadTaken(looked));
    RunAhead(env, looked, TakeHead, more);
    RunAhead(env, st, Look, [TakeHead] + more);
    more := [Look] + ([TakeHead] + more);
  }

  /** A running drain takes what is queued before a merged group in its reach, and then the group. */
  lemma {:induction false} TakesMerged(env: Env, st: State, s: Sock, n: nat) returns (more: seq<Event>)
    requires NetInv(env, st.net) && Booked(st.drain) && Flies(st.drain, s) && !st.net.option
    requires Stocked(st.drain) && st.drain.count > 0 && Big(st.drain)
    requires n < |st.net.queue.At(s)| && !Single(st.net.queue.At(s)[n]) && InReach(st.drain, n)
    ensures NoStart(more) && Glued(RunFrom(env, st, more), s)
    decreases n, if st.drain.free == 0 then 1 else 0
  {
    if st.drain.free == 0 {
      var first := Frees(env, st);
      var rest := TakesMerged(env, RunFrom(env, st, first), s, n);
      RunConcat(env, st, first, rest);
      return first + rest;
    }
    var next := KernelTook(st, s, true);
    assert Sound(env, st.net.queue.At(s)[0]);
    TookKeeps(st, s);
    if n == 0 {
      assert Unsized(next.drain.cq[|st.drain.cq|], s);
      more := HandsGlued(env, next, s);
    } else {
      DequeueNets(env, st, s, 1);
      more := TakesMerged(env, next, s, n - 1);
    }
    RunAhead(env, st, KernelTake(s, true), more);
    more := [KernelTake(s, true)] + more;
  }

  lemma TookKeeps(st: State, s: Sock)
    requires Booked(st.drain) && Stocked(st.drain) && st.net.queue.At(s) != [] && st.drain.free > 0
    ensures var d := KernelTook(st, s, true).drain;
            Booked(d) && Stocked(d) && d.free + 1 == st.drain.free && d.flying == st.drain.flying
            && d.classic == st.drain.classic && d.size == st.drain.size && d.count == st.drain.count
  {
    var next := KernelTook(st, s, true);
    var c := next.drain.cq[|st.drain.cq|];
    HoldingAppend(st.drain.cq, c);
    PostBooks(st.drain, c);
  }

  /** Only a start in a settle marks the run. */
  lemma MixedChanges(env: Env, st: State, e: Event)
    requires !(e.Start? && st.gro.state == Settling)
    ensures Advance(env, st, e).mixed == st.mixed
  {
  }

  lemma {:induction false} MixedStays(env: Env, st: State, more: seq<Event>)
    requires NoStart(more)
    ensures RunFrom(env, st, more).mixed == st.mixed
    decreases |more|
  {
    if more != [] {
      MixedChanges(env, st, more[0]);
      MixedStays(env, Advance(env, st, more[0]), more[1..]);
    }
  }

  /** Somewhere in the drain's reach a merged group is queued or about to be. */
  lemma MergedSomewhere(d: Drain, net: Net) returns (s: Sock, flies: bool, k: nat)
    requires !NoneInReach(d, net)
    ensures if flies then k < |net.flights.At(s)| && !Single(net.flights.At(s)[k].group) && InReach(d, |net.queue.At(s)|)
            else k < |net.queue.At(s)| && !Single(net.queue.At(s)[k]) && InReach(d, k)
  {
    s := if QueueClear(d, net.queue.wellKnown, net.flights.wellKnown) then Data else WellKnown;
    var queue := net.queue.At(s);
    flies := forall j :: 0 <= j < |queue| && InReach(d, j) ==> Single(queue[j]);
    if flies {
      k :| 0 <= k < |net.flights.At(s)| && !Single(net.flights.At(s)[k].group);
    } else {
      k :| 0 <= k < |queue| && InReach(d, k) && !Single(queue[k]);
    }
  }

  lemma DrainGlues(env: Env, st: State) returns (s: Sock, more: seq<Event>)
    requires NetInv(env, st.net) && Booked(st.drain) && Flies(st.drain, WellKnown) && Flies(st.drain, Data)
    requires Stocked(st.drain) && st.drain.count > 0 && Big(st.drain) && !st.net.option
    requires !NoneInReach(st.drain, st.net)
    ensures NoStart(more) && Glued(RunFrom(env, st, more), s)
  {
    var flies, k;
    s, flies, k := MergedSomewhere(st.drain, st.net);
    if !flies {
      more := TakesMerged(env, st, s, k);
      return;
    }
    var next := Advance(env, st, Enqueue(s, k));
    Enqueues(env, st, s, k);
    EnqueueNets(env, st, s, k);
    more := TakesMerged(env, next, s, |next.net.queue.At(s)| - 1);
    RunAhead(env, st, Enqueue(s, k), more);
    more := [Enqueue(s, k)] + more;
  }

  /** A drain with a buffer ring may come to all that is queued. */
  lemma RingReach(d: Drain, net: Net)
    requires !d.classic
    ensures NoneInReach(d, net) <==> NoneMerged(net)
  {
    assert forall k: nat :: InReach(d, k);
  }

  ghost predicate FifoFor(env: Env, st: State, more: seq<Event>) {
    Fifo(RunFrom(env, st, more), WellKnown) && Fifo(RunFrom(env, st, more), Data)
  }

  /** The start of a drain that runs. */
  function Begin(d: Drain, bytes: nat): Event {
    Start(bytes, Accepted(|StartSubs(d.classic)|))
  }

  /**
   From any reachable state of a settle, a drain started there stays a FIFO however the run goes on without another
   start, if and only if nothing merged is queued where it may come to it, or about to be: anywhere at all with a buffer
   ring (RingReach), within its buffers' number with classic ones.
   */
  lemma DrainInSettleExact(env: Env, log: seq<Event>, bytes: nat)
    requires Safe(env) && After(env, log).gro.state == Settling && !After(env, log).mixed
    requires Enabled(env, After(env, log), Begin(After(env, log).drain, bytes))
    ensures var st := After(env, log);
            var started := After(env, log + [Begin(st.drain, bytes)]);
            (forall more | NoStart(more) :: FifoFor(env, started, more)) <==> NoneInReach(Supplied(st.drain), st.net)
  {
    var st := After(env, log);
    var start := Begin(st.drain, bytes);
    var started := After(env, log + [start]);
    if NoneInReach(Supplied(st.drain), st.net) {
      forall more | NoStart(more)
        ensures FifoFor(env, started, more)
      {
        RunConcat(env, Initial(env), log, [start]);
        MixedStays(env, started, more);
        RunConcat(env, Initial(env), log + [start], more);
        ReceiveIsFifo(env, log + [start] + more, WellKnown);
        ReceiveIsFifo(env, log + [start] + more, Data);
      }
    } else {
      var s, more := StartGlues(env, log, bytes);
      if FifoFor(env, started, more) {
        FifoIsSingle(RunFrom(env, started, more), s);
      }
    }
  }

  /** A drain started in a settle with something merged in its reach can go on to hand it out as one datagram. */
  lemma StartGlues(env: Env, log: seq<Event>, bytes: nat) returns (s: Sock, more: seq<Event>)
    requires Safe(env) && MergesUnderSettle(After(env, log))
    requires Enabled(env, After(env, log), Begin(After(env, log).drain, bytes))
    ensures var started := After(env, log + [Begin(After(env, log).drain, bytes)]);
            started.mixed && NoStart(more) && Glued(RunFrom(env, started, more), s)
  {
    var st := After(env, log);
    var start := Begin(st.drain, bytes);
    var started := Started(st, start.enter);
    RunConcat(env, Initial(env), log, [start]);
    assert After(env, log + [start]) == started;
    Reached(env, log);
    SizeForCovers(Settling, bytes);
    StartFlow(env, st, start.enter);
    StartedKeeps(st.drain);
    SameReach(Supplied(st.drain), started.drain, st.net);
    s, more := DrainGlues(env, started);
  }

  /** No drain is started in a settle: what a caller that looks at gro_state can see to. */
  ghost predicate Guarded(env: Env, st: State, log: seq<Event>)
    decreases |log|
  {
    log == [] || (!(log[0].Start? && st.gro.state == Settling) && Guarded(env, Advance(env, st, log[0]), log[1..]))
  }

  lemma {:induction false} GuardedUnmixed(env: Env, st: State, log: seq<Event>)
    requires Guarded(env, st, log)
    ensures RunFrom(env, st, log).mixed == st.mixed
    decreases |log|
  {
    if log != [] {
      MixedChanges(env, st, log[0]);
      GuardedUnmixed(env, Advance(env, st, log[0]), log[1..]);
    }
  }

  lemma GuardedIsFifo(env: Env, log: seq<Event>, s: Sock)
    requires Safe(env) && Guarded(env, Initial(env), log)
    ensures Fifo(After(env, log), s)
  {
    GuardedUnmixed(env, Initial(env), log);
    ReceiveIsFifo(env, log, s);
  }

  lemma SettlesNow(env: Env, st: State)
    requires st.gro.state == On && st.gro.quiet >= QUIET_READS && MayRead(st)
    ensures Advance(env, st, Settle(0)) == st.(gro := st.gro.(state := Settling, settleAt := st.net.now + SETTLE_NS),
                                               net := st.net.(option := false))
  {
  }

  /** Such a state is reached: a merged datagram queued as the settle begins. */
  lemma SettleOverMerged(env: Env) returns (log: seq<Event>)
    requires env.offload && 0 < env.lag
    ensures var st := After(env, log);
            st.gro.state == Settling && MayRead(st) && !st.mixed && st.sq == [] && st.net.queue.data == [MergedPair]
  {
    var quiet := QuietRun(env, QUIET_READS);
    var before := After(env, quiet);
    var more := [Test(Data, MergedPair), Enqueue(Data, 0), Settle(0)];
    RunConcat(env, Initial(env), quiet, more);
    RunThree(env, before, Test(Data, MergedPair), Enqueue(Data, 0), Settle(0));
    assert Bytes(MergedPair) == 200;
    Arrives(env, before, MergedPair);
    SettlesNow(env, Advance(env, Advance(env, before, Test(Data, MergedPair)), Enqueue(Data, 0)));
    log := quiet + more;
  }

  /** From bind to a drain started in a settle that hands core several datagrams as one. */
  lemma FifoNeedsCareInSettle(env: Env) returns (log: seq<Event>, s: Sock)
    requires Safe(env) && env.offload && 0 < env.lag
    ensures After(env, log).mixed && Glued(After(env, log), s)
  {
    var settle := SettleOverMerged(env);
    var rebuilt := settle + [Rebuild(1472, 8, false)];
    RunConcat(env, Initial(env), settle, [Rebuild(1472, 8, false)]);
    var st := After(env, rebuilt);
    assert st == Advance(env, After(env, settle), Rebuild(1472, 8, false));
    RingReach(st.drain, st.net);
    assert !Single(st.net.queue.data[0]);
    var start := Begin(st.drain, 1472);
    var more;
    s, more := StartGlues(env, rebuilt, 1472);
    MixedStays(env, After(env, rebuilt + [start]), more);
    RunConcat(env, Initial(env), rebuilt + [start], more);
    log := rebuilt + [start] + more;
  }

  // ---- A settle that commits with something merged still to come

  /** A plain read hands out what is queued first as one. */
  lemma PlainReadGlues(env: Env, st: State, g: Group)
    requires st.gro.state == Plain && MayRead(st) && st.net.queue.data != [] && st.net.queue.data[0] == g && |g| > 1
    ensures Glued(Advance(env, st, Read(Data)), Data)
  {
    var end := Advance(env, st, Read(Data));
    assert end.given.At(Data)[|st.given.data|] == Hand(g, false);
  }

  lemma StillFlying(env: Env, before: State)
    requires QuietOn(before, QUIET_READS) && 0 < env.lag
    ensures var late := RunFrom(env, before, [Test(Data, MergedPair), Settle(0), Tick(env.lag - 1)]);
            && late.gro.state == Settling && late.gro.settleAt == SETTLE_NS && MayRead(late) && !late.mixed
            && late.net.now == env.lag - 1 && late.net.flights.data == [Flight(MergedPair, 0)]
            && late.net.queue.wellKnown == [] && late.net.queue.data == []
  {
    assert Bytes(MergedPair) == 200;
    RunThree(env, before, Test(Data, MergedPair), Settle(0), Tick(env.lag - 1));
    var tested := Advance(env, before, Test(Data, MergedPair));
    assert tested.net.flights.data == [Flight(MergedPair, 0)] && tested.net.flights.wellKnown == [];
  }

  lemma LateDatagram(env: Env, late: State)
    requires late.gro.state == Settling && late.gro.settleAt <= late.net.now + env.early && MayRead(late) && !late.mixed
    requires late.net.flights.data == [Flight(MergedPair, 0)] && late.net.queue.wellKnown == [] && late.net.queue.data == []
    ensures var end := RunFrom(env, late, [SeeEmpty, Commit, Enqueue(Data, 0)]);
            && end.gro.state == Plain && MayRead(end) && !end.mixed && end.net.queue.data == [MergedPair]
  {
    RunThree(env, late, SeeEmpty, Commit, Enqueue(Data, 0));
    var seen := late.(gro := late.gro.(state := Deciding));
    assert Advance(env, late, SeeEmpty) == seen;
    var plain := seen.(gro := seen.gro.(state := Plain));
    assert Advance(env, seen, Commit) == plain;
    Lands(env, plain);
  }

  lemma Lands(env: Env, st: State)
    requires st.net.flights.data == [Flight(MergedPair, 0)] && st.net.queue.data == []
    ensures var end := Advance(env, st, Enqueue(Data, 0));
            && end.gro == st.gro && end.batch == st.batch && end.drain == st.drain && end.mixed == st.mixed
            && end.net.queue.data == [MergedPair]
  {
  }

  lemma TooShort(env: Env) returns (log: seq<Event>)
    requires env.lag > 0 && env.offload && env.lag + env.early > SETTLE_NS
    ensures var st := After(env, log);
            st.gro.state == Plain && MayRead(st) && !st.mixed && st.net.queue.data == [MergedPair]
  {
    var quiet := QuietRun(env, QUIET_READS);
    var flies := [Test(Data, MergedPair), Settle(0), Tick(env.lag - 1)];
    var lands := [SeeEmpty, Commit, Enqueue(Data, 0)];
    RunConcat(env, Initial(env), quiet, flies);
    StillFlying(env, After(env, quiet));
    RunConcat(env, Initial(env), quiet + flies, lands);
    LateDatagram(env, After(env, quiet + flies));
    log := quiet + flies + lands;
  }

  const Doorbell := Datagram(4, 0, false)

  lemma BehindDoorbell(env: Env, st: State)
    requires Lone(st, st, [Doorbell]) && st.net.option && 0 < env.lag
    ensures var next := Advance(env, Advance(env, st, Test(Data, MergedPair)), Enqueue(Data, 0));
            && next.gro == st.gro && next.batch == st.batch && next.drain == st.drain && next.sq == st.sq
            && next.mixed == st.mixed && next.net.now == st.net.now
            && next.net.queue.wellKnown == [] && next.net.queue.data == [[Doorbell], MergedPair]
            && next.net.flights.wellKnown == [] && next.net.flights.data == []
  {
    assert Bytes(MergedPair) == 200;
    var tested := Advance(env, st, Test(Data, MergedPair));
    assert tested.net.flights.data == [Flight(MergedPair, st.net.now)];
  }

  lemma SettlesOverDoorbell(env: Env, st: State) returns (settled: State)
    requires st.gro.state == On && st.gro.quiet >= QUIET_READS && MayRead(st)
    requires st.net.flights.wellKnown == [] && st.net.flights.data == []
    ensures settled == RunFrom(env, st, [Settle(0), Tick(SETTLE_NS)])
    ensures settled == st.(gro := st.gro.(state := Settling, settleAt := st.net.now + SETTLE_NS),
                           net := st.net.(option := false, now := st.net.now + SETTLE_NS))
  {
    RunTwo(env, st, Settle(0), Tick(SETTLE_NS));
    settled := RunFrom(env, st, [Settle(0), Tick(SETTLE_NS)]);
  }

  lemma CommitsOverDoorbell(env: Env, st: State) returns (plain: State)
    requires st.gro.state == Settling && st.gro.settleAt == st.net.now && MayRead(st)
    requires st.net.queue.wellKnown == [] && st.net.queue.data == [[Doorbell], MergedPair]
    ensures plain == RunFrom(env, st, [SeeEmpty, Commit]) && plain == st.(gro := st.gro.(state := Plain))
  {
    RunTwo(env, st, SeeEmpty, Commit);
    assert Bytes([Doorbell]) == 0;
    plain := RunFrom(env, st, [SeeEmpty, Commit]);
  }

  lemma ReadsDoorbell(env: Env, st: State)
    requires st.gro.state == Plain && MayRead(st) && st.net.queue.data == [[Doorbell], MergedPair]
    ensures var end := RunFrom(env, st, [Read(Data)]);
            && end.gro == st.gro && end.batch == st.batch && end.drain == st.drain && end.mixed == st.mixed
            && end.net.queue.data == [MergedPair]
  {
    assert RunFrom(env, st, [Read(Data)]) == Advance(env, st, Read(Data));
    assert st.net.queue.data[1..] == [MergedPair];
  }

  /** FIONREAD answers 0 for a doorbell queued first: the settle commits with a merged group behind it. */
  lemma DoorbellHides(env: Env) returns (log: seq<Event>)
    requires env.lag > 0 && env.offload && env.empties
    ensures var st := After(env, log);
            st.gro.state == Plain && MayRead(st) && !st.mixed && st.net.queue.data == [MergedPair]
  {
    var quiet := QuietRun(env, QUIET_READS);
    var before := After(env, quiet);
    var bell := [Test(Data, [Doorbell]), Enqueue(Data, 0)];
    var pair := [Test(Data, MergedPair), Enqueue(Data, 0)];
    var settles := [Settle(0), Tick(SETTLE_NS)];
    var commits, reading := [SeeEmpty, Commit], [Read(Data)];
    RunConcat(env, Initial(env), quiet, bell);
    RunTwo(env, before, Test(Data, [Doorbell]), Enqueue(Data, 0));
    Arrives(env, before, [Doorbell]);
    RunConcat(env, Initial(env), quiet + bell, pair);
    RunTwo(env, After(env, quiet + bell), Test(Data, MergedPair), Enqueue(Data, 0));
    BehindDoorbell(env, After(env, quiet + bell));
    RunConcat(env, Initial(env), quiet + bell + pair, settles);
    var settled := SettlesOverDoorbell(env, After(env, quiet + bell + pair));
    RunConcat(env, Initial(env), quiet + bell + pair + settles, commits);
    var plain := CommitsOverDoorbell(env, settled);
    RunConcat(env, Initial(env), quiet + bell + pair + settles + commits, reading);
    ReadsDoorbell(env, plain);
    log := quiet + bell + pair + settles + commits + reading;
  }

  lemma UnsafeSettle(env: Env) returns (log: seq<Event>)
    requires env.lag > 0 && !SettleSafe(env)
    ensures var st := After(env, log);
            st.gro.state == Plain && MayRead(st) && !st.mixed && st.net.queue.data == [MergedPair]
  {
    if env.empties {
      log := DoorbellHides(env);
    } else {
      log := TooShort(env);
    }
  }

  /**
   Plain reads are safe in every run if and only if the settle covers the kernel's window and the wait's error, and no
   datagram is empty.
   */
  lemma SettleWindowExact(env: Env)
    requires env.lag > 0 && env.offload
    ensures (forall log :: PlainIsSafe(After(env, log))) <==> env.lag + env.early <= SETTLE_NS && !env.empties
  {
    if SettleSafe(env) {
      forall log
        ensures PlainIsSafe(After(env, log))
      {
        NoPlainReadMeetsMerged(env, log);
      }
    } else {
      var log := UnsafeSettle(env);
      assert !Single(After(env, log).net.queue.data[0]);
      assert !PlainIsSafe(After(env, log));
    }
  }

  // ---- A drain that is refused

  const Early := Datagram(5, 100, false)
  const Late := Datagram(6, 100, false)

  /** A drain set up with `count` buffers and started, taken whole, from a plain receive path. */
  lemma Starts(env: Env, st: State, count: nat) returns (next: State)
    requires st.drain == NoDrain && st.sq == [] && st.gro.state == Plain && count > 0
    ensures next == RunFrom(env, st, [Rebuild(1472, count, false), Start(1472, Accepted(2))])
    ensures next == st.(drain := Rebuilt(NoDrain, Plain, 1472, count, false).(
                          running := true, armed := {WellKnown, Data}, flying := Per(1, 1)))
  {
    var start := Start(1472, Accepted(2));
    var rebuilt := st.(drain := Rebuilt(NoDrain, Plain, 1472, count, false));
    RunTwo(env, st, Rebuild(1472, count, false), start);
    assert Advance(env, st, Rebuild(1472, count, false)) == rebuilt;
    next := StartsPlain(env, rebuilt);
    assert Enabled(env, rebuilt, start);
  }

  lemma StartsPlain(env: Env, st: State) returns (next: State)
    requires st.gro.state == Plain && st.sq == [] && !st.drain.classic && st.drain.flying == Per(0, 0)
    ensures |StartSubs(false)| == 2 && next == Started(st, Accepted(2))
    ensures next == st.(drain := st.drain.(running := true, armed := {WellKnown, Data}, flying := Per(1, 1)))
  {
    var recvs := Recvs({WellKnown, Data});
    assert StartSubs(false) == recvs && |recvs| == 2;
    FullPrefix(recvs);
    EnteredAll(st, recvs, st.sq + recvs, [], recvs);
    SubmitRecvs(st.drain, {WellKnown, Data});
    next := Started(st, Accepted(2));
  }

  /** A recvmsg in flight takes a datagram. */
  lemma TakesEarly(env: Env, st: State) returns (next: State)
    requires NothingQueued(st.net) && 0 < env.lag && Flies(st.drain, Data) && st.drain.cq == [] && st.drain.free > 0
    ensures next == RunFrom(env, st, [Test(Data, [Early]), Enqueue(Data, 0), KernelTake(Data, true)])
    ensures next.gro == st.gro && next.batch == st.batch && next.given == st.given && next.mixed == st.mixed
    ensures next.drain == st.drain.(cq := next.drain.cq, free := st.drain.free - 1) && NothingQueued(next.net)
    ensures next.net.arrived.data == st.net.arrived.data + [Early] && next.sq == st.sq
  {
    RunThree(env, st, Test(Data, [Early]), Enqueue(Data, 0), KernelTake(Data, true));
    Arrives(env, st, [Early]);
    var queued := Advance(env, Advance(env, st, Test(Data, [Early])), Enqueue(Data, 0));
    next := KernelTook(queued, Data, true);
  }

  lemma ReadsLate(env: Env, st: State) returns (next: State)
    requires NothingQueued(st.net) && 0 < env.lag && MayRead(st) && st.gro.state == Plain
    ensures next == RunFrom(env, st, [Test(Data, [Late]), Enqueue(Data, 0), Read(Data)])
    ensures next.given.data == st.given.data + [Hand([Late], false)] && next.mixed == st.mixed
    ensures next.net.arrived.data == st.net.arrived.data + [Late]
  {
    RunThree(env, st, Test(Data, [Late]), Enqueue(Data, 0), Read(Data));
    Arrives(env, st, [Late]);
    var queued := Advance(env, Advance(env, st, Test(Data, [Late])), Enqueue(Data, 0));
    assert queued.net.queue.data[0] == [Late];
    next := ReadPlain(queued, Data);
  }

  /** drain_stop()'s call fails, or what it cancels does not end in time: the drain is refused. */
  lemma StopRefused(env: Env, st: State, enter: Enter) returns (next: State)
    requires !Steady(env) && st.drain.running && st.sq == [] && st.drain.armed == {WellKnown, Data}
    requires enter == if env.whole then Accepted(2) else Refused
    ensures next == RunFrom(env, st, [Stop, CancelAll(enter), Refuse])
    ensures next == st.(drain := Released(st.drain.(rearm := {})))
  {
    RunThree(env, st, Stop, CancelAll(enter), Refuse);
    var stopped := st.(drain := st.drain.(running := false, rearm := {}));
    assert Advance(env, st, Stop) == stopped;
    var cancels := Cancels({WellKnown, Data});
    assert |cancels| == 2;
    var entered := Entered(stopped, cancels, enter);
    assert Advance(env, stopped, CancelAll(enter)) == entered;
    CancelsOnly(stopped, cancels, enter);
    next := Advance(env, entered, Refuse);
  }

  lemma {:induction false} SubmitCancels(d: Drain, subs: seq<Sub>)
    requires forall k :: 0 <= k < |subs| ==> subs[k].Cancel?
    ensures SubmitAll(d, subs) == d.(cq := SubmitAll(d, subs).cq)
    decreases |subs|
  {
    if subs != [] {
      SubmitCancels(Submitted(d, subs[0]), subs[1..]);
    }
  }

  lemma CancelsOnly(st: State, subs: seq<Sub>, enter: Enter)
    requires st.sq == [] && (enter.Accepted? ==> enter.n == |subs|) && forall k :: 0 <= k < |subs| ==> subs[k].Cancel?
    ensures Entered(st, subs, enter) == st.(sq := Entered(st, subs, enter).sq,
                                            drain := st.drain.(cq := Entered(st, subs, enter).drain.cq))
  {
    FullPrefix(subs);
    SubmitCancels(st.drain, subs);
  }

  /** What the ring held goes with a refused drain, uncounted; the next read hands out what came after it. */
  lemma RefusedLoses(env: Env) returns (log: seq<Event>)
    requires !Steady(env) && 0 < env.lag
    ensures !After(env, log).mixed && !Fifo(After(env, log), Data)
  {
    var enter := if env.whole then Accepted(2) else Refused;
    var starts := [Rebuild(1472, 8, false), Start(1472, Accepted(2))];
    var takes := [Test(Data, [Early]), Enqueue(Data, 0), KernelTake(Data, true)];
    var stops := [Stop, CancelAll(enter), Refuse];
    var reading := [Test(Data, [Late]), Enqueue(Data, 0), Read(Data)];
    var started := Starts(env, Initial(env), 8);
    var took := TakesEarly(env, started);
    var refused := StopRefused(env, took, enter);
    var end := ReadsLate(env, refused);
    RunConcat(env, Initial(env), starts, takes);
    RunConcat(env, Initial(env), starts + takes, stops);
    RunConcat(env, Initial(env), starts + takes + stops, reading);
    log := starts + takes + stops + reading;
    assert end.given.data[0] == Hand([Late], false) && end.net.arrived.data[0] == Early;
  }

  // ---- A submission left in the drain's ring

  const Before := Datagram(7, 100, false)
  const Broadcast := Datagram(8, 100, false)

  lemma LookAtOverrun(d: Drain, s: Sock, c: Completion)
    requires d.cq == [c, Ended(s, NoBuffers)] && d.scan == 0 && d.pending == 0 && c.Took? && c.sock == s && c.more
    requires !d.classic
    ensures Looked(d) == d.(scan := 2, pending := 1, armed := d.armed - {s},
                            rearm := if d.running then d.rearm + {s} else d.rearm,
                            returned := if d.running then 0 else d.returned)
  {
    var one := ScanOne(d);
    var two := ScanOne(one);
    assert Scanned(two) == two && Scanned(one) == Scanned(two) && Scanned(d) == Scanned(one);
  }

  lemma LookAtEnd(d: Drain, s: Sock)
    requires d.cq == [Ended(s, NoBuffers)] && d.scan == 1
    ensures Looked(d) == d.(cq := [], scan := 0)
  {
    var dropped := d.(cq := d.cq[1..], scan := 0);
    assert DropEnds(d) == DropEnds(dropped) && dropped.cq == [];
  }

  /** A drain of one buffer, idle. */
  ghost predicate OneBuffer(st: State) {
    var d := st.drain;
    && d.cq == [] && d.scan == 0 && d.pending == 0 && d.split == [] && !d.classic && d.free == 1
    && Bytes([Before]) + DRAIN_HEADER <= d.size
    && st.gro.left == [] && st.batch.held == [] && st.gro.state == Plain && !st.net.option && NothingQueued(st.net)
  }

  function Taken(s: Sock, d: Datagram): seq<Event> {
    [Test(s, [d]), Enqueue(s, 0), KernelTake(s, true)]
  }

  function HandedOn(s: Sock): seq<Event> {
    [KernelEnd(s, NoBuffers), Look, TakeHead]
  }

  /** One datagram queued on s, and nothing else anywhere. */
  function Queued(st: State, s: Sock, d: Datagram): State {
    st.(net := st.net.(queue := if s == WellKnown then Per([[d]], []) else Per([], [[d]]),
                       arrived := st.net.arrived.With(s, st.net.arrived.At(s) + [d])))
  }

  lemma ArrivesAt(env: Env, st: State, s: Sock, d: Datagram)
    requires NothingQueued(st.net) && 0 < env.lag && d.bytes > 0
    ensures Advance(env, Advance(env, st, Test(s, [d])), Enqueue(s, 0)) == Queued(st, s, d)
  {
    assert Bytes([d]) == d.bytes;
    assert st.net.flights == Per([], []) && st.net.queue == Per([], []);
    var fs := [Flight([d], st.net.now)];
    assert st.net.flights.At(s) + fs == fs && fs[..0] + fs[1..] == [] && st.net.queue.At(s) + [[d]] == [[d]];
    var tested := st.(net := st.net.(flights := if s == WellKnown then Per(fs, []) else Per([], fs)));
    assert Advance(env, st, Test(s, [d])) == tested;
  }

  lemma TakesLast(env: Env, st: State, s: Sock, d: Datagram) returns (next: State)
    requires OneBuffer(st) && 0 < env.lag && Flies(st.drain, s) && d.bytes == 100
    ensures next == RunFrom(env, st, Taken(s, d))
    ensures next == st.(drain := st.drain.(cq := [Took(s, [d], false, false, true)], free := 0),
                        net := st.net.(arrived := st.net.arrived.With(s, st.net.arrived.At(s) + [d])))
  {
    RunThree(env, st, Test(s, [d]), Enqueue(s, 0), KernelTake(s, true));
    ArrivesAt(env, st, s, d);
    assert Bytes([d]) == 100 && Bytes([Before]) == 100;
    var queued := Queued(st, s, d);
    assert [[d]][1..] == [] && queued.net.queue.At(s) == [[d]] && st.net.queue == Per([], []);
    next := KernelTook(queued, s, true);
  }

  /** Its only buffer filled, a recvmsg picks the next before it looks for a datagram, and ends. */
  lemma OverrunEnds(env: Env, st: State, s: Sock, d: Datagram) returns (next: State)
    requires st.drain.cq == [Took(s, [d], false, false, true)] && st.drain.free == 0 && st.drain.scan == 0
    requires st.drain.pending == 0 && st.drain.split == [] && !st.drain.classic && Flies(st.drain, s)
    requires st.gro.left == [] && st.batch.held == []
    ensures next == RunFrom(env, st, HandedOn(s))
    ensures var e := st.drain;
            next == st.(drain := e.(cq := [Ended(s, NoBuffers)], scan := 1, flying := Landing(e.flying, s), free := 1,
                                    armed := e.armed - {s}, rearm := if e.running then e.rearm + {s} else e.rearm,
                                    returned := if e.running then 1 else e.returned + 1),
                        given := st.given.With(s, st.given.At(s) + [Hand([d], false)]))
  {
    RunThree(env, st, KernelEnd(s, NoBuffers), Look, TakeHead);
    var c := st.drain.cq[0];
    var ended := st.(drain := st.drain.(flying := Landing(st.drain.flying, s), cq := [c, Ended(s, NoBuffers)]));
    assert Advance(env, st, KernelEnd(s, NoBuffers)) == ended;
    LookAtOverrun(ended.drain, s, c);
    var looked := ended.(drain := Looked(ended.drain));
    assert Advance(env, ended, Look) == looked;
    assert looked.drain.cq[1..] == [Ended(s, NoBuffers)];
    next := HeadTaken(looked);
  }

  /** An overrun, its datagram handed out and the ring looked at. */
  lemma Overruns(env: Env, st: State, s: Sock, d: Datagram) returns (next: State)
    requires OneBuffer(st) && 0 < env.lag && Flies(st.drain, s) && d.bytes == 100
    ensures next == RunFrom(env, st, Taken(s, d) + HandedOn(s) + [Look]) && OneBuffer(next)
    ensures var e := st.drain;
            next == st.(drain := e.(flying := Landing(e.flying, s), armed := e.armed - {s},
                                    rearm := if e.running then e.rearm + {s} else e.rearm,
                                    returned := if e.running then 1 else e.returned + 1),
                        net := st.net.(arrived := st.net.arrived.With(s, st.net.arrived.At(s) + [d])),
                        given := st.given.With(s, st.given.At(s) + [Hand([d], false)]))
  {
    var took := TakesLast(env, st, s, d);
    var handed := OverrunEnds(env, took, s, d);
    RunConcat(env, st, Taken(s, d), HandedOn(s));
    RunConcat(env, st, Taken(s, d) + HandedOn(s), [Look]);
    RunOne(env, handed, Look);
    LookAtEnd(handed.drain, s);
    next := handed.(drain := Looked(handed.drain));
  }

  /** The overrun's recvmsg goes in again by a call that fails, and stays queued; the stop's call takes it. */
  lemma TakesLeftover(env: Env, st: State) returns (next: State)
    requires !env.whole && st.sq == [] && st.drain.running && st.drain.armed == {WellKnown} && st.drain.rearm == {Data}
    requires st.drain.count == 1 && st.drain.returned == 1 && st.drain.flying == Per(1, 0)
    ensures next == RunFrom(env, st, [Rearm(Refused), Stop, CancelAll(Accepted(1))])
    ensures next == st.(drain := st.drain.(running := false, rearm := {}, flying := Per(1, 1)), sq := [Cancel(WellKnown)])
  {
    RunThree(env, st, Rearm(Refused), Stop, CancelAll(Accepted(1)));
    assert Recvs({Data}) == [Recv(Data)] && Cancels({WellKnown}) == [Cancel(WellKnown)];
    var refused := st.(drain := st.drain.(rearm := {}), sq := [Recv(Data)]);
    assert Advance(env, st, Rearm(Refused)) == refused;
    var stopped := refused.(drain := refused.drain.(running := false));
    assert Advance(env, refused, Stop) == stopped;
    EnteredAll(stopped, [Cancel(WellKnown)], stopped.sq + [Cancel(WellKnown)], [Cancel(WellKnown)], [Recv(Data)]);
    assert SubmitAll(stopped.drain, [Recv(Data)]) == SubmitAll(Submitted(stopped.drain, Recv(Data)), []);
    next := Entered(stopped, [Cancel(WellKnown)], Accepted(1));
  }

  lemma DataOverruns(env: Env) returns (next: State, log: seq<Event>)
    requires !env.whole && 0 < env.lag
    ensures next == After(env, log) && OneBuffer(next) && next.sq == [] && !next.mixed && next.drain.running
    ensures next.drain.armed == {WellKnown} && next.drain.rearm == {Data} && next.drain.flying == Per(1, 0)
    ensures next.drain.count == 1 && next.drain.returned == 1
    ensures next.given.data == [Hand([Before], false)] && next.net.arrived.data == [Before]
  {
    var starts := [Rebuild(1472, 1, false), Start(1472, Accepted(2))];
    var started := Starts(env, Initial(env), 1);
    SizeForCovers(Plain, 1472);
    next := Overruns(env, started, Data, Before);
    log := starts + (Taken(Data, Before) + HandedOn(Data) + [Look]);
    RunConcat(env, Initial(env), starts, Taken(Data, Before) + HandedOn(Data) + [Look]);
  }

  /**
   A data-socket overrun's re-arm fails and stays queued; the stop's call takes it in place of the cancellation; the
   other recvmsg overruns and ends. The stop is content, with a recvmsg still in flight on the data socket: it takes a
   datagram, and a read overtakes it.
   */
  lemma LeftoversOvertake(env: Env) returns (log: seq<Event>)
    requires !env.whole && 0 < env.lag
    ensures !After(env, log).mixed && !Fifo(After(env, log), Data)
  {
    var st, run := DataOverruns(env);
    var stops := [Rearm(Refused), Stop, CancelAll(Accepted(1))];
    var overruns := Taken(WellKnown, Broadcast) + HandedOn(WellKnown) + [Look];
    var takes := [Test(Data, [Early]), Enqueue(Data, 0), KernelTake(Data, true)];
    var reading := [Test(Data, [Late]), Enqueue(Data, 0), Read(Data)];
    var stopped := TakesLeftover(env, st);
    var overran := Overruns(env, stopped, WellKnown, Broadcast);
    var took := TakesEarly(env, overran);
    var end := ReadsLate(env, took);
    RunConcat(env, Initial(env), run, stops);
    RunConcat(env, Initial(env), run + stops, overruns);
    RunConcat(env, Initial(env), run + stops + overruns, takes);
    RunConcat(env, Initial(env), run + stops + overruns + takes, reading);
    log := run + stops + overruns + takes + reading;
    assert end.given.data[1] == Hand([Late], false) && end.net.arrived.data[1] == Early;
  }

  lemma UnsafeGlues(env: Env) returns (log: seq<Event>)
    requires !SettleSafe(env) && 0 < env.lag
    ensures !After(env, log).mixed && !Fifo(After(env, log), Data)
  {
    var commits := UnsafeSettle(env);
    var st := After(env, commits);
    log := commits + [Read(Data)];
    RunConcat(env, Initial(env), commits, [Read(Data)]);
    PlainReadGlues(env, st, MergedPair);
    if Fifo(After(env, log), Data) {
      FifoIsSingle(After(env, log), Data);
    }
  }

  /**
   Each socket is one FIFO in every run without a drain started in a settle over something merged, if and only if
   submissions are taken whole, what is cancelled ends in time and the settle is safe.
   */
  lemma FifoExact(env: Env)
    requires env.lag > 0
    ensures (forall log, s | !After(env, log).mixed :: Fifo(After(env, log), s)) <==> Safe(env)
  {
    if Safe(env) {
      forall log, s | !After(env, log).mixed
        ensures Fifo(After(env, log), s)
      {
        ReceiveIsFifo(env, log, s);
      }
    } else if Steady(env) {
      var log := UnsafeGlues(env);
      assert !Fifo(After(env, log), Data);
    } else {
      var log := RefusedLoses(env);
      assert !Fifo(After(env, log), Data);
    }
  }
}
