/**
 Every step of the receive machine keeps its invariants, layer by layer: what holds in every environment, what the
 switch says of the queues, what a steady drain gives, and what both together do.
 */
module ReceiveProof {
  import opened Sequences
  import opened Datagrams
  import opened Drains
  import opened ReceiveMachine

  // ---- The drain's books, whatever becomes of its submissions

  lemma PostBooks(d: Drain, c: Completion)
    requires Booked(d)
    ensures Booked(Post(d, c))
  {
    assert (d.cq + [c])[..d.scan] == d.cq[..d.scan];
  }

  lemma {:induction false} SubmitBooks(d: Drain, subs: seq<Sub>)
    requires Booked(d)
    ensures var e := SubmitAll(d, subs);
            Booked(e) && e == d.(flying := e.flying, cq := e.cq, free := e.free)
    decreases |subs|
  {
    if subs != [] {
      PostBooks(d, Other);
      SubmitBooks(Submitted(d, subs[0]), subs[1..]);
    }
  }

  lemma PopBooks(d: Drain)
    requires Booked(d) && d.cq != [] && d.scan > 0
    ensures d.cq[0].Took? ==> d.pending > 0
    ensures Booked(d.(cq := d.cq[1..], scan := d.scan - 1, pending := d.pending - if d.cq[0].Took? then 1 else 0))
  {
    assert d.cq[..d.scan][1..] == d.cq[1..][..d.scan - 1];
    HoldingHead(d.cq[..d.scan]);
  }

  /** The drain's steps keep the books and hide no loss. */
  lemma DrainBase(env: Env, st: State, next: State)
    requires Base(env, st) && Booked(next.drain) && next.drain.truncated == st.drain.truncated
    requires next.net == st.net && next.gro == st.gro && next.given == st.given
    ensures Base(env, next)
  {
  }

  lemma GiveBase(env: Env, st: State, next: State, s: Sock, h: Hand)
    requires Base(env, st) && Booked(next.drain) && NetInv(env, next.net)
    requires next.gro.allowed == st.gro.allowed && (next.gro.allowed || next.gro.state == Plain)
    requires next.net.option <==> next.gro.state == On
    requires next.given == st.given.With(s, st.given.At(s) + [h])
    requires next.drain.truncated == st.drain.truncated + if h.lost then 1 else 0
    ensures Base(env, next)
  {
    HandedAppend(st.given.At(s), h);
  }

  lemma TakeHeadBase(env: Env, st: State)
    requires Base(env, st) && Enabled(env, st, TakeHead)
    ensures Base(env, Step(env, st, TakeHead))
  {
    PopBooks(st.drain);
    var c := st.drain.cq[0];
    var next := Step(env, st, TakeHead);
    if c.Took? && !Merged(c) {
      GiveBase(env, st, next, c.sock, Hand(c.group, c.cut));
    } else {
      DrainBase(env, st, next);
    }
  }

  // ---- What the kernel queues

  lemma Without(env: Env, flights: seq<Flight>, now: nat, k: nat, deadline: nat)
    requires k < |flights| && FlightsSound(env, flights, now)
    ensures var rest := flights[..k] + flights[k + 1..];
            && FlightsSound(env, rest, now)
            && (FlightsSingle(flights) ==> FlightsSingle(rest))
            && (MergedBefore(flights, deadline) ==> MergedBefore(rest, deadline))
  {
    var rest := flights[..k] + flights[k + 1..];
    assert forall j :: 0 <= j < |rest| ==> rest[j] == if j < k then flights[j] else flights[j + 1];
  }

  lemma TestNets(env: Env, st: State, s: Sock, g: Group)
    requires NetInv(env, st.net) && Enabled(env, st, Test(s, g))
    ensures NetInv(env, Step(env, st, Test(s, g)).net)
    ensures GroInv(st) ==> GroInv(Step(env, st, Test(s, g)))
    ensures !st.net.option && NoneMerged(st.net) ==> NoneMerged(Step(env, st, Test(s, g)).net)
  {
  }

  lemma EnqueueNets(env: Env, st: State, s: Sock, k: nat)
    requires NetInv(env, st.net) && Enabled(env, st, Enqueue(s, k))
    ensures NetInv(env, Step(env, st, Enqueue(s, k)).net)
    ensures GroInv(st) ==> GroInv(Step(env, st, Enqueue(s, k)))
    ensures NoneMerged(st.net) ==> NoneMerged(Step(env, st, Enqueue(s, k)).net)
  {
    Without(env, st.net.flights.At(s), st.net.now, k, st.gro.settleAt);
  }

  lemma DequeueNets(env: Env, st: State, s: Sock, n: nat)
    requires NetInv(env, st.net) && n <= |st.net.queue.At(s)|
    ensures NetInv(env, Dequeue(st.net, s, n))
    ensures GroInv(st) ==> GroInv(st.(net := Dequeue(st.net, s, n)))
    ensures NoneMerged(st.net) ==> NoneMerged(Dequeue(st.net, s, n))
  {
    var q := st.net.queue.At(s);
    assert forall k :: 0 <= k < |q[n..]| ==> q[n..][k] == q[n + k];
  }

  lemma TurnOnBase(env: Env, st: State)
    requires Base(env, st) && (st.gro.allowed || st.gro.state != Plain)
    ensures Base(env, TurnOn(st))
  {
  }

  lemma ReadOnBase(env: Env, st: State, s: Sock)
    requires Base(env, st) && HeadFull(st.net, s) && st.gro.state == On
    ensures Base(env, ReadOn(st, s))
  {
    if st.net.queue.At(s) != [] {
      DequeueNets(env, st, s, 1);
      GiveBase(env, st, ReadOn(st, s), s, Hand([st.net.queue.At(s)[0][0]], false));
    }
  }

  lemma ReadPlainBase(env: Env, st: State, s: Sock)
    requires Base(env, st) && HeadFull(st.net, s)
    ensures Base(env, ReadPlain(st, s))
  {
    if st.net.queue.At(s) != [] {
      var g := st.net.queue.At(s)[0];
      var next := Give(st.(net := Dequeue(st.net, s, 1)), s, Hand(g, false));
      DequeueNets(env, st, s, 1);
      GiveBase(env, st, next, s, Hand(g, false));
      if st.gro.allowed && g[0].large {
        TurnOnBase(env, next);
      }
    }
  }

  lemma ReadOneBase(env: Env, st: State, s: Sock)
    requires Base(env, st) && HeadFull(st.net, s)
    ensures Base(env, ReadOne(st, s))
  {
    if st.gro.state == Plain {
      ReadPlainBase(env, st, s);
    } else if st.gro.state == On {
      ReadOnBase(env, st, s);
    } else {
      TurnOnBase(env, st);
      ReadOnBase(env, TurnOn(st), s);
    }
  }

  lemma FillBase(env: Env, st: State, s: Sock, n: nat)
    requires Base(env, st) && Enabled(env, st, Fill(s, n))
    ensures Base(env, Filled(st, s, n))
  {
    DequeueNets(env, st, s, n);
    GiveBase(env, st, Filled(st, s, n), s, Hand(st.net.queue.At(s)[0], false));
  }

  lemma KernelBase(env: Env, st: State, e: Event)
    requires Base(env, st) && Enabled(env, st, e) && IsKernel(e)
    ensures Base(env, Step(env, st, e))
  {
    match e
    case Test(s, g) => TestNets(env, st, s, g);
    case Enqueue(s, k) => EnqueueNets(env, st, s, k);
    case Tick(d) =>
    case KernelTake(s, more) =>
      PostBooks(st.drain, Step(env, st, e).drain.cq[|st.drain.cq|]);
      DequeueNets(env, st, s, 1);
    case KernelEnd(s, why) => PostBooks(st.drain, Ended(s, why));
    case KernelNote => PostBooks(st.drain, Other);
    case RingPasses => DequeueNets(env, st, Data, 1);
  }

  predicate IsHandOut(e: Event) {
    e.HandMerged? || e.HandBatch? || e.HandSplit? || e.TakeHead?
  }

  lemma HandBase(env: Env, st: State, e: Event)
    requires Base(env, st) && Enabled(env, st, e) && IsHandOut(e)
    ensures Base(env, Step(env, st, e))
  {
    match e
    case HandMerged => GiveBase(env, st, Step(env, st, e), st.gro.from, Hand([st.gro.left[0]], false));
    case HandBatch => GiveBase(env, st, Step(env, st, e), st.batch.from, Hand(st.batch.held[0], false));
    case HandSplit => GiveBase(env, st, Step(env, st, e), st.drain.splitFrom, Hand([st.drain.split[0]], false));
    case TakeHead => TakeHeadBase(env, st);
  }

  predicate IsDrains(e: Event) {
    e.Look? || e.Stop? || e.CancelAll? || e.EnterAgain? || e.Refuse? || e.Rebuild? || e.Start? || e.Rearm?
  }

  lemma EnteredBooks(st: State, subs: seq<Sub>, enter: Enter)
    requires Booked(st.drain) && (enter.Accepted? ==> enter.n <= |st.sq + subs|)
    ensures var next := Entered(st, subs, enter);
            && Booked(next.drain) && next == st.(sq := next.sq, drain := next.drain)
            && next.drain == st.drain.(flying := next.drain.flying, cq := next.drain.cq, free := next.drain.free)
  {
    if enter.Accepted? {
      SubmitBooks(st.drain, (st.sq + subs)[..enter.n]);
    }
  }

  lemma DrainsBase(env: Env, st: State, e: Event)
    requires Base(env, st) && Enabled(env, st, e) && IsDrains(e)
    ensures Base(env, Step(env, st, e))
  {
    match e {
      case Look => LookedBooks(st.drain, Data);
      case Stop =>
      case CancelAll(enter) => EnteredBooks(st, Cancels(st.drain.armed), enter);
      case EnterAgain(_, enter) => EnteredBooks(st, [], enter);
      case Refuse =>
      case Rebuild(_, _, _) =>
      case Start(_, enter) => EnteredBooks(st, StartSubs(st.drain.classic), enter);
      case Rearm(enter) => EnteredBooks(st, Recvs(st.drain.rearm), enter);
    }
    DrainBase(env, st, Step(env, st, e));
  }

  predicate IsSwitch(e: Event) {
    e.Settle? || e.SeeEmpty? || e.Commit? || e.Abort?
  }

  /** Every step keeps what holds in every environment. */
  lemma BaseKeeps(env: Env, st: State, e: Event)
    requires Base(env, st) && Enabled(env, st, e)
    ensures Base(env, Step(env, st, e))
  {
    if IsKernel(e) {
      KernelBase(env, st, e);
    } else if IsHandOut(e) {
      HandBase(env, st, e);
    } else if IsDrains(e) {
      DrainsBase(env, st, e);
    } else if e.Abort? {
      TurnOnBase(env, st);
    } else if !IsSwitch(e) {
      match e
      case Read(s) => ReadOneBase(env, st, s);
      case Fill(s, n) => FillBase(env, st, s, n);
      case RingRead => ReadPlainBase(env, st, Data);
    }
  }

  // ---- The switch

  /** Past the deadline, nothing tested before the option went off is still on its way. */
  lemma NothingMergedFlies(env: Env, st: State)
    requires NetInv(env, st.net) && GroInv(st) && st.gro.state == Settling && DeadlineReached(env, st)
    requires env.lag + env.early <= SETTLE_NS
    ensures FlightsSingle(st.net.flights.wellKnown) && FlightsSingle(st.net.flights.data)
  {
  }

  lemma ReadPlainSwitch(env: Env, st: State, s: Sock)
    requires NetInv(env, st.net) && GroInv(st) && HeadFull(st.net, s)
    ensures GroInv(ReadPlain(st, s))
  {
    if st.net.queue.At(s) != [] {
      DequeueNets(env, st, s, 1);
    }
  }

  lemma ReadOnSwitch(env: Env, st: State, s: Sock)
    requires NetInv(env, st.net) && GroInv(st) && HeadFull(st.net, s) && st.gro.state == On
    ensures GroInv(ReadOn(st, s))
  {
    if st.net.queue.At(s) != [] {
      DequeueNets(env, st, s, 1);
    }
  }

  lemma ReadOneSwitch(env: Env, st: State, s: Sock)
    requires NetInv(env, st.net) && GroInv(st) && HeadFull(st.net, s)
    ensures GroInv(ReadOne(st, s))
  {
    if st.gro.state == Plain {
      ReadPlainSwitch(env, st, s);
    } else if st.gro.state == On {
      ReadOnSwitch(env, st, s);
    } else {
      ReadOnSwitch(env, TurnOn(st), s);
    }
  }

  lemma KernelSwitch(env: Env, st: State, e: Event)
    requires Base(env, st) && GroInv(st) && Enabled(env, st, e) && IsKernel(e)
    ensures GroInv(Step(env, st, e))
  {
    match e
    case Test(s, g) => TestNets(env, st, s, g);
    case Enqueue(s, k) => EnqueueNets(env, st, s, k);
    case Tick(_) =>
    case KernelTake(s, more) => DequeueNets(env, st, s, 1);
    case KernelEnd(_, _) =>
    case KernelNote =>
    case RingPasses => DequeueNets(env, st, Data, 1);
  }

  /** Every step keeps what the switch says of the queues, when the settle is safe. */
  lemma SwitchKeeps(env: Env, st: State, e: Event)
    requires Base(env, st) && GroInv(st) && Enabled(env, st, e) && SettleSafe(env)
    ensures GroInv(Step(env, st, e))
  {
    if IsKernel(e) {
      KernelSwitch(env, st, e);
    } else if IsDrains(e) || IsHandOut(e) {
      StaysSwitched(env, st, e);
    } else if e.SeeEmpty? {
      NothingMergedFlies(env, st);
    } else if !IsSwitch(e) {
      match e
      case Read(s) => ReadOneSwitch(env, st, s);
      case Fill(s, n) => DequeueNets(env, st, s, n);
      case RingRead => ReadPlainSwitch(env, st, Data);
    }
  }

  lemma StaysSwitched(env: Env, st: State, e: Event)
    requires Enabled(env, st, e) && (IsDrains(e) || IsHandOut(e))
    ensures var next := Step(env, st, e);
            next.net == st.net && next.gro.state == st.gro.state && next.gro.settleAt == st.gro.settleAt
  {
  }

  // ---- Datagrams along a socket's pipeline

  /** Nothing held and no recvmsg in flight: s's hands and its queue are all there is. */
  lemma NothingBetween(st: State, s: Sock)
    requires DrainInv(st.drain) && NothingHeld(st) && DrainAway(st)
    ensures Held(st, s) == [] && FlatOf(st.drain.cq, s) == []
  {
    RingEmpty(st.drain, s);
  }

  lemma RingEmpty(d: Drain, s: Sock)
    requires DrainInv(d) && d.armed == {} && d.pending == 0
    ensures FlatOf(d.cq, s) == [] && Holding(d.cq) == 0
  {
    Unlooked(d, d.scan);
    assert d.cq[..|d.cq|] == d.cq;
    NoneHeld(d.cq, s);
  }

  /** With no recvmsg believed in flight, the completions past the scan hold nothing. */
  lemma {:induction false} Unlooked(d: Drain, k: nat)
    requires DrainInv(d) && d.armed == {} && d.pending == 0
    requires d.scan <= k <= |d.cq| && Holding(d.cq[..k]) == 0
    ensures Holding(d.cq[..|d.cq|]) == 0
    decreases |d.cq| - k
  {
    if k < |d.cq| {
      assert d.cq[..k + 1] == d.cq[..k] + [d.cq[k]];
      HoldingAppend(d.cq[..k], d.cq[k]);
      assert !d.cq[k].About(WellKnown) && !d.cq[k].About(Data);
      Unlooked(d, k + 1);
    }
  }

  /** s's pipeline is as it was. */
  ghost predicate Untouched(st: State, next: State, s: Sock) {
    && next.given.At(s) == st.given.At(s)
    && Held(next, s) == Held(st, s)
    && next.net.queue.At(s) == st.net.queue.At(s)
    && next.net.arrived.At(s) == st.net.arrived.At(s)
  }

  lemma UntouchedFlows(st: State, next: State, s: Sock)
    requires Conserved(st, s) && Untouched(st, next, s)
    ensures Conserved(next, s)
  {
  }

  /** The oldest held group is handed out. */
  lemma HandFlows(st: State, next: State, s: Sock, h: Hand)
    requires Conserved(st, s)
    requires next.given.At(s) == st.given.At(s) + [h]
    requires Held(st, s) == h.group + Held(next, s)
    requires next.net.queue.At(s) == st.net.queue.At(s) && next.net.arrived.At(s) == st.net.arrived.At(s)
    ensures Conserved(next, s)
  {
    HandedAppend(st.given.At(s), h);
    Assoc(Handed(st.given.At(s)), h.group, Held(next, s));
  }

  /** The head of the queue is taken and held behind everything held already. */
  lemma TakeFlows(st: State, next: State, s: Sock)
    requires Conserved(st, s) && st.net.queue.At(s) != []
    requires next.given.At(s) == st.given.At(s)
    requires Held(next, s) == Held(st, s) + st.net.queue.At(s)[0]
    requires next.net.queue.At(s) == st.net.queue.At(s)[1..] && next.net.arrived.At(s) == st.net.arrived.At(s)
    ensures Conserved(next, s)
  {
    var q := st.net.queue.At(s);
    var given := Handed(st.given.At(s));
    Assoc(given, Held(st, s), q[0]);
    Assoc(given + Held(st, s), q[0], Flat(q[1..]));
  }

  /** With nothing held, the head of the queue is read: its first part handed out, the rest held. */
  lemma ReadFlows(st: State, next: State, s: Sock, h: Hand, rest: Group)
    requires Conserved(st, s) && Held(st, s) == [] && st.net.queue.At(s) != []
    requires st.net.queue.At(s)[0] == h.group + rest
    requires next.given.At(s) == st.given.At(s) + [h] && Held(next, s) == rest
    requires next.net.queue.At(s) == st.net.queue.At(s)[1..] && next.net.arrived.At(s) == st.net.arrived.At(s)
    ensures Conserved(next, s)
  {
    HandedAppend(st.given.At(s), h);
    var q := st.net.queue.At(s);
    var given := Handed(st.given.At(s));
    assert given + h.group + rest + Flat(q[1..]) == given + (h.group + rest + Flat(q[1..]));
    assert given + [] + Flat(q) == given + Flat(q);
  }

  lemma EnqueueFlows(env: Env, st: State, s: Sock, k: nat, t: Sock)
    requires Enabled(env, st, Enqueue(s, k)) && Conserved(st, t)
    ensures Conserved(Step(env, st, Enqueue(s, k)), t)
  {
    var g := st.net.flights.At(s)[k].group;
    var next := Step(env, st, Enqueue(s, k));
    if s == t {
      FlatAppend(st.net.queue.At(s), g);
      var before := Handed(st.given.At(s)) + Held(st, s);
      Assoc(before, Flat(st.net.queue.At(s)), g);
    } else {
      assert Untouched(st, next, t);
    }
  }

  // ---- The kernel's drain

  lemma PostKeeps(d: Drain, c: Completion, flying: Per<nat>)
    requires DrainInv(d)
    requires forall s :: flying.At(s) <= d.flying.At(s)
    requires forall s :: c.About(s) ==> Flies(d, s)
    requires forall s :: Flies(d, s) ==> (c.Ends(s) <==> flying.At(s) == 0)
    ensures DrainInv(Post(d.(flying := flying), c))
  {
    var e := Post(d.(flying := flying), c);
    PostBooks(d, c);
    assert forall k :: 0 <= k < |d.cq| ==> e.cq[k] == d.cq[k];
    forall s | s in e.armed
      ensures Flies(e, s) || EndUnseen(e, s)
    {
      if Flies(d, s) {
        assert flying.At(s) > 0 || e.cq[|d.cq|].Ends(s);
      } else {
        var k :| d.scan <= k < |d.cq| && d.cq[k].Ends(s);
        assert e.cq[k].Ends(s);
      }
    }
  }

  /** What the HAL believes of the kernel does not depend on buffers, sizes or what is being split. */
  lemma DrainAlike(d: Drain, e: Drain)
    requires DrainInv(d)
    requires e == d.(returned := e.returned, count := e.count, size := e.size, truncated := e.truncated, split := e.split,
                     splitFrom := e.splitFrom, classic := e.classic, free := e.free)
    ensures DrainInv(e)
  {
    forall s | s in e.armed
      ensures Flies(e, s) || EndUnseen(e, s)
    {
      if !Flies(d, s) {
        var k :| d.scan <= k < |d.cq| && d.cq[k].Ends(s);
        assert e.cq[k].Ends(s);
      }
    }
  }

  /** A step that only touches the drain's book-keeping moves no datagram. */
  lemma DrainOnly(st: State, d: Drain)
    requires Flow(st) && DrainInv(d) && d.split == st.drain.split && d.splitFrom == st.drain.splitFrom
    requires FlatOf(d.cq, WellKnown) == FlatOf(st.drain.cq, WellKnown)
    requires FlatOf(d.cq, Data) == FlatOf(st.drain.cq, Data)
    ensures Flow(st.(drain := d))
  {
    var next := st.(drain := d);
    assert Ahead(next, WellKnown) == Ahead(st, WellKnown) && Ahead(next, Data) == Ahead(st, Data);
    UntouchedFlows(st, next, WellKnown);
    UntouchedFlows(st, next, Data);
  }

  lemma KernelTakeFlows(env: Env, st: State, s: Sock, more: bool, t: Sock)
    requires Conserved(st, t) && Enabled(env, st, KernelTake(s, more))
    ensures Conserved(Step(env, st, KernelTake(s, more)), t)
  {
    var next := Step(env, st, KernelTake(s, more));
    FlatOfAppend(st.drain.cq, next.drain.cq[|st.drain.cq|], t);
    assert Ahead(next, t) == Ahead(st, t);
    if s == t {
      var g := st.net.queue.At(s)[0];
      Assoc(Ahead(st, s), FlatOf(st.drain.cq, s), g);
      TakeFlows(st, next, t);
    } else {
      UntouchedFlows(st, next, t);
    }
  }

  lemma KernelPostFlow(st: State, c: Completion, flying: Per<nat>)
    requires Flow(st) && !c.Took?
    requires forall s :: flying.At(s) <= st.drain.flying.At(s)
    requires forall s :: c.About(s) ==> Flies(st.drain, s)
    requires forall s :: Flies(st.drain, s) ==> (c.Ends(s) <==> flying.At(s) == 0)
    ensures Flow(st.(drain := Post(st.drain.(flying := flying), c)))
  {
    PostKeeps(st.drain, c, flying);
    FlatOfAppend(st.drain.cq, c, WellKnown);
    FlatOfAppend(st.drain.cq, c, Data);
    DrainOnly(st, Post(st.drain.(flying := flying), c));
  }

  lemma KernelTakeFlow(env: Env, st: State, s: Sock, more: bool)
    requires Flow(st) && Enabled(env, st, KernelTake(s, more))
    ensures Flow(Step(env, st, KernelTake(s, more)))
  {
    var next := Step(env, st, KernelTake(s, more));
    var c := next.drain.cq[|st.drain.cq|];
    PostKeeps(st.drain, c, next.drain.flying);
    DrainAlike(Post(st.drain.(flying := next.drain.flying), c), next.drain);
    KernelTakeFlows(env, st, s, more, WellKnown);
    KernelTakeFlows(env, st, s, more, Data);
  }

  lemma KernelFlow(env: Env, st: State, e: Event)
    requires Steady(env) && Flow(st) && Enabled(env, st, e) && IsKernel(e)
    ensures Flow(Step(env, st, e))
  {
    match e
    case Test(s, g) =>
      UntouchedFlows(st, Step(env, st, e), WellKnown);
      UntouchedFlows(st, Step(env, st, e), Data);
    case Enqueue(s, k) =>
      EnqueueFlows(env, st, s, k, WellKnown);
      EnqueueFlows(env, st, s, k, Data);
    case Tick(d) =>
    case KernelTake(s, more) => KernelTakeFlow(env, st, s, more);
    case KernelEnd(s, why) => KernelPostFlow(st, Ended(s, why), Landed(st.drain, s).flying);
    case KernelNote =>
      assert st.drain == st.drain.(flying := st.drain.flying);
      KernelPostFlow(st, Other, st.drain.flying);
  }

  // ---- The HAL's drain

  /** Submissions that are no recvmsg add completions that concern none. */
  lemma {:induction false} SubmitNotes(d: Drain, subs: seq<Sub>)
    requires DrainInv(d) && forall k :: 0 <= k < |subs| ==> !subs[k].Recv?
    ensures DrainInv(SubmitAll(d, subs)) && Noted(d, SubmitAll(d, subs))
    ensures (forall k :: 0 <= k < |subs| ==> subs[k].Cancel?) ==> SubmitAll(d, subs).free == d.free
    decreases |subs|
  {
    if subs != [] {
      var posted := Submitted(d, subs[0]);
      SubmitNote(d, subs[0]);
      SubmitNotes(posted, subs[1..]);
      NotedTwice(d, posted, SubmitAll(posted, subs[1..]));
    }
  }

  /** e is d with completions that concern no recvmsg. */
  ghost predicate Noted(d: Drain, e: Drain) {
    && e == d.(cq := e.cq, free := e.free) && d.cq <= e.cq && (forall k :: |d.cq| <= k < |e.cq| ==> e.cq[k] == Other)
    && Holding(e.cq) == Holding(d.cq)
    && FlatOf(e.cq, WellKnown) == FlatOf(d.cq, WellKnown) && FlatOf(e.cq, Data) == FlatOf(d.cq, Data)
  }

  lemma SubmitNote(d: Drain, sub: Sub)
    requires DrainInv(d) && !sub.Recv?
    ensures DrainInv(Submitted(d, sub)) && Noted(d, Submitted(d, sub))
  {
    assert d == d.(flying := d.flying);
    PostKeeps(d, Other, d.flying);
    DrainAlike(Post(d, Other), Submitted(d, sub));
    HoldingAppend(d.cq, Other);
    FlatOfAppend(d.cq, Other, WellKnown);
    FlatOfAppend(d.cq, Other, Data);
  }

  lemma NotedTwice(d: Drain, e: Drain, f: Drain)
    requires Noted(d, e) && Noted(e, f)
    ensures Noted(d, f)
  {
    forall k | |d.cq| <= k < |f.cq|
      ensures f.cq[k] == Other
    {
      if k < |e.cq| {
        assert f.cq[k] == e.cq[k];
      }
    }
  }

  lemma {:induction false} SubmitSplit(d: Drain, a: seq<Sub>, b: seq<Sub>)
    ensures SubmitAll(d, a + b) == SubmitAll(SubmitAll(d, a), b)
    decreases |a|
  {
    if a == [] {
      assert a + b == b;
    } else {
      assert (a + b)[1..] == a[1..] + b;
      SubmitSplit(Submitted(d, a[0]), a[1..], b);
    }
  }

  function LiftedBy(flying: Per<nat>, socks: set<Sock>): Per<nat> {
    Per(flying.wellKnown + if WellKnown in socks then 1 else 0, flying.data + if Data in socks then 1 else 0)
  }

  lemma SubmitRecvs(d: Drain, socks: set<Sock>)
    ensures SubmitAll(d, Recvs(socks)) == d.(flying := LiftedBy(d.flying, socks))
  {
    var first: seq<Sub> := if WellKnown in socks then [Recv(WellKnown)] else [];
    var second: seq<Sub> := if Data in socks then [Recv(Data)] else [];
    SubmitSplit(d, first, second);
  }

  /** Taken whole, an enter leaves nothing queued. */
  lemma EnteredWhole(env: Env, st: State, subs: seq<Sub>, enter: Enter)
    requires env.whole && st.sq == [] && MayEnter(env, |subs|, enter)
    ensures Entered(st, subs, enter) == st.(drain := SubmitAll(st.drain, subs))
  {
    FullPrefix(subs);
    EnteredAll(st, subs, st.sq + subs, [], subs);
  }

  lemma EnteredAll(st: State, subs: seq<Sub>, sq: seq<Sub>, rest: seq<Sub>, taken: seq<Sub>)
    requires sq == st.sq + subs && |taken| <= |sq| && rest == sq[|taken|..] && taken == sq[..|taken|]
    ensures Entered(st, subs, Accepted(|taken|)) == st.(sq := rest, drain := SubmitAll(st.drain, taken))
  {
  }

  lemma RecvsKeeps(d: Drain, e: Drain, socks: set<Sock>)
    requires DrainInv(d) && socks !! d.armed
    requires e == d.(running := true, armed := d.armed + socks, rearm := d.rearm - socks, flying := LiftedBy(d.flying, socks))
    ensures DrainInv(e)
  {
    forall s | s in e.armed
      ensures Flies(e, s) || EndUnseen(e, s)
    {
      if s in d.armed && !Flies(d, s) {
        var k :| d.scan <= k < |d.cq| && d.cq[k].Ends(s);
        assert e.cq[k].Ends(s);
      }
    }
    assert forall k, s {:trigger d.cq[k].Ends(s)} :: d.scan <= k < |d.cq| && d.cq[k].Ends(s) ==> d.cq[k].About(s);
  }

  /** A start taken whole: the provisions' completions, and a recvmsg in flight on each socket. */
  function StartedDrain(d: Drain): Drain {
    var noted := SubmitAll(d, Provisions(d.classic));
    noted.(running := true, armed := {WellKnown, Data}, flying := LiftedBy(noted.flying, {WellKnown, Data}))
  }

  lemma StartedWhole(env: Env, st: State, enter: Enter)
    requires env.whole && st.sq == [] && MayEnter(env, |StartSubs(st.drain.classic)|, enter)
    ensures Started(st, enter) == st.(drain := StartedDrain(st.drain), mixed := st.mixed || MergesUnderSettle(st))
  {
    var classic := st.drain.classic;
    EnteredWhole(env, st, StartSubs(classic), enter);
    SubmitSplit(st.drain, Provisions(classic), Recvs({WellKnown, Data}));
    SubmitRecvs(SubmitAll(st.drain, Provisions(classic)), {WellKnown, Data});
  }

  lemma ProvisionsFree(d: Drain)
    ensures SubmitAll(d, Provisions(d.classic)).free == Supplied(d).free
  {
    if d.classic {
      assert Provisions(true)[1..] == [Provide] && [Provide][1..] == [];
      var removed := Submitted(d, Remove);
      assert SubmitAll(removed, [Provide]) == SubmitAll(Submitted(removed, Provide), []);
    }
  }

  lemma StartedKeeps(d: Drain)
    requires DrainInv(d) && !d.running && d.armed == {}
    ensures var e := StartedDrain(d);
            && DrainInv(e) && d.cq <= e.cq && e.free == Supplied(d).free && Holding(e.cq) == Holding(d.cq)
            && e == d.(running := true, armed := e.armed, flying := e.flying, cq := e.cq, free := e.free)
            && (forall k :: |d.cq| <= k < |e.cq| ==> e.cq[k] == Other)
            && FlatOf(e.cq, WellKnown) == FlatOf(d.cq, WellKnown) && FlatOf(e.cq, Data) == FlatOf(d.cq, Data)
            && Flies(e, WellKnown) && Flies(e, Data)
  {
    SubmitNotes(d, Provisions(d.classic));
    ProvisionsFree(d);
    var noted, both := SubmitAll(d, Provisions(d.classic)), {WellKnown, Data};
    assert noted.armed + both == both && noted.rearm - both == noted.rearm;
    RecvsKeeps(noted, StartedDrain(d), both);
  }

  lemma StartFlow(env: Env, st: State, enter: Enter)
    requires env.whole && Flow(st) && DrainAway(st) && MayEnter(env, |StartSubs(st.drain.classic)|, enter)
    ensures Flow(Started(st, enter))
    ensures Started(st, enter) == st.(drain := StartedDrain(st.drain), mixed := st.mixed || MergesUnderSettle(st))
  {
    StartedWhole(env, st, enter);
    StartedKeeps(st.drain);
    var next := st.(drain := StartedDrain(st.drain));
    DrainOnly(st, next.drain);
    SwitchFlow(next, Started(st, enter));
  }

  lemma RearmFlow(env: Env, st: State, enter: Enter)
    requires env.whole && Flow(st) && Enabled(env, st, Rearm(enter))
    ensures Flow(Rearmed(st, enter))
    ensures var next := Rearmed(st, enter);
            next == st.(drain := next.drain)
            && next.drain == st.drain.(armed := next.drain.armed, rearm := {}, flying := next.drain.flying)
  {
    EnteredWhole(env, st, Recvs(st.drain.rearm), enter);
    SubmitRecvs(st.drain, st.drain.rearm);
    var d := Rearmed(st, enter).drain;
    RecvsKeeps(st.drain, d, st.drain.rearm);
    DrainOnly(st, d);
  }

  lemma CancelFlow(env: Env, st: State, subs: seq<Sub>, enter: Enter)
    requires env.whole && Flow(st) && MayEnter(env, |subs|, enter) && forall k :: 0 <= k < |subs| ==> subs[k].Cancel?
    ensures Flow(Entered(st, subs, enter))
    ensures var next := Entered(st, subs, enter);
            && next == st.(drain := st.drain.(cq := next.drain.cq)) && st.drain.cq <= next.drain.cq
            && Holding(next.drain.cq) == Holding(st.drain.cq)
            && forall k :: |st.drain.cq| <= k < |next.drain.cq| ==> next.drain.cq[k] == Other
  {
    EnteredWhole(env, st, subs, enter);
    SubmitNotes(st.drain, subs);
    DrainOnly(st, SubmitAll(st.drain, subs));
  }

  lemma LookFlow(st: State)
    requires Flow(st)
    ensures Flow(st.(drain := Looked(st.drain)))
  {
    LookedBooks(st.drain, WellKnown);
    LookedBooks(st.drain, Data);
    LookedKeeps(st.drain);
    DrainOnly(st, Looked(st.drain));
  }

  lemma RebuildFlow(env: Env, st: State, bytes: nat, count: nat, classic: bool)
    requires Flow(st) && Enabled(env, st, Rebuild(bytes, count, classic))
    ensures Flow(Step(env, st, Rebuild(bytes, count, classic)))
  {
    RingEmpty(st.drain, WellKnown);
    RingEmpty(st.drain, Data);
    DrainOnly(st, Rebuilt(st.drain, st.gro.state, bytes, count, classic));
  }

  lemma DrainsFlow(env: Env, st: State, e: Event)
    requires Steady(env) && Flow(st) && Enabled(env, st, e) && IsDrains(e)
    ensures Flow(Step(env, st, e))
  {
    match e
    case Look => LookFlow(st);
    case Stop => DrainOnly(st, st.drain.(running := false, rearm := {}));
    case CancelAll(enter) => CancelFlow(env, st, Cancels(st.drain.armed), enter);
    case EnterAgain(_, enter) => CancelFlow(env, st, [], enter);
    case Rebuild(bytes, count, classic) => RebuildFlow(env, st, bytes, count, classic);
    case Start(_, enter) => StartFlow(env, st, enter);
    case Rearm(enter) => RearmFlow(env, st, enter);
  }

  // ---- Hand-outs

  /** Taking `a` off the front of the first of four stretches takes it off the front of them all. */
  lemma FrontOff(a: Group, rest: Group, b: Group, c: Group, d: Group)
    ensures (a + rest) + b + c + d == a + (rest + b + c + d)
  {
  }

  function Opposite(s: Sock): Sock {
    if s == WellKnown then Data else WellKnown
  }

  /** A hand-out of the oldest thing held for s, whatever layer held it. */
  lemma HandOut(st: State, next: State, s: Sock, h: Hand)
    requires Flow(st) && next.net == st.net && next.sq == st.sq && DrainInv(next.drain)
    requires next.given == st.given.With(s, st.given.At(s) + [h])
    requires Held(st, s) == h.group + Held(next, s)
    requires Held(st, Opposite(s)) == Held(next, Opposite(s))
    ensures Flow(next)
  {
    HandFlows(st, next, s, h);
    UntouchedFlows(st, next, Opposite(s));
  }

  lemma HandMergedHeld(st: State, next: State, s: Sock)
    requires st.gro.left != [] && next.gro == st.gro.(left := st.gro.left[1..])
    requires next.batch == st.batch && next.drain == st.drain
    ensures Held(st, s) == (if s == st.gro.from then [st.gro.left[0]] else []) + Held(next, s)
  {
    if s == st.gro.from {
      assert st.gro.left == [st.gro.left[0]] + st.gro.left[1..];
      FrontOff([st.gro.left[0]], st.gro.left[1..], if st.batch.from == s then Flat(st.batch.held) else [],
               if st.drain.splitFrom == s then st.drain.split else [], FlatOf(st.drain.cq, s));
    }
  }

  lemma HandMergedFlow(env: Env, st: State)
    requires Flow(st) && Enabled(env, st, HandMerged)
    ensures Flow(Step(env, st, HandMerged))
  {
    var next := Step(env, st, HandMerged);
    HandMergedHeld(st, next, WellKnown);
    HandMergedHeld(st, next, Data);
    HandOut(st, next, st.gro.from, Hand([st.gro.left[0]], false));
  }

  lemma HandBatchHeld(st: State, next: State, s: Sock)
    requires st.gro.left == [] && st.batch.held != [] && next.batch == st.batch.(held := st.batch.held[1..])
    requires next.gro == st.gro && next.drain == st.drain
    ensures Held(st, s) == (if s == st.batch.from then st.batch.held[0] else []) + Held(next, s)
  {
    var nothing: Group := [];
    if s == st.batch.from {
      var held := st.batch.held;
      assert nothing + Flat(held) == Flat(held) && nothing + Flat(held[1..]) == Flat(held[1..]);
      FrontOff(held[0], Flat(held[1..]), if st.drain.splitFrom == s then st.drain.split else [],
               FlatOf(st.drain.cq, s), nothing);
    }
  }

  lemma HandBatchFlow(env: Env, st: State)
    requires Flow(st) && Enabled(env, st, HandBatch)
    ensures Flow(Step(env, st, HandBatch))
  {
    var next := Step(env, st, HandBatch);
    HandBatchHeld(st, next, WellKnown);
    HandBatchHeld(st, next, Data);
    HandOut(st, next, st.batch.from, Hand(st.batch.held[0], false));
  }

  lemma HandSplitHeld(st: State, next: State, s: Sock)
    requires st.gro.left == [] && st.batch.held == [] && st.drain.split != []
    requires next.gro == st.gro && next.batch == st.batch && next.drain.cq == st.drain.cq
    requires next.drain.split == st.drain.split[1..] && next.drain.splitFrom == st.drain.splitFrom
    ensures Held(st, s) == (if s == st.drain.splitFrom then [st.drain.split[0]] else []) + Held(next, s)
  {
    var nothing: Group := [];
    if s == st.drain.splitFrom {
      var split := st.drain.split;
      assert Ahead(st, s) == split && Ahead(next, s) == split[1..] && split == [split[0]] + split[1..];
      FrontOff([split[0]], split[1..], FlatOf(st.drain.cq, s), nothing, nothing);
    }
  }

  lemma HandSplitFlow(env: Env, st: State)
    requires Flow(st) && Enabled(env, st, HandSplit)
    ensures Flow(Step(env, st, HandSplit))
  {
    var next := Step(env, st, HandSplit);
    var s := st.drain.splitFrom;
    HandSplitHeld(st, next, s);
    HandSplitHeld(st, next, Opposite(s));
    SplitKeeps(st.drain);
    HandOut(st, next, s, Hand([st.drain.split[0]], false));
  }

  lemma SplitKeeps(d: Drain)
    requires DrainInv(d) && d.split != []
    ensures DrainInv(SplitOne(d))
  {
    DrainAlike(d, SplitOne(d));
  }

  lemma PopKeeps(d: Drain, e: Drain)
    requires DrainInv(d) && d.cq != [] && d.scan > 0 && Booked(e)
    requires e.cq == d.cq[1..] && e.scan == d.scan - 1 && e.armed == d.armed && e.flying == d.flying
    requires e.rearm == d.rearm && e.running == d.running
    ensures DrainInv(e)
  {
    assert forall k :: 0 <= k < |e.cq| ==> e.cq[k] == d.cq[k + 1];
    forall s | s in e.armed
      ensures Flies(e, s) || EndUnseen(e, s)
    {
      if !Flies(d, s) {
        var k :| d.scan <= k < |d.cq| && d.cq[k].Ends(s);
        assert e.cq[k - 1].Ends(s);
      }
    }
  }

  lemma TakeHeadHeld(st: State, next: State, s: Sock)
    requires st.gro.left == [] && st.batch.held == [] && st.drain.split == [] && st.drain.cq != []
    requires next.gro == st.gro && next.batch == st.batch && next.drain.cq == st.drain.cq[1..]
    ensures var c := st.drain.cq[0];
            var mine := Of(c, s);
            && Held(st, s) == mine + FlatOf(next.drain.cq, s)
            && (next.drain.split == [] ==> Held(next, s) == FlatOf(next.drain.cq, s))
            && (next.drain.split != [] ==>
                  Held(next, s) == (if next.drain.splitFrom == s then next.drain.split else []) + FlatOf(next.drain.cq, s))
  {
    var nothing: Group := [];
    var split := if next.drain.splitFrom == s then next.drain.split else nothing;
    assert Ahead(st, s) == nothing && Ahead(next, s) == split;
    assert nothing + FlatOf(st.drain.cq, s) == FlatOf(st.drain.cq, s);
    assert nothing + FlatOf(next.drain.cq, s) == FlatOf(next.drain.cq, s);
  }

  lemma TakeHeadGives(st: State, next: State)
    requires Flow(st) && st.gro.left == [] && st.batch.held == [] && st.drain.split == [] && st.drain.cq != []
    requires next.gro == st.gro && next.batch == st.batch && next.net == st.net && next.sq == st.sq
    requires DrainInv(next.drain) && next.drain.cq == st.drain.cq[1..] && next.drain.split == []
    requires var c := st.drain.cq[0];
             c.Took? && next.given == st.given.With(c.sock, st.given.At(c.sock) + [Hand(c.group, c.cut)])
    ensures Flow(next)
  {
    var c := st.drain.cq[0];
    TakeHeadHeld(st, next, c.sock);
    TakeHeadHeld(st, next, Opposite(c.sock));
    assert Held(st, Opposite(c.sock)) == Held(next, Opposite(c.sock));
    HandOut(st, next, c.sock, Hand(c.group, c.cut));
  }

  lemma TakeHeadMoves(st: State, next: State)
    requires Flow(st) && st.gro.left == [] && st.batch.held == [] && st.drain.split == [] && st.drain.cq != []
    requires next.gro == st.gro && next.batch == st.batch && next.net == st.net && next.sq == st.sq
    requires DrainInv(next.drain) && next.drain.cq == st.drain.cq[1..] && next.given == st.given
    requires var c := st.drain.cq[0];
             if c.Took? then next.drain.split == c.group != [] && next.drain.splitFrom == c.sock
             else next.drain.split == []
    ensures Flow(next)
  {
    TakeHeadHeld(st, next, WellKnown);
    TakeHeadHeld(st, next, Data);
    UntouchedFlows(st, next, WellKnown);
    UntouchedFlows(st, next, Data);
  }

  lemma PoppedKeeps(d: Drain)
    requires DrainInv(d) && d.cq != [] && d.scan > 0 && d.pending > 0
    ensures DrainInv(Popped(d))
  {
    PopBooks(d);
    PopKeeps(d, Popped(d));
  }

  lemma TakeHeadFlow(st: State)
    requires Flow(st) && st.gro.left == [] && st.batch.held == [] && st.drain.split == []
    requires st.drain.cq != [] && st.drain.scan > 0 && st.drain.pending > 0
    ensures Flow(HeadTaken(st))
  {
    var c := st.drain.cq[0];
    PoppedKeeps(st.drain);
    if c.Took? && !Merged(c) {
      TakeHeadGives(st, HeadTaken(st));
    } else {
      TakeHeadMoves(st, HeadTaken(st));
    }
  }

  lemma HandStepFlow(env: Env, st: State, e: Event)
    requires Base(env, st) && Flow(st) && Enabled(env, st, e) && IsHandOut(e)
    ensures Flow(Step(env, st, e))
  {
    match e
    case HandMerged => HandMergedFlow(env, st);
    case HandBatch => HandBatchFlow(env, st);
    case HandSplit => HandSplitFlow(env, st);
    case TakeHead => TakeHeadFlow(st);
  }

  // ---- Reads

  lemma SwitchFlow(st: State, next: State)
    requires Flow(st)
    requires next.net.queue == st.net.queue && next.net.arrived == st.net.arrived && next.gro.left == st.gro.left
    requires next.gro.from == st.gro.from && next.sq == st.sq
    requires next.batch == st.batch && next.drain == st.drain && next.given == st.given
    ensures Flow(next)
  {
    assert Ahead(next, WellKnown) == Ahead(st, WellKnown) && Ahead(next, Data) == Ahead(st, Data);
    UntouchedFlows(st, next, WellKnown);
    UntouchedFlows(st, next, Data);
  }

  /** With nothing held, the head of s's queue is read: its first part handed out, the rest held. */
  lemma ReadOut(st: State, next: State, s: Sock, h: Hand, rest: Group)
    requires Flow(st) && Held(st, s) == [] && st.net.queue.At(s) != [] && st.net.queue.At(s)[0] == h.group + rest
    requires next.net == Dequeue(st.net, s, 1) && next.batch == st.batch && next.drain == st.drain && next.sq == st.sq
    requires next.given == st.given.With(s, st.given.At(s) + [h])
    requires Held(next, s) == rest && Held(next, Opposite(s)) == Held(st, Opposite(s))
    ensures Flow(next)
  {
    ReadFlows(st, next, s, h, rest);
    UntouchedFlows(st, next, Opposite(s));
  }

  /** What a read of a merged group leaves held. */
  lemma LeftHeld(st: State, next: State, s: Sock, t: Sock)
    requires NothingHeld(st) && FlatOf(st.drain.cq, t) == []
    requires next.batch == st.batch && next.drain == st.drain && (next.gro.from == s || next.gro.left == [])
    ensures Held(next, t) == if t == s then next.gro.left else []
  {
  }

  /** What gro_read() leaves held, and where. */
  lemma ReadOnShape(st: State, s: Sock)
    requires NothingHeld(st) && FlatOf(st.drain.cq, WellKnown) == [] && FlatOf(st.drain.cq, Data) == []
    requires st.net.queue.At(s) != [] && HeadFull(st.net, s)
    ensures var g := st.net.queue.At(s)[0];
            var next := ReadOn(st, s);
            && g == [g[0]] + g[1..]
            && next.net == Dequeue(st.net, s, 1) && next.batch == st.batch && next.drain == st.drain && next.sq == st.sq
            && next.given == st.given.With(s, st.given.At(s) + [Hand([g[0]], false)])
            && Held(next, s) == g[1..] && Held(next, Opposite(s)) == []
  {
    LeftHeld(st, ReadOn(st, s), s, s);
    LeftHeld(st, ReadOn(st, s), s, Opposite(s));
  }

  lemma ReadOnFlow(st: State, s: Sock)
    requires Flow(st) && NothingHeld(st) && DrainAway(st) && HeadFull(st.net, s)
    ensures Flow(ReadOn(st, s))
  {
    if st.net.queue.At(s) != [] {
      var g := st.net.queue.At(s)[0];
      NothingBetween(st, WellKnown);
      NothingBetween(st, Data);
      ReadOnShape(st, s);
      ReadOut(st, ReadOn(st, s), s, Hand([g[0]], false), g[1..]);
    }
  }

  lemma ReadPlainFlow(st: State, s: Sock)
    requires Flow(st) && NothingHeld(st) && DrainAway(st) && HeadFull(st.net, s)
    ensures Flow(ReadPlain(st, s))
  {
    if st.net.queue.At(s) != [] {
      var g := st.net.queue.At(s)[0];
      var next := Give(st.(net := Dequeue(st.net, s, 1)), s, Hand(g, false));
      NothingBetween(st, s);
      NothingBetween(st, Opposite(s));
      LeftHeld(st, next, s, s);
      LeftHeld(st, next, s, Opposite(s));
      assert g == g + [];
      ReadOut(st, next, s, Hand(g, false), []);
      SwitchFlow(next, ReadPlain(st, s));
    }
  }

  lemma ReadOneFlow(st: State, s: Sock)
    requires Flow(st) && MayRead(st) && HeadFull(st.net, s)
    ensures Flow(ReadOne(st, s))
  {
    if st.gro.state == Plain {
      ReadPlainFlow(st, s);
    } else if st.gro.state == On {
      ReadOnFlow(st, s);
    } else {
      SwitchFlow(st, TurnOn(st));
      ReadOnFlow(TurnOn(st), s);
    }
  }

  lemma {:induction false} FlatSplit(groups: seq<Group>, n: nat)
    requires n <= |groups|
    ensures Flat(groups) == Flat(groups[..n]) + Flat(groups[n..])
  {
    if n > 0 {
      FlatSplit(groups[1..], n - 1);
      assert groups[..n][1..] == groups[1..][..n - 1] && groups[1..][n - 1..] == groups[n..];
    }
  }

  lemma FillFlows(st: State, next: State, s: Sock, n: nat)
    requires Conserved(st, s) && Held(st, s) == [] && 0 < n <= |st.net.queue.At(s)|
    requires var q := st.net.queue.At(s);
             && next.given.At(s) == st.given.At(s) + [Hand(q[0], false)]
             && Held(next, s) == Flat(q[1..n]) && next.net.queue.At(s) == q[n..]
             && next.net.arrived.At(s) == st.net.arrived.At(s)
    ensures Conserved(next, s)
  {
    var q := st.net.queue.At(s);
    FlatSplit(q[1..], n - 1);
    assert q[1..][..n - 1] == q[1..n] && q[1..][n - 1..] == q[n..];
    HandedAppend(st.given.At(s), Hand(q[0], false));
    var given := Handed(st.given.At(s));
    assert given + [] == given;
    assert given + q[0] + Flat(q[1..n]) + Flat(q[n..]) == given + (q[0] + (Flat(q[1..n]) + Flat(q[n..])));
  }

  lemma FillShape(st: State, s: Sock, n: nat)
    requires NothingHeld(st) && FlatOf(st.drain.cq, WellKnown) == [] && FlatOf(st.drain.cq, Data) == []
    requires 0 < n <= |st.net.queue.At(s)|
    ensures var next := Filled(st, s, n);
            && Held(next, s) == Flat(st.net.queue.At(s)[1..n]) && Held(next, Opposite(s)) == []
            && next.given.At(s) == st.given.At(s) + [Hand(st.net.queue.At(s)[0], false)]
            && next.given.At(Opposite(s)) == st.given.At(Opposite(s))
            && next.net == Dequeue(st.net, s, n) && next.net.queue.At(s) == st.net.queue.At(s)[n..]
            && next.net.queue.At(Opposite(s)) == st.net.queue.At(Opposite(s))
            && next.drain == st.drain && next.sq == st.sq
  {
  }

  lemma FillFlow(st: State, s: Sock, n: nat)
    requires Flow(st) && NothingHeld(st) && DrainAway(st) && 0 < n <= |st.net.queue.At(s)|
    ensures Flow(Filled(st, s, n))
  {
    NothingBetween(st, WellKnown);
    NothingBetween(st, Data);
    FillShape(st, s, n);
    FillFlows(st, Filled(st, s, n), s, n);
    UntouchedFlows(st, Filled(st, s, n), Opposite(s));
  }

  /** Every step keeps each socket's datagrams in line, in a steady environment. */
  lemma FlowKeeps(env: Env, st: State, e: Event)
    requires Steady(env) && Base(env, st) && Flow(st) && Enabled(env, st, e)
    ensures Flow(Step(env, st, e))
  {
    if IsKernel(e) {
      KernelFlow(env, st, e);
    } else if IsHandOut(e) {
      HandStepFlow(env, st, e);
    } else if IsDrains(e) {
      DrainsFlow(env, st, e);
    } else if IsSwitch(e) {
      SwitchFlow(st, Step(env, st, e));
    } else {
      match e
      case Read(s) => ReadOneFlow(st, s);
      case Fill(s, n) => FillFlow(st, s, n);
      case RingRead => ReadPlainFlow(st, Data);
    }
  }

  // ---- Buffers

  lemma NotDraining(st: State)
    requires DrainInv(st.drain) && DrainAway(st)
    ensures !Draining(st.drain)
  {
  }

  lemma SizeForCovers(state: GroState, bytes: nat)
    ensures SizeFor(state, bytes) >= bytes + DRAIN_HEADER
    ensures state != Plain ==> SizeFor(state, bytes) >= LONGEST
    ensures bytes <= MAX_READ ==> SizeFor(state, bytes) <= LONGEST
  {
  }

  ghost predicate SizedBig(cq: seq<Completion>, big: bool) {
    forall k :: 0 <= k < |cq| && cq[k].Took? && cq[k].sized ==> big
  }

  /** A step that leaves the buffers' size, and what of them is in use, accounted for. */
  lemma StillProvided(st: State, next: State)
    requires Provided(st) && Stocked(next.drain) && next.drain.size == st.drain.size && next.drain.count == st.drain.count
    requires SizedBig(next.drain.cq, Big(st.drain)) && (next.drain.split != [] ==> Big(st.drain))
    requires Draining(next.drain) && next.gro.state != Plain ==> Big(st.drain)
    ensures Provided(next)
  {
  }

  lemma TakeProvided(env: Env, st: State, s: Sock, more: bool)
    requires Base(env, st) && Provided(st) && Enabled(env, st, KernelTake(s, more))
    ensures Provided(KernelTook(st, s, more))
  {
    var next := KernelTook(st, s, more);
    HoldingAppend(st.drain.cq, next.drain.cq[|st.drain.cq|]);
    assert SizedBig(next.drain.cq, Big(st.drain));
    StillProvided(st, next);
  }

  lemma PostProvided(st: State, d: Drain, c: Completion)
    requires Provided(st) && !c.Took? && d == st.drain.(flying := d.flying) && (Draining(d) ==> Draining(st.drain))
    ensures Provided(st.(drain := Post(d, c)))
  {
    HoldingAppend(st.drain.cq, c);
    NotesAside(st.drain.cq, c, Big(st.drain));
    StillProvided(st, st.(drain := Post(d, c)));
  }

  lemma NotesAside(cq: seq<Completion>, c: Completion, big: bool)
    requires SizedBig(cq, big) && !c.Took?
    ensures SizedBig(cq + [c], big)
  {
  }

  lemma KernelProvided(env: Env, st: State, e: Event)
    requires Base(env, st) && Provided(st) && Enabled(env, st, e) && IsKernel(e)
    ensures Provided(Step(env, st, e))
  {
    match e
    case Test(_, _) =>
    case Enqueue(_, _) =>
    case Tick(_) =>
    case KernelTake(s, more) => TakeProvided(env, st, s, more);
    case KernelEnd(s, why) => PostProvided(st, Landed(st.drain, s), Ended(s, why));
    case KernelNote => PostProvided(st, st.drain, Other);
    case RingPasses =>
  }

  lemma NotesSized(cq: seq<Completion>, more: seq<Completion>, big: bool)
    requires SizedBig(cq, big) && cq <= more && forall k :: |cq| <= k < |more| ==> more[k] == Other
    ensures SizedBig(more, big)
  {
  }

  lemma LookProvided(st: State)
    requires Booked(st.drain) && Provided(st)
    ensures Provided(st.(drain := Looked(st.drain)))
  {
    LookedBooks(st.drain, Data);
    var n := LookSuffix(st.drain);
    SuffixSized(st.drain.cq, n, Big(st.drain));
    StillProvided(st, st.(drain := Looked(st.drain)));
  }

  lemma SuffixSized(cq: seq<Completion>, n: nat, big: bool)
    requires SizedBig(cq, big) && n <= |cq|
    ensures SizedBig(cq[n..], big)
  {
  }

  lemma StartProvided(env: Env, st: State, bytes: nat, enter: Enter)
    requires env.whole && Flow(st) && Provided(st) && Enabled(env, st, Start(bytes, enter))
    ensures Provided(Started(st, enter))
  {
    SizeForCovers(st.gro.state, bytes);
    StartFlow(env, st, enter);
    StartedKeeps(st.drain);
    NotesSized(st.drain.cq, Started(st, enter).drain.cq, Big(st.drain));
    StillProvided(st, Started(st, enter));
  }

  lemma RebuildProvided(env: Env, st: State, e: Event)
    requires Flow(st) && Enabled(env, st, e) && e.Rebuild?
    ensures Provided(Step(env, st, e))
  {
    NotDraining(st);
  }

  lemma CancelProvided(env: Env, st: State, subs: seq<Sub>, enter: Enter)
    requires env.whole && Flow(st) && Provided(st) && MayEnter(env, |subs|, enter)
    requires forall k :: 0 <= k < |subs| ==> subs[k].Cancel?
    ensures Provided(Entered(st, subs, enter))
  {
    CancelFlow(env, st, subs, enter);
    NotesSized(st.drain.cq, Entered(st, subs, enter).drain.cq, Big(st.drain));
    StillProvided(st, Entered(st, subs, enter));
  }

  lemma DrainsProvided(env: Env, st: State, e: Event)
    requires Steady(env) && Base(env, st) && Flow(st) && Provided(st) && Enabled(env, st, e) && IsDrains(e)
    ensures Provided(Step(env, st, e))
  {
    match e
    case Look => LookProvided(st);
    case Stop => StopProvided(st);
    case CancelAll(enter) => CancelProvided(env, st, Cancels(st.drain.armed), enter);
    case EnterAgain(_, enter) => CancelProvided(env, st, [], enter);
    case Rebuild(_, _, _) => RebuildProvided(env, st, e);
    case Start(bytes, enter) => StartProvided(env, st, bytes, enter);
    case Rearm(enter) => RearmProvided(env, st, enter);
  }

  lemma StopProvided(st: State)
    requires Provided(st)
    ensures Provided(st.(drain := st.drain.(running := false, rearm := {})))
  {
    StillProvided(st, st.(drain := st.drain.(running := false, rearm := {})));
  }

  lemma RearmProvided(env: Env, st: State, enter: Enter)
    requires env.whole && Flow(st) && Provided(st) && Enabled(env, st, Rearm(enter))
    ensures Provided(Rearmed(st, enter))
  {
    RearmFlow(env, st, enter);
    StillProvided(st, Rearmed(st, enter));
  }

  lemma PoppedProvided(d: Drain)
    requires Stocked(d) && d.cq != [] && d.scan > 0 && d.pending > 0 && d.split == []
    ensures Stocked(Popped(d))
  {
    HoldingHead(d.cq);
  }

  lemma TakeHeadProvided(st: State)
    requires Provided(st) && st.drain.cq != [] && st.drain.scan > 0 && st.drain.pending > 0 && st.drain.split == []
    ensures Provided(HeadTaken(st))
  {
    PoppedProvided(st.drain);
    SuffixSized(st.drain.cq, 1, Big(st.drain));
    StillProvided(st, HeadTaken(st));
  }

  lemma HandProvided(env: Env, st: State, e: Event)
    requires Provided(st) && Enabled(env, st, e) && IsHandOut(e)
    ensures Provided(Step(env, st, e))
  {
    if e.TakeHead? {
      TakeHeadProvided(st);
    } else {
      StillProvided(st, Step(env, st, e));
    }
  }

  /** Reads and switches leave the drain alone, and are made with none under way. */
  lemma ElseProvided(env: Env, st: State, e: Event)
    requires Flow(st) && Provided(st) && Enabled(env, st, e) && !IsKernel(e) && !IsHandOut(e) && !IsDrains(e)
    ensures Provided(Step(env, st, e))
  {
    NotDraining(st);
    SameDrain(env, st, e);
    StillProvided(st, Step(env, st, e));
  }

  lemma SameDrain(env: Env, st: State, e: Event)
    requires Enabled(env, st, e) && !IsKernel(e) && !IsHandOut(e) && !IsDrains(e)
    ensures Step(env, st, e).drain == st.drain
  {
  }

  /** Every step keeps the buffers accounted for, in a steady environment. */
  lemma ProvidedKeeps(env: Env, st: State, e: Event)
    requires Steady(env) && Base(env, st) && Flow(st) && Provided(st) && Enabled(env, st, e)
    ensures Provided(Step(env, st, e))
  {
    if IsKernel(e) {
      KernelProvided(env, st, e);
    } else if IsHandOut(e) {
      HandProvided(env, st, e);
    } else if IsDrains(e) {
      DrainsProvided(env, st, e);
    } else {
      ElseProvided(env, st, e);
    }
  }

  // ---- One datagram a hand-out

  ghost predicate TakenAllWell(cq: seq<Completion>, mixed: bool) {
    forall k :: 0 <= k < |cq| ==> TakenWell(cq[k], mixed)
  }

  /** A step that hands nothing out, and takes at most completions that hold nothing, is as tidy as before. */
  lemma StillTidy(st: State, next: State)
    requires Tidy(st) && next.given == st.given && next.batch == st.batch && (st.mixed ==> next.mixed)
    requires TakenAllWell(next.drain.cq, next.mixed)
    requires Draining(next.drain) ==> next.mixed || next.gro.state == On || NoneInReach(next.drain, next.net)
    ensures Tidy(next)
  {
  }

  lemma NoneMergedClear(d: Drain, net: Net)
    requires NoneMerged(net)
    ensures NoneInReach(d, net)
  {
  }

  lemma ClearQueue(env: Env, d: Drain, queue: seq<Group>, flights: seq<Flight>, now: nat, k: nat)
    requires QueueClear(d, queue, flights) && k < |flights| && FlightsSound(env, flights, now)
    ensures QueueClear(d, queue + [flights[k].group], flights[..k] + flights[k + 1..])
  {
    Without(env, flights, now, k, 0);
  }

  lemma ClearTake(d: Drain, queue: seq<Group>, flights: seq<Flight>, e: Drain)
    requires QueueClear(d, queue, flights) && queue != [] && e.classic == d.classic && e.free + 1 == d.free
    ensures Single(queue[0]) && QueueClear(e, queue[1..], flights)
  {
    assert forall k :: 0 <= k < |queue[1..]| ==> queue[1..][k] == queue[k + 1];
  }

  lemma ClearLess(d: Drain, queue: seq<Group>, flights: seq<Flight>, e: Drain)
    requires QueueClear(d, queue, flights) && e.classic == d.classic && e.free <= d.free
    ensures QueueClear(e, queue, flights)
  {
  }

  lemma TestClear(env: Env, st: State, s: Sock, g: Group)
    requires NoneInReach(st.drain, st.net) && !st.net.option && Enabled(env, st, Test(s, g))
    ensures NoneInReach(st.drain, Step(env, st, Test(s, g)).net)
  {
  }

  lemma EnqueueClear(env: Env, st: State, s: Sock, k: nat)
    requires NetInv(env, st.net) && NoneInReach(st.drain, st.net) && Enabled(env, st, Enqueue(s, k))
    ensures NoneInReach(st.drain, Step(env, st, Enqueue(s, k)).net)
  {
    ClearQueue(env, st.drain, st.net.queue.At(s), st.net.flights.At(s), st.net.now, k);
  }

  lemma TakeClear(env: Env, st: State, s: Sock, more: bool)
    requires NoneInReach(st.drain, st.net) && Enabled(env, st, KernelTake(s, more))
    ensures Single(st.net.queue.At(s)[0])
    ensures var next := KernelTook(st, s, more); NoneInReach(next.drain, next.net)
  {
    var e := KernelTook(st, s, more).drain;
    ClearTake(st.drain, st.net.queue.At(s), st.net.flights.At(s), e);
    ClearLess(st.drain, st.net.queue.At(Opposite(s)), st.net.flights.At(Opposite(s)), e);
  }

  /** While a drain that is not mixed runs and the option is off, nothing it may come to is merged. */
  lemma KernelClear(env: Env, st: State, e: Event)
    requires Steady(env) && Base(env, st) && NoneInReach(st.drain, st.net) && st.gro.state != On
    requires Enabled(env, st, e) && IsKernel(e)
    ensures var next := Step(env, st, e); NoneInReach(next.drain, next.net)
  {
    match e
    case Test(s, g) => TestClear(env, st, s, g);
    case Enqueue(s, k) => EnqueueClear(env, st, s, k);
    case Tick(_) =>
    case KernelTake(s, more) => TakeClear(env, st, s, more);
    case KernelEnd(_, _) =>
    case KernelNote =>
  }

  lemma KernelTidy(env: Env, st: State, e: Event)
    requires Steady(env) && Base(env, st) && GroInv(st) && Provided(st) && Tidy(st) && Enabled(env, st, e) && IsKernel(e)
    ensures Tidy(Step(env, st, e))
  {
    var next := Step(env, st, e);
    if !st.mixed && Draining(st.drain) && st.gro.state != On {
      KernelClear(env, st, e);
    }
    if e.KernelTake? {
      TakenWhole(env, st, e.sock, e.more);
    }
    KernelFrame(env, st, e);
    assert TakenAllWell(next.drain.cq, next.mixed);
    StillTidy(st, next);
  }

  lemma KernelFrame(env: Env, st: State, e: Event)
    requires Enabled(env, st, e) && IsKernel(e)
    ensures var next := Step(env, st, e);
            && next.given == st.given && next.batch == st.batch && next.mixed == st.mixed && next.gro == st.gro
            && (Draining(next.drain) ==> Draining(st.drain)) && st.drain.cq <= next.drain.cq
            && (e.KernelTake? || forall k :: |st.drain.cq| <= k < |next.drain.cq| ==> !next.drain.cq[k].Took?)
  {
  }

  lemma TakenWhole(env: Env, st: State, s: Sock, more: bool)
    requires Base(env, st) && GroInv(st) && Provided(st) && Tidy(st) && Enabled(env, st, KernelTake(s, more))
    ensures TakenAllWell(KernelTook(st, s, more).drain.cq, st.mixed)
  {
    var g := st.net.queue.At(s)[0];
    assert Sound(env, g);
    if !st.mixed && st.gro.state != On {
      TakeClear(env, st, s, more);
    }
    var next := KernelTook(st, s, more);
    assert TakenWell(next.drain.cq[|st.drain.cq|], st.mixed);
  }

  lemma {:induction false} DropEndsSuffix(d: Drain) returns (n: nat)
    ensures n <= |d.cq| && DropEnds(d).cq == d.cq[n..] && forall k :: 0 <= k < n ==> !d.cq[k].Took?
    decreases |d.cq|
  {
    n := 0;
    if d.cq != [] && d.scan != 0 && !d.cq[0].Took? {
      var rest := DropEndsSuffix(d.(cq := d.cq[1..], scan := d.scan - 1));
      assert d.cq[1..][rest..] == d.cq[rest + 1..];
      n := rest + 1;
    }
  }

  lemma LookSuffix(d: Drain) returns (n: nat)
    requires Booked(d)
    ensures n <= |d.cq| && Looked(d).cq == d.cq[n..] && forall k :: 0 <= k < n ==> !d.cq[k].Took?
  {
    ScannedBooks(d);
    n := DropEndsSuffix(Scanned(d));
  }

  lemma SuffixWell(cq: seq<Completion>, n: nat, mixed: bool)
    requires TakenAllWell(cq, mixed) && n <= |cq|
    ensures TakenAllWell(cq[n..], mixed)
  {
  }

  lemma LookTidy(st: State)
    requires Tidy(st) && Booked(st.drain)
    ensures Tidy(st.(drain := Looked(st.drain)))
  {
    LookedBooks(st.drain, Data);
    var n := LookSuffix(st.drain);
    SuffixWell(st.drain.cq, n, st.mixed);
    StillTidy(st, st.(drain := Looked(st.drain)));
  }

  lemma NotesWell(cq: seq<Completion>, more: seq<Completion>, mixed: bool)
    requires TakenAllWell(cq, mixed) && cq <= more && forall k :: |cq| <= k < |more| ==> more[k] == Other
    ensures TakenAllWell(more, mixed)
  {
    forall k | 0 <= k < |more|
      ensures TakenWell(more[k], mixed)
    {
      if k < |cq| {
        assert more[k] == cq[k];
      }
    }
  }

  lemma StartTidy(env: Env, st: State, enter: Enter)
    requires env.whole && Flow(st) && Tidy(st) && DrainAway(st) && st.gro.state != Deciding
    requires MayEnter(env, |StartSubs(st.drain.classic)|, enter) && GroInv(st)
    ensures Tidy(Started(st, enter))
  {
    StartFlow(env, st, enter);
    StartedKeeps(st.drain);
    var next := Started(st, enter);
    assert TakenAllWell(st.drain.cq, next.mixed);
    NotesWell(st.drain.cq, next.drain.cq, next.mixed);
    if !next.mixed && st.gro.state != On {
      if st.gro.state == Plain {
        NoneMergedClear(next.drain, st.net);
      }
      SameReach(Supplied(st.drain), next.drain, st.net);
    }
    StillTidy(st, next);
  }

  lemma SameReach(d: Drain, e: Drain, net: Net)
    requires e.classic == d.classic && e.free == d.free
    ensures NoneInReach(d, net) <==> NoneInReach(e, net)
  {
    assert forall k: nat :: InReach(d, k) == InReach(e, k);
  }

  lemma CancelTidy(env: Env, st: State, subs: seq<Sub>, enter: Enter)
    requires env.whole && Flow(st) && Tidy(st) && MayEnter(env, |subs|, enter)
    requires forall k :: 0 <= k < |subs| ==> subs[k].Cancel?
    ensures Tidy(Entered(st, subs, enter))
  {
    CancelFlow(env, st, subs, enter);
    var next := Entered(st, subs, enter);
    NotesWell(st.drain.cq, next.drain.cq, st.mixed);
    SameReach(st.drain, next.drain, st.net);
    StillTidy(st, next);
  }

  lemma DrainsTidy(env: Env, st: State, e: Event)
    requires Steady(env) && Base(env, st) && GroInv(st) && Flow(st) && Tidy(st) && Enabled(env, st, e) && IsDrains(e)
    ensures Tidy(Step(env, st, e))
  {
    match e
    case Look => LookTidy(st);
    case Stop => StopTidy(st);
    case CancelAll(enter) => CancelTidy(env, st, Cancels(st.drain.armed), enter);
    case EnterAgain(_, enter) => CancelTidy(env, st, [], enter);
    case Rebuild(_, _, _) => StillTidy(st, Step(env, st, e));
    case Start(_, enter) => StartTidy(env, st, enter);
    case Rearm(enter) => RearmTidy(env, st, enter);
  }

  lemma StopTidy(st: State)
    requires Tidy(st)
    ensures Tidy(st.(drain := st.drain.(running := false, rearm := {})))
  {
    var next := st.(drain := st.drain.(running := false, rearm := {}));
    SameReach(st.drain, next.drain, st.net);
    StillTidy(st, next);
  }

  lemma RearmTidy(env: Env, st: State, enter: Enter)
    requires env.whole && Flow(st) && Tidy(st) && Enabled(env, st, Rearm(enter))
    ensures Tidy(Rearmed(st, enter))
  {
    RearmFlow(env, st, enter);
    SameReach(st.drain, Rearmed(st, enter).drain, st.net);
    StillTidy(st, Rearmed(st, enter));
  }

  lemma GivesTidy(st: State, next: State, s: Sock, h: Hand)
    requires Tidy(st) && HandedWell(h, st.mixed) && next.mixed == st.mixed
    requires next.given == st.given.With(s, st.given.At(s) + [h]) && AllSingle(next.batch.held) && Unglued(next)
    ensures Tidy(next)
  {
    assert next.given.At(s) == st.given.At(s) + [h] && next.given.At(Opposite(s)) == st.given.At(Opposite(s));
  }

  /** Buffers given back widen no classic drain's reach. */
  lemma GivesBackClear(d: Drain, e: Drain, net: Net)
    requires NoneInReach(d, net) && e.classic == d.classic && (d.classic ==> e.free == d.free)
    ensures NoneInReach(e, net)
  {
    assert forall k: nat :: InReach(d, k) == InReach(e, k);
  }

  lemma StillUnglued(st: State, next: State)
    requires Unglued(st) && next.gro.state == st.gro.state && next.net == st.net && next.mixed == st.mixed
    requires next.drain.running == st.drain.running && next.drain.flying == st.drain.flying
    requires next.drain.classic == st.drain.classic && (st.drain.classic ==> next.drain.free == st.drain.free)
    requires TakenAllWell(next.drain.cq, st.mixed)
    ensures Unglued(next)
  {
    if NoneInReach(st.drain, st.net) {
      GivesBackClear(st.drain, next.drain, st.net);
    }
  }

  lemma TakeHeadTidy(st: State)
    requires Tidy(st) && st.drain.cq != [] && st.drain.scan > 0 && st.drain.pending > 0
    ensures Tidy(HeadTaken(st))
  {
    var c := st.drain.cq[0];
    assert TakenWell(c, st.mixed);
    SuffixWell(st.drain.cq, 1, st.mixed);
    StillUnglued(st, HeadTaken(st));
    if c.Took? && !Merged(c) {
      GivesTidy(st, HeadTaken(st), c.sock, Hand(c.group, c.cut));
    }
  }

  lemma HandTidy(env: Env, st: State, e: Event)
    requires Tidy(st) && Enabled(env, st, e) && IsHandOut(e)
    ensures Tidy(Step(env, st, e))
  {
    if e.TakeHead? {
      TakeHeadTidy(st);
    } else {
      StillUnglued(st, Step(env, st, e));
      match e
      case HandMerged => GivesTidy(st, Step(env, st, e), st.gro.from, Hand([st.gro.left[0]], false));
      case HandBatch => GivesTidy(st, Step(env, st, e), st.batch.from, Hand(st.batch.held[0], false));
      case HandSplit => GivesTidy(st, Step(env, st, e), st.drain.splitFrom, Hand([st.drain.split[0]], false));
    }
  }

  lemma ReadOnTidy(st: State, s: Sock)
    requires Tidy(st) && !Draining(st.drain) && HeadFull(st.net, s)
    ensures Tidy(ReadOn(st, s))
  {
    if st.net.queue.At(s) != [] {
      GivesTidy(st, ReadOn(st, s), s, Hand([st.net.queue.At(s)[0][0]], false));
    }
  }

  lemma ReadPlainTidy(st: State, s: Sock)
    requires Tidy(st) && !Draining(st.drain) && HeadFull(st.net, s) && AllSingle(st.net.queue.At(s))
    ensures Tidy(ReadPlain(st, s))
  {
    if st.net.queue.At(s) != [] {
      GivesTidy(st, ReadPlain(st, s), s, Hand(st.net.queue.At(s)[0], false));
    }
  }

  lemma ReadOneTidy(st: State, s: Sock)
    requires GroInv(st) && Tidy(st) && !Draining(st.drain) && HeadFull(st.net, s)
    ensures Tidy(ReadOne(st, s))
  {
    if st.gro.state == Plain {
      ReadPlainTidy(st, s);
    } else if st.gro.state == On {
      ReadOnTidy(st, s);
    } else {
      ReadOnTidy(TurnOn(st), s);
    }
  }

  lemma FillTidy(st: State, s: Sock, n: nat)
    requires Tidy(st) && !Draining(st.drain) && AllSingle(st.net.queue.At(s)) && 0 < n <= |st.net.queue.At(s)|
    ensures Tidy(Filled(st, s, n))
  {
    var q := st.net.queue.At(s);
    assert AllSingle(q[1..n]);
    GivesTidy(st, Filled(st, s, n), s, Hand(q[0], false));
  }

  /** Every step keeps hand-outs single, in a steady environment with a safe settle. */
  lemma TidyKeeps(env: Env, st: State, e: Event)
    requires Steady(env) && Base(env, st) && GroInv(st) && Flow(st) && Provided(st) && Tidy(st) && Enabled(env, st, e)
    ensures Tidy(Step(env, st, e))
  {
    if IsKernel(e) {
      KernelTidy(env, st, e);
    } else if IsHandOut(e) {
      HandTidy(env, st, e);
    } else if IsDrains(e) {
      DrainsTidy(env, st, e);
    } else {
      NotDraining(st);
      match e
      case Settle(_) => StillTidy(st, Step(env, st, e));
      case SeeEmpty => StillTidy(st, Step(env, st, e));
      case Commit => StillTidy(st, Step(env, st, e));
      case Abort => StillTidy(st, Step(env, st, e));
      case Read(s) => ReadOneTidy(st, s);
      case Fill(s, n) => FillTidy(st, s, n);
      case RingRead => ReadPlainTidy(st, Data);
    }
  }

  // ---- Runs

  /** Every step of the kernel or the HAL keeps every layer its environment admits. */
  lemma StepKeeps(env: Env, st: State, e: Event)
    requires Inv(env, st) && Enabled(env, st, e)
    ensures Inv(env, Step(env, st, e))
  {
    BaseKeeps(env, st, e);
    if SettleSafe(env) {
      SwitchKeeps(env, st, e);
    }
    if Steady(env) {
      FlowKeeps(env, st, e);
      ProvidedKeeps(env, st, e);
    }
    if Safe(env) {
      TidyKeeps(env, st, e);
    }
  }

  lemma {:induction false} RunKeeps(env: Env, st: State, log: seq<Event>)
    requires Inv(env, st)
    ensures Inv(env, RunFrom(env, st, log))
    decreases |log|
  {
    if log != [] {
      if Enabled(env, st, log[0]) {
        StepKeeps(env, st, log[0]);
      }
      RunKeeps(env, Advance(env, st, log[0]), log[1..]);
    }
  }

  lemma {:induction false} RunConcat(env: Env, st: State, log: seq<Event>, more: seq<Event>)
    ensures RunFrom(env, st, log + more) == RunFrom(env, RunFrom(env, st, log), more)
    decreases |log|
  {
    if log == [] {
      assert log + more == more;
    } else {
      assert (log + more)[1..] == log[1..] + more;
      RunConcat(env, Advance(env, st, log[0]), log[1..], more);
    }
  }
}
