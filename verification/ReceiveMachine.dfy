/**
 The Linux receive path as a machine of atomic steps: the kernel's (arrivals, its drain, the clock) and the HAL's (each
 read, each hand-out, each switch of UDP_GRO). Reads, batches, merged reads, the io_uring drain and the wait ring all
 take from the same two socket queues; a run is any interleaving of their steps.

 UDP_GRO is one flag here for both sockets. The HAL sets the two options one after the other; with the option on the
 kernel may merge but need not, so turning both on at the first call and off at the second allows every behaviour of
 the real pair.
 */
module ReceiveMachine {
  import opened Datagrams
  import opened Drains

  const SETTLE_NS: nat := 100_000
  const QUIET_READS: nat := 128
  const MAX_READ: nat := 65507
  const DRAIN_HEADER: nat := 56
  const DRAIN_ALIGN: nat := 64
  const REARM_SHARE: nat := 8
  /** A drain's buffer for the longest merged read. */
  const LONGEST: nat := 65600

  /** Deciding: between the two queue checks that end a settle. */
  datatype GroState = Plain | On | Settling | Deciding

  datatype Gro = Gro(allowed: bool, state: GroState, quiet: nat, settleAt: nat, left: seq<Datagram>, from: Sock)

  /** Datagrams of the last recvmmsg() beyond the one it returned. */
  datatype Batch = Batch(held: seq<Group>, from: Sock)

  /** Tested against UDP_GRO and not yet queued. */
  datatype Flight = Flight(group: Group, testedAt: nat)

  datatype Net = Net(
    now: nat,
    option: bool,
    flights: Per<seq<Flight>>,
    queue: Per<seq<Group>>,
    arrived: Per<seq<Datagram>>)

  /** A submission to the drain's ring: a multishot recvmsg, a cancellation of one, or the classic buffers' own. */
  datatype Sub = Recv(sock: Sock) | Cancel(sock: Sock) | Remove | Provide

  /** How an io_uring_enter() ends: in an error, or with the first n of what is queued taken. */
  datatype Enter = Refused | Accepted(n: nat)

  /**
   `sq`: what is in the drain's submission ring. `mixed`: some drain was started in a settle with something merged in its
   reach.
   */
  datatype State = State(
    gro: Gro,
    batch: Batch,
    drain: Drain,
    sq: seq<Sub>,
    net: Net,
    given: Per<seq<Hand>>,
    mixed: bool)

  /**
   A datagram is queued less than `lag` after it was tested; a wait may end up to `early` before its deadline.
   `empties`: datagrams of no bytes may arrive, as a doorbell's are. `offload`: receive offload is compiled in and the
   kernel took UDP_GRO at set-up. `whole`: every io_uring_enter() of the drain and the wait ring takes all it is given.
   `prompt`: what drain_stop() cancels ends before its deadline.
   */
  datatype Env = Env(lag: nat, early: nat, empties: bool, offload: bool, whole: bool, prompt: bool)

  /** The settle outlasts the kernel's window, and a queue that holds something has something to read. */
  predicate SettleSafe(env: Env) {
    env.offload ==> env.lag + env.early <= SETTLE_NS && !env.empties
  }

  /** No drain is ever refused, and no submission left over. */
  predicate Steady(env: Env) {
    env.whole && env.prompt
  }

  predicate Safe(env: Env) {
    Steady(env) && SettleSafe(env)
  }

  /** RingPasses: a recvmsg left over in the wait ring reads a datagram whose completion is passed over (WaitRing). */
  datatype Event =
      // the kernel
    | Test(sock: Sock, group: Group)
    | Enqueue(sock: Sock, k: nat)
    | Tick(d: nat)
    | KernelTake(sock: Sock, more: bool)
    | KernelEnd(sock: Sock, why: Why)
    | KernelNote
    | RingPasses
      // the HAL
    | HandMerged
    | HandBatch
    | HandSplit
    | TakeHead
    | Look
    | Stop
    | CancelAll(enter: Enter)
    | EnterAgain(to: nat, enter: Enter)
    | Refuse
    | Rebuild(datagramBytes: nat, count: nat, classic: bool)
    | Start(datagramBytes: nat, enter: Enter)
    | Rearm(enter: Enter)
    | Settle(delay: nat)
    | SeeEmpty
    | Commit
    | Abort
    | Read(sock: Sock)
    | Fill(sock: Sock, n: nat)
    | RingRead

  predicate IsKernel(e: Event) {
    e.Test? || e.Enqueue? || e.Tick? || e.KernelTake? || e.KernelEnd? || e.KernelNote? || e.RingPasses?
  }

  const NoDrain: Drain := Drain(false, {}, Per(0, 0), [], 0, 0, {}, 0, 0, 0, 0, [], WellKnown, false, 0)

  function Initial(env: Env): State {
    State(
      Gro(env.offload, Plain, 0, 0, [], WellKnown),
      Batch([], WellKnown),
      NoDrain,
      [],
      Net(0, false, Per([], []), Per([], []), Per([], [])),
      Per([], []),
      false)
  }

  // ---- Guards: what the code has established where it takes the step

  /** Nothing read from a socket waits to be handed out. */
  predicate NothingHeld(st: State) {
    st.gro.left == [] && st.batch.held == [] && st.drain.split == [] && st.drain.pending == 0
  }

  /** No drain runs and each of its recvmsgs was seen to end. */
  predicate DrainAway(st: State) {
    !st.drain.running && st.drain.armed == {}
  }

  predicate MayRead(st: State) {
    NothingHeld(st) && DrainAway(st) && st.gro.state != Deciding
  }

  /** The kernel queues no empty group. */
  predicate HeadFull(net: Net, s: Sock) {
    net.queue.At(s) != [] ==> net.queue.At(s)[0] != []
  }

  /** drain_size_for(). */
  function SizeFor(state: GroState, datagramBytes: nat): nat {
    var longest := if state != Plain && datagramBytes < MAX_READ then MAX_READ else datagramBytes;
    (longest + DRAIN_HEADER + DRAIN_ALIGN - 1) / DRAIN_ALIGN * DRAIN_ALIGN
  }

  predicate DeadlineReached(env: Env, st: State) {
    st.net.now + env.early >= st.gro.settleAt
  }

  /** gro_queue_empty(): FIONREAD answers the length of what is queued first, so 0 for a datagram of no bytes too. */
  predicate LooksEmpty(queue: seq<Group>) {
    queue == [] || Bytes(queue[0]) == 0
  }

  /** An io_uring_enter() given the last `added` of the queue takes at most that many from its front. */
  predicate MayEnter(env: Env, added: nat, enter: Enter) {
    (enter.Accepted? ==> enter.n <= added) && (env.whole ==> enter == Accepted(added))
  }

  predicate Enabled(env: Env, st: State, e: Event) {
    match e
    case Test(s, g) =>
      && g != [] && (|g| > 1 ==> st.net.option && Bytes(g) <= MAX_READ)
      && (Bytes(g) > 0 || (env.empties && |g| == 1))
      && env.lag > 0
    case Enqueue(s, k) => k < |st.net.flights.At(s)|
    case Tick(d) =>
      && (forall k :: 0 <= k < |st.net.flights.wellKnown| ==>
                        st.net.now + d < st.net.flights.wellKnown[k].testedAt + env.lag)
      && (forall k :: 0 <= k < |st.net.flights.data| ==> st.net.now + d < st.net.flights.data[k].testedAt + env.lag)
    case KernelTake(s, more) => Flies(st.drain, s) && st.net.queue.At(s) != [] && st.drain.free > 0
    case KernelEnd(s, why) => Flies(st.drain, s) && (why == NoBuffers ==> st.drain.free == 0)
    case KernelNote => true
    case RingPasses => !env.whole && st.gro.state == Plain && st.net.queue.data != []
    case HandMerged => st.gro.left != []
    case HandBatch => st.gro.left == [] && st.batch.held != []
    case HandSplit => st.gro.left == [] && st.batch.held == [] && st.drain.split != []
    case TakeHead => st.gro.left == [] && st.batch.held == [] && st.drain.split == [] && st.drain.pending > 0
                     && st.drain.cq != [] && st.drain.scan > 0
    case Look => true
    case Stop => st.drain.running
    case Rebuild(_, count, _) => DrainAway(st) && st.drain.pending == 0 && st.drain.split == [] && count > 0
    case CancelAll(enter) => !st.drain.running && MayEnter(env, |Cancels(st.drain.armed)|, enter)
    case EnterAgain(to, enter) => to <= |st.sq| && MayEnter(env, to, enter)
    case Refuse => !Steady(env) && !st.drain.running && st.drain.rearm == {}
    case Start(bytes, enter) =>
      && DrainAway(st) && st.gro.state != Deciding && SizeFor(st.gro.state, bytes) <= st.drain.size
      && (st.drain.classic ==> st.drain.pending == 0 && st.drain.split == [])
      && MayEnter(env, |StartSubs(st.drain.classic)|, enter)
    case Rearm(enter) =>
      && st.drain.running && st.drain.rearm != {} && MayEnter(env, |Recvs(st.drain.rearm)|, enter)
      && st.drain.returned >= (st.drain.count + REARM_SHARE - 1) / REARM_SHARE
    case Settle(_) => MayRead(st) && st.gro.state == On && st.gro.quiet >= QUIET_READS
    case SeeEmpty => DrainAway(st) && st.gro.state == Settling && DeadlineReached(env, st) && LooksEmpty(st.net.queue.wellKnown)
    case Commit => DrainAway(st) && st.gro.state == Deciding && LooksEmpty(st.net.queue.data)
    case Abort => DrainAway(st) && (st.gro.state == Settling || st.gro.state == Deciding)
    case Read(s) => MayRead(st) && HeadFull(st.net, s)
    case Fill(s, n) => MayRead(st) && st.gro.state == Plain && 0 < n <= |st.net.queue.At(s)|
    case RingRead => MayRead(st) && st.gro.state == Plain && st.net.queue.data != [] && HeadFull(st.net, Data)
  }

  // ---- Steps

  function Give(st: State, s: Sock, h: Hand): State {
    st.(given := st.given.With(s, st.given.At(s) + [h]))
  }

  /** gro_turn_on(), the kernel taking the option as it did at set-up. */
  function TurnOn(st: State): State {
    var quiet := if st.gro.state == Plain then 0 else QUIET_READS / 2;
    st.(gro := st.gro.(state := On, quiet := quiet), net := st.net.(option := true))
  }

  function Dequeue(net: Net, s: Sock, n: nat): Net
    requires n <= |net.queue.At(s)|
  {
    net.(queue := net.queue.With(s, net.queue.At(s)[n..]))
  }

  /** One recvmsg on s is over. */
  function Landed(d: Drain, s: Sock): Drain {
    d.(flying := Landing(d.flying, s))
  }

  function KernelTook(st: State, s: Sock, more: bool): State
    requires st.net.queue.At(s) != []
  {
    var g := st.net.queue.At(s)[0];
    var c := Took(s, g, st.net.option, Bytes(g) + DRAIN_HEADER > st.drain.size, more);
    var d := st.drain.(free := if st.drain.free == 0 then 0 else st.drain.free - 1);
    st.(drain := Post(if more then d else Landed(d, s), c), net := Dequeue(st.net, s, 1))
  }

  function HeadTaken(st: State): State
    requires st.drain.cq != [] && st.drain.pending > 0 && st.drain.scan > 0
  {
    var c := st.drain.cq[0];
    var next := st.(drain := Popped(st.drain));
    if c.Took? && !Merged(c) then Give(next, c.sock, Hand(c.group, c.cut)) else next
  }

  function SplitHanded(st: State): State
    requires st.drain.split != []
  {
    Give(st.(drain := SplitOne(st.drain)), st.drain.splitFrom, Hand([st.drain.split[0]], false))
  }

  /** drain_queue_recvmsg(). */
  function Recvs(socks: set<Sock>): seq<Sub> {
    (if WellKnown in socks then [Recv(WellKnown)] else []) + (if Data in socks then [Recv(Data)] else [])
  }

  function Cancels(socks: set<Sock>): seq<Sub> {
    (if WellKnown in socks then [Cancel(WellKnown)] else []) + (if Data in socks then [Cancel(Data)] else [])
  }

  /** The classic buffers are taken back and provided again. */
  function Provisions(classic: bool): seq<Sub> {
    if classic then [Remove, Provide] else []
  }

  /** What a start queues. */
  function StartSubs(classic: bool): seq<Sub> {
    Provisions(classic) + Recvs({WellKnown, Data})
  }

  /** The kernel takes a submission. When a cancelled recvmsg ends is the kernel's own step. */
  function Submitted(d: Drain, sub: Sub): Drain {
    match sub
    case Recv(s) => d.(flying := d.flying.With(s, d.flying.At(s) + 1))
    case Cancel(_) => Post(d, Other)
    case Remove => Post(d.(free := 0), Other)
    case Provide => Post(d.(free := d.count), Other)
  }

  function SubmitAll(d: Drain, subs: seq<Sub>): Drain
    decreases |subs|
  {
    if subs == [] then d else SubmitAll(Submitted(d, subs[0]), subs[1..])
  }

  /** `subs` go into the ring, and one io_uring_enter() follows: it takes from the front, whoever queued what is there. */
  function Entered(st: State, subs: seq<Sub>, enter: Enter): State
    requires enter.Accepted? ==> enter.n <= |st.sq + subs|
  {
    var sq := st.sq + subs;
    if enter.Refused? then st.(sq := sq)
    else st.(sq := sq[enter.n..], drain := SubmitAll(st.drain, sq[..enter.n]))
  }

  /** drain_release(): the ring goes with its requests; drain_setup(): buffers for datagrams of up to `bytes`. */
  function Rebuilt(d: Drain, state: GroState, bytes: nat, count: nat, classic: bool): Drain {
    d.(flying := Per(0, 0), cq := [], scan := 0, count := count, size := SizeFor(state, bytes), classic := classic,
       free := if classic then 0 else count)
  }

  /** drain_refused(): what the ring held is lost with it. */
  function Released(d: Drain): Drain {
    d.(running := false, armed := {}, flying := Per(0, 0), cq := [], scan := 0, pending := 0, count := 0, size := 0,
       free := 0)
  }

  /** The k-th group of a queue is one the drain may come to: with classic buffers it takes no more than it has. */
  predicate InReach(d: Drain, k: nat) {
    !d.classic || k < d.free
  }

  /** Nothing merged is queued where the drain may come to it, or about to be. */
  predicate QueueClear(d: Drain, queue: seq<Group>, flights: seq<Flight>) {
    && (forall k :: 0 <= k < |queue| && InReach(d, k) ==> Single(queue[k]))
    && (InReach(d, |queue|) ==> FlightsSingle(flights))
  }

  predicate NoneInReach(d: Drain, net: Net) {
    QueueClear(d, net.queue.wellKnown, net.flights.wellKnown) && QueueClear(d, net.queue.data, net.flights.data)
  }

  /** The drain as a start leaves it to the kernel. */
  function Supplied(d: Drain): Drain {
    if d.classic then d.(free := d.count) else d
  }

  predicate MergesUnderSettle(st: State) {
    st.gro.state == Settling && !NoneInReach(Supplied(st.drain), st.net)
  }

  /** drain_submit() counts any answer but an error as its submissions taken. */
  function Started(st: State, enter: Enter): State
    requires enter.Accepted? ==> enter.n <= |StartSubs(st.drain.classic)|
  {
    var next := Entered(st, StartSubs(st.drain.classic), enter);
    if enter.Refused? then next
    else next.(drain := next.drain.(running := true, armed := {WellKnown, Data}),
               mixed := st.mixed || MergesUnderSettle(st))
  }

  function Rearmed(st: State, enter: Enter): State
    requires enter.Accepted? ==> enter.n <= |Recvs(st.drain.rearm)|
  {
    var next := Entered(st, Recvs(st.drain.rearm), enter);
    var armed := if enter.Refused? then st.drain.armed else st.drain.armed + st.drain.rearm;
    next.(drain := next.drain.(armed := armed, rearm := {}))
  }

  /** gro_read(): the first datagram of what is queued first, the rest of a merged read kept. */
  function ReadOn(st: State, s: Sock): State
    requires HeadFull(st.net, s)
  {
    if st.net.queue.At(s) == [] then st else
    var g := st.net.queue.At(s)[0];
    var busy := |g| > 1 || g[0].large;
    var gro := st.gro.(left := g[1..], from := s, quiet := if busy then 0 else st.gro.quiet + 1);
    Give(st.(net := Dequeue(st.net, s, 1), gro := gro), s, Hand([g[0]], false))
  }

  /** A read that asks for no size: what is queued first, as one block. */
  function ReadPlain(st: State, s: Sock): State
    requires HeadFull(st.net, s)
  {
    if st.net.queue.At(s) == [] then st else
    var g := st.net.queue.At(s)[0];
    var given := Give(st.(net := Dequeue(st.net, s, 1)), s, Hand(g, false));
    if st.gro.allowed && g[0].large then TurnOn(given) else given
  }

  /** rx_read_one(). */
  function ReadOne(st: State, s: Sock): State
    requires HeadFull(st.net, s)
  {
    match st.gro.state
    case Plain => ReadPlain(st, s)
    case On => ReadOn(st, s)
    case _ => ReadOn(TurnOn(st), s)
  }

  /** rx_fill(): one recvmmsg() of n. */
  function Filled(st: State, s: Sock, n: nat): State
    requires 0 < n <= |st.net.queue.At(s)|
  {
    var q := st.net.queue.At(s);
    Give(st.(net := Dequeue(st.net, s, n), batch := Batch(q[1..n], s)), s, Hand(q[0], false))
  }

  function Step(env: Env, st: State, e: Event): State
    requires Enabled(env, st, e)
  {
    match e
    case Test(s, g) =>
      st.(net := st.net.(flights := st.net.flights.With(s, st.net.flights.At(s) + [Flight(g, st.net.now)])))
    case Enqueue(s, k) =>
      var fs := st.net.flights.At(s);
      st.(net := st.net.(flights := st.net.flights.With(s, fs[..k] + fs[k + 1..]),
                         queue := st.net.queue.With(s, st.net.queue.At(s) + [fs[k].group]),
                         arrived := st.net.arrived.With(s, st.net.arrived.At(s) + fs[k].group)))
    case Tick(d) => st.(net := st.net.(now := st.net.now + d))
    case KernelTake(s, more) => KernelTook(st, s, more)
    case KernelEnd(s, why) => st.(drain := Post(Landed(st.drain, s), Ended(s, why)))
    case KernelNote => st.(drain := Post(st.drain, Other))
    case RingPasses => st.(net := Dequeue(st.net, Data, 1))
    case HandMerged =>
      Give(st.(gro := st.gro.(left := st.gro.left[1..])), st.gro.from, Hand([st.gro.left[0]], false))
    case HandBatch =>
      Give(st.(batch := st.batch.(held := st.batch.held[1..])), st.batch.from, Hand(st.batch.held[0], false))
    case HandSplit => SplitHanded(st)
    case TakeHead => HeadTaken(st)
    case Look => st.(drain := Looked(st.drain))
    case Stop => st.(drain := st.drain.(running := false, rearm := {}))
    case CancelAll(enter) => Entered(st, Cancels(st.drain.armed), enter)
    case EnterAgain(_, enter) => Entered(st, [], enter)
    case Refuse => st.(drain := Released(st.drain), sq := [])
    case Rebuild(bytes, count, classic) => st.(drain := Rebuilt(st.drain, st.gro.state, bytes, count, classic), sq := [])
    case Start(_, enter) => Started(st, enter)
    case Rearm(enter) => Rearmed(st, enter)
    case Settle(delay) =>
      st.(gro := st.gro.(state := Settling, settleAt := st.net.now + delay + SETTLE_NS),
          net := st.net.(option := false))
    case SeeEmpty => st.(gro := st.gro.(state := Deciding))
    case Commit => st.(gro := st.gro.(state := Plain))
    case Abort => TurnOn(st)
    case Read(s) => ReadOne(st, s)
    case Fill(s, n) => Filled(st, s, n)
    case RingRead => ReadPlain(st, Data)
  }

  // ---- Runs

  /** A step that is not enabled is not taken. */
  function Advance(env: Env, st: State, e: Event): State {
    if Enabled(env, st, e) then Step(env, st, e) else st
  }

  function RunFrom(env: Env, st: State, log: seq<Event>): State
    decreases |log|
  {
    if log == [] then st else RunFrom(env, Advance(env, st, log[0]), log[1..])
  }

  /** The state after a run: any sequence of the kernel's and the HAL's steps. */
  function After(env: Env, log: seq<Event>): State {
    RunFrom(env, Initial(env), log)
  }

  // ---- Invariants

  predicate Single(g: Group) {
    |g| == 1
  }

  /** A group the kernel may queue: a datagram, or a merged run no longer than the receive buffer. */
  predicate Sound(env: Env, g: Group) {
    g != [] && (Single(g) || Bytes(g) <= MAX_READ) && (!env.empties ==> Bytes(g) > 0)
  }

  ghost predicate AllSound(env: Env, groups: seq<Group>) {
    forall k :: 0 <= k < |groups| ==> Sound(env, groups[k])
  }

  predicate AllSingle(groups: seq<Group>) {
    forall k :: 0 <= k < |groups| ==> Single(groups[k])
  }

  ghost predicate FlightsSound(env: Env, flights: seq<Flight>, now: nat) {
    forall k :: 0 <= k < |flights| ==>
                  Sound(env, flights[k].group) && flights[k].testedAt <= now < flights[k].testedAt + env.lag
  }

  predicate FlightsSingle(flights: seq<Flight>) {
    forall k :: 0 <= k < |flights| ==> Single(flights[k].group)
  }

  /** Nothing merged is queued or about to be. */
  predicate NoneMerged(net: Net) {
    && AllSingle(net.queue.wellKnown) && AllSingle(net.queue.data)
    && FlightsSingle(net.flights.wellKnown) && FlightsSingle(net.flights.data)
  }

  /** A merged flight was tested before the option went off, and is queued before `deadline`. */
  ghost predicate MergedBefore(flights: seq<Flight>, deadline: nat) {
    forall k :: 0 <= k < |flights| ==> Single(flights[k].group) || flights[k].testedAt + SETTLE_NS <= deadline
  }

  ghost predicate NetInv(env: Env, net: Net) {
    && AllSound(env, net.queue.wellKnown) && AllSound(env, net.queue.data)
    && FlightsSound(env, net.flights.wellKnown, net.now) && FlightsSound(env, net.flights.data, net.now)
  }

  /** What holds in every environment: what the kernel queues, the drain's books, and every truncation counted. */
  ghost predicate Base(env: Env, st: State) {
    && NetInv(env, st.net) && Booked(st.drain)
    && st.gro.allowed == env.offload && (st.gro.allowed || st.gro.state == Plain)
    && (st.net.option <==> st.gro.state == On)
    && Losses(st.given.wellKnown) + Losses(st.given.data) == st.drain.truncated
  }

  /** What each state of the switch says about what is queued and what is about to be. */
  ghost predicate GroInv(st: State) {
    var net := st.net;
    match st.gro.state
    case Plain => !net.option && NoneMerged(net)
    case On => net.option
    case Settling =>
      && !net.option && MergedBefore(net.flights.wellKnown, st.gro.settleAt)
      && MergedBefore(net.flights.data, st.gro.settleAt)
    case Deciding =>
      && !net.option && FlightsSingle(net.flights.wellKnown) && FlightsSingle(net.flights.data)
      && AllSingle(net.queue.wellKnown)
  }

  /** What is handed out before the drain's completions: a merged read's rest, a batch's, a split's. */
  function Ahead(st: State, s: Sock): seq<Datagram> {
    (if st.gro.from == s then st.gro.left else [])
    + (if st.batch.from == s then Flat(st.batch.held) else [])
    + (if st.drain.splitFrom == s then st.drain.split else [])
  }

  /** The datagrams taken off s's queue and not yet handed out, oldest first. */
  function Held(st: State, s: Sock): seq<Datagram> {
    Ahead(st, s) + FlatOf(st.drain.cq, s)
  }

  /** Every datagram that arrived at s: finished with, held, or still queued - in that order. */
  ghost predicate Conserved(st: State, s: Sock) {
    Handed(st.given.At(s)) + Held(st, s) + Flat(st.net.queue.At(s)) == st.net.arrived.At(s)
  }

  /** What holds in a steady environment: the HAL's view is the kernel's, and no datagram is out of line. */
  ghost predicate Flow(st: State) {
    DrainInv(st.drain) && st.sq == [] && Conserved(st, WellKnown) && Conserved(st, Data)
  }

  predicate Draining(d: Drain) {
    d.running || Flies(d, WellKnown) || Flies(d, Data)
  }

  predicate Big(d: Drain) {
    d.size >= LONGEST
  }

  /** Buffers are accounted for, and what is merged and sized was taken, or is being split, in one that holds any read. */
  ghost predicate Provided(st: State) {
    && Stocked(st.drain) && (st.drain.size > 0 ==> st.drain.count > 0)
    && (st.gro.state != Plain && Draining(st.drain) ==> Big(st.drain))
    && (forall k :: 0 <= k < |st.drain.cq| && st.drain.cq[k].Took? && st.drain.cq[k].sized ==> Big(st.drain))
    && (st.drain.split != [] ==> Big(st.drain))
  }

  /** What a drain may take unsized is one datagram, and so is what it took. */
  ghost predicate Unglued(st: State) {
    && (!st.mixed && Draining(st.drain) ==> st.gro.state == On || NoneInReach(st.drain, st.net))
    && (forall k :: 0 <= k < |st.drain.cq| ==> TakenWell(st.drain.cq[k], st.mixed))
  }

  predicate TakenWell(c: Completion, mixed: bool) {
    c.Took? ==> c.group != [] && (c.cut ==> Single(c.group)) && (mixed || Single(c.group) || c.sized)
  }

  predicate HandedWell(h: Hand, mixed: bool) {
    Single(h.group) || (mixed && !h.lost)
  }

  ghost predicate AllHandedWell(hands: seq<Hand>, mixed: bool) {
    forall k :: 0 <= k < |hands| ==> HandedWell(hands[k], mixed)
  }

  /** Each hand-out is one datagram; glued ones come only from a drain started in a settle over something merged. */
  ghost predicate Tidy(st: State) {
    Unglued(st) && AllHandedWell(st.given.wellKnown, st.mixed) && AllHandedWell(st.given.data, st.mixed)
    && AllSingle(st.batch.held)
  }

  ghost predicate Inv(env: Env, st: State) {
    && Base(env, st) && (SettleSafe(env) ==> GroInv(st)) && (Steady(env) ==> Flow(st) && Provided(st))
    && (Safe(env) ==> Tidy(st))
  }
}
