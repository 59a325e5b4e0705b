/**
 The wait ring: a recvmsg is submitted together with the owner's wait and may outlive it, so its completion is told
 from older ones by a 24-bit generation. The machine below makes every step of a wait atomic - arming, the kernel taking
 a submission, the kernel reading the socket for it there and then or later, one completion harvested - and lets waits
 follow each other with any buffers, any failed or short io_uring_enter().
 */
module WaitRing {
  import opened Sequences
  import opened Rings

  const ENTRIES: nat := 16
  const GENS: nat := 0xFF_FFFF
  /** What wr_arm() queues beside the recvmsg and its cancellation: six polls and the removal of a retired bell's. */
  const POLLS: nat := 7

  /** A tt_receive()'s buffer and its length. */
  datatype Aim = Aim(buf: nat, len: nat)

  /** A recvmsg, by how many were issued up to it. */
  datatype Request = Request(serial: nat, aim: Aim)

  /** wr_gen of the n-th recvmsg: 1 to 2^24 - 1, round and round; 0 before the first. */
  function GenOf(serial: nat): (gen: nat)
    ensures gen <= GENS && (gen == 0 <==> serial == 0)
  {
    if serial == 0 then 0 else (serial - 1) % GENS + 1
  }

  /** A submission: a recvmsg, the cancellation of one (by its user_data), or a member's poll or its removal. */
  datatype Sqe = Recv(req: Request) | Cancel(gen: nat) | Poll

  /**
   A completion: of a recvmsg (res < 0: an error or -ECANCELED), or of anything else. `into`: the buffer in the one
   header all recvmsgs share (wr_msg, wr_iov), which the kernel reads when it takes the submission.
   */
  datatype Cqe = Came(req: Request, res: int, into: Aim) | Other

  /** RX_READY_TAKEN was reported to a call with buffer `call`, for a recvmsg that read into `read`. */
  datatype Report = Report(read: Aim, call: Aim, fitted: bool)

  /**
   `aim`: this call's buffer; `fitted`: its wr_arm() had room for the cancellation it needed, if any; `recvAim`: the header's, set for
   the recvmsg issued last; `passed`: where datagrams went whose completion was then passed over.
   */
  datatype Ring = Ring(
    gen: nat,
    recv: nat,
    recvAim: Aim,
    aim: Aim,
    fitted: bool,
    issued: nat,
    sq: seq<Sqe>,
    flight: seq<Request>,
    cq: seq<Cqe>,
    reports: seq<Report>,
    passed: seq<Aim>)

  datatype Event =
    | Arm(aim: Aim, polls: nat)
    | Submit
    | ReadNow(res: int)
    | Deliver(res: int)
    | Note
    | Harvest

  const Initial: Ring := Ring(0, 0, Aim(0, 0), Aim(0, 0), true, 0, [], [], [], [], [])

  /** Room for one more submission (wr_sqe()). */
  predicate Room(r: Ring) {
    |r.sq| < ENTRIES
  }

  /** The members' polls not armed yet, as far as they fit. */
  function Polled(r: Ring, polls: nat): Ring
    decreases polls
  {
    if polls == 0 || !Room(r) then r else Polled(r.(sq := r.sq + [Poll]), polls - 1)
  }

  /** A new recvmsg into this call's buffer, unless the ring is full. */
  function Issued(r: Ring): Ring {
    if !Room(r) then r else
    var gen := if r.gen + 1 > GENS then 1 else r.gen + 1;
    r.(sq := r.sq + [Recv(Request(r.issued + 1, r.aim))], gen := gen, recv := gen, recvAim := r.aim,
       issued := r.issued + 1)
  }

  /** No cancellation is needed - no recvmsg in flight, or one into this very buffer - or there is room for it. */
  predicate Fits(r: Ring, aim: Aim, polls: nat) {
    r.recv == 0 || r.recvAim == aim || |r.sq| + polls < ENTRIES
  }

  /** wr_arm(): the recvmsg in flight kept if it reads into this very buffer, else cancelled ahead of a new one. */
  function Armed(r: Ring, aim: Aim, polls: nat): Ring {
    var p := Polled(r.(aim := aim, fitted := Fits(r, aim, polls)), polls);
    if p.recv != 0 && p.recvAim == aim then p
    else if p.recv != 0 && !Room(p) then p
    else if p.recv != 0 then Issued(p.(sq := p.sq + [Cancel(p.recv)], recv := 0))
    else Issued(p)
  }

  /** The kernel takes the oldest submission; a cancelled recvmsg completes at once, without reading. */
  function Submitted(r: Ring): Ring
    requires r.sq != []
  {
    var rest := r.(sq := r.sq[1..]);
    match r.sq[0]
    case Recv(req) => rest.(flight := r.flight + [req])
    case Cancel(gen) =>
      if r.flight != [] && GenOf(r.flight[0].serial) == gen
      then rest.(flight := r.flight[1..], cq := r.cq + [Came(r.flight[0], -1, r.recvAim)])
      else rest.(cq := r.cq + [Other])
    case Poll => rest
  }

  /** The kernel takes a recvmsg with a datagram waiting: it reads at once, into the buffer the header names now. */
  function ReadInline(r: Ring, res: int): Ring
    requires r.sq != [] && r.sq[0].Recv?
  {
    r.(sq := r.sq[1..], cq := r.cq + [Came(r.sq[0].req, res, r.recvAim)])
  }

  /** wr_completion() on the oldest completion. */
  function Harvested(r: Ring): Ring
    requires r.cq != []
  {
    var rest := r.(cq := r.cq[1..]);
    match r.cq[0]
    case Other => rest
    case Came(req, res, into) =>
      if GenOf(req.serial) != r.recv then rest.(passed := if res >= 0 then r.passed + [into] else r.passed)
      else if res < 0 then rest.(recv := 0)
      else rest.(recv := 0, reports := r.reports + [Report(into, r.aim, r.fitted)])
  }

  /**
   Queued work runs only once every submission was taken, inside the owner's own io_uring_enter(). `whole`: each such
   call takes all it is given, so nothing is left when the next wait arms.
   */
  predicate Enabled(whole: bool, r: Ring, e: Event) {
    match e
    case Arm(_, polls) => r.cq == [] && polls <= POLLS && (whole ==> r.sq == [])
    case Submit => r.sq != []
    case ReadNow(_) => r.sq != [] && r.sq[0].Recv?
    case Deliver(_) => r.sq == [] && r.flight != []
    case Note => true
    case Harvest => r.cq != []
  }

  function Step(r: Ring, e: Event): Ring
    requires Enabled(false, r, e)
  {
    match e
    case Arm(aim, polls) => Armed(r, aim, polls)
    case Submit => Submitted(r)
    case ReadNow(res) => ReadInline(r, res)
    case Deliver(res) => r.(flight := r.flight[1..], cq := r.cq + [Came(r.flight[0], res, r.recvAim)])
    case Note => r.(cq := r.cq + [Other])
    case Harvest => Harvested(r)
  }

  /** A step that is not enabled is not taken. */
  function Advance(whole: bool, r: Ring, e: Event): Ring {
    if Enabled(whole, r, e) then Step(r, e) else r
  }

  function RunFrom(whole: bool, r: Ring, log: seq<Event>): Ring
    decreases |log|
  {
    if log == [] then r else RunFrom(whole, Advance(whole, r, log[0]), log[1..])
  }

  function After(whole: bool, log: seq<Event>): Ring {
    RunFrom(whole, Initial, log)
  }

  // ---- What is outstanding

  function Queued(sq: seq<Sqe>): seq<Request> {
    if sq == [] then [] else (if sq[0].Recv? then [sq[0].req] else []) + Queued(sq[1..])
  }

  function Done(cq: seq<Cqe>): seq<Request> {
    if cq == [] then [] else (if cq[0].Came? then [cq[0].req] else []) + Done(cq[1..])
  }

  /** Every recvmsg issued and not harvested, oldest first: completed, in flight, not taken by the kernel yet. */
  function Outstanding(r: Ring): seq<Request> {
    Done(r.cq) + r.flight + Queued(r.sq)
  }

  /** They are the last ones issued, with none missing. */
  ghost predicate Tail(reqs: seq<Request>, issued: nat) {
    |reqs| <= issued && forall k :: 0 <= k < |reqs| ==> reqs[k].serial == issued - |reqs| + 1 + k
  }

  /** Each queued recvmsg comes after the cancellation of the one before it; at most one is ever in flight. */
  predicate Clean(flight: seq<Request>, sq: seq<Sqe>)
    decreases |sq|
  {
    if sq == [] then |flight| <= 1
    else match sq[0]
      case Recv(req) => flight == [] && Clean([req], sq[1..])
      case Cancel(gen) => (flight == [] || (|flight| == 1 && GenOf(flight[0].serial) == gen)) && Clean([], sq[1..])
      case Poll => Clean(flight, sq[1..])
  }

  /** The recvmsg in flight once the kernel has taken everything queued, if none reads at once. */
  function Final(flight: seq<Request>, sq: seq<Sqe>): seq<Request>
    decreases |sq|
  {
    if sq == [] then flight
    else match sq[0]
      case Recv(req) => Final([req], sq[1..])
      case Cancel(_) => Final([], sq[1..])
      case Poll => Final(flight, sq[1..])
  }

  lemma {:induction false} CleanAppend(flight: seq<Request>, sq: seq<Sqe>, e: Sqe)
    requires Clean(flight, sq)
    requires e.Recv? ==> Final(flight, sq) == []
    requires e.Cancel? ==> |Final(flight, sq)| == 1 && GenOf(Final(flight, sq)[0].serial) == e.gen
    ensures Clean(flight, sq + [e])
    ensures Final(flight, sq + [e]) == match e case Recv(req) => [req] case Cancel(_) => [] case Poll => Final(flight, sq)
    ensures Queued(sq + [e]) == Queued(sq) + if e.Recv? then [e.req] else []
    decreases |sq|
  {
    if sq == [] {
      assert sq + [e] == [e];
    } else {
      Appended(sq, e);
      var next := match sq[0] case Recv(req) => [req] case Cancel(_) => [] case Poll => flight;
      CleanAppend(next, sq[1..], e);
    }
  }

  lemma {:induction false} CleanFinal(flight: seq<Request>, sq: seq<Sqe>)
    requires Clean(flight, sq)
    ensures |Final(flight, sq)| <= 1
    ensures var last := flight + Queued(sq);
            Final(flight, sq) != [] ==> last != [] && Final(flight, sq)[0] == last[|last| - 1]
    decreases |sq|
  {
    if sq != [] {
      var next := match sq[0] case Recv(req) => [req] case Cancel(_) => [] case Poll => flight;
      CleanFinal(next, sq[1..]);
    }
  }

  /** A recvmsg that read at once leaves what is queued behind it as it was. */
  lemma {:induction false} CleanLands(req: Request, sq: seq<Sqe>)
    requires Clean([req], sq)
    ensures Clean([], sq) && Final([], sq) == if Queued(sq) == [] then [] else Final([req], sq)
    decreases |sq|
  {
    if sq != [] && sq[0].Poll? {
      CleanLands(req, sq[1..]);
    } else if sq != [] && Queued(sq) == [] {
      NothingQueued([], sq[1..]);
    }
  }

  lemma {:induction false} NothingQueued(flight: seq<Request>, sq: seq<Sqe>)
    requires Clean(flight, sq) && Queued(sq) == [] && flight == []
    ensures Final(flight, sq) == []
    decreases |sq|
  {
    if sq != [] {
      NothingQueued([], sq[1..]);
    }
  }

  // ---- Generations

  /** Two recvmsgs share a generation exactly when a multiple of 2^24 - 1 were issued between them. */
  lemma GenApart(a: nat, b: nat)
    requires 0 < a <= b < a + GENS
    ensures GenOf(a) == GenOf(b) <==> a == b
  {
    SamePlace(a - 1, b - 1, GENS);
  }

  lemma GenNext(n: nat)
    ensures GenOf(n + 1) == if GenOf(n) + 1 > GENS then 1 else GenOf(n) + 1
  {
  }

  // ---- The invariant

  ghost predicate Current(r: Ring) {
    if r.recv == 0 then Final(r.flight, r.sq) == []
    else
      var out := Outstanding(r);
      && r.recv == GenOf(r.issued) && out != [] && out[|out| - 1] == Request(r.issued, r.recvAim)
      && (r.flight + Queued(r.sq) != [] ==> Final(r.flight, r.sq) == [Request(r.issued, r.recvAim)])
  }

  ghost predicate Reported(r: Ring) {
    && (r.recv != 0 ==> (r.recvAim == r.aim <==> r.fitted))
    && (forall k :: 0 <= k < |r.cq| && r.cq[k].Came? ==> r.cq[k].into == r.recvAim)
    && (forall k :: 0 <= k < |r.reports| ==> (r.reports[k].read == r.reports[k].call <==> r.reports[k].fitted))
  }

  ghost predicate Inv(r: Ring) {
    && r.gen == GenOf(r.issued) && |r.sq| <= ENTRIES && Clean(r.flight, r.sq)
    && Tail(Outstanding(r), r.issued) && |Outstanding(r)| <= ENTRIES + 1
    && Current(r) && Reported(r)
  }

  /** With nothing left over, whatever is queued or was read is what wr_recv stands for, and nothing was passed over. */
  ghost predicate NoneStale(r: Ring) {
    && (forall k :: 0 <= k < |r.sq| && r.sq[k].Recv? ==> r.recv != 0 && r.sq[k].req.serial == r.issued)
    && (forall k :: 0 <= k < |r.cq| && r.cq[k].Came? && r.cq[k].res >= 0 ==> r.recv != 0 && r.cq[k].req.serial == r.issued)
    && r.passed == []
  }

  lemma {:induction false} DoneAppend(cq: seq<Cqe>, c: Cqe)
    ensures Done(cq + [c]) == Done(cq) + if c.Came? then [c.req] else []
  {
    if cq == [] {
      assert cq + [c] == [c];
    } else {
      Appended(cq, c);
      DoneAppend(cq[1..], c);
      Assoc(if cq[0].Came? then [cq[0].req] else [], Done(cq[1..]), if c.Came? then [c.req] else []);
    }
  }

  lemma {:induction false} QueuedFits(sq: seq<Sqe>)
    ensures |Queued(sq)| <= |sq|
  {
    if sq != [] {
      QueuedFits(sq[1..]);
    }
  }

  lemma {:induction false} CleanFlight(flight: seq<Request>, sq: seq<Sqe>)
    requires Clean(flight, sq)
    ensures |flight| <= 1
    decreases |sq|
  {
    if sq != [] && sq[0].Poll? {
      CleanFlight(flight, sq[1..]);
    }
  }

  // ---- Arming

  lemma SameCurrent(r: Ring, sq: seq<Sqe>)
    requires Current(r) && Queued(sq) == Queued(r.sq) && Final(r.flight, sq) == Final(r.flight, r.sq)
    ensures Current(r.(sq := sq)) && Outstanding(r.(sq := sq)) == Outstanding(r)
  {
    assert Outstanding(r.(sq := sq)) == Outstanding(r);
  }

  /** Another submission ring with the same recvmsgs in it. */
  lemma SameRequests(r: Ring, sq: seq<Sqe>)
    requires Inv(r) && |sq| <= ENTRIES && Clean(r.flight, sq)
    requires Current(r.(sq := sq)) && Outstanding(r.(sq := sq)) == Outstanding(r)
    ensures Inv(r.(sq := sq))
  {
  }

  lemma PollKeeps(r: Ring)
    requires Inv(r) && r.cq == [] && Room(r)
    ensures Inv(r.(sq := r.sq + [Poll]))
  {
    CleanAppend(r.flight, r.sq, Poll);
    SameCurrent(r, r.sq + [Poll]);
    SameRequests(r, r.sq + [Poll]);
  }

  lemma {:induction false} PolledKeeps(r: Ring, polls: nat)
    requires Inv(r) && r.cq == []
    ensures Inv(Polled(r, polls)) && Polled(r, polls) == r.(sq := Polled(r, polls).sq)
    decreases polls
  {
    if polls > 0 && Room(r) {
      PollKeeps(r);
      PolledKeeps(r.(sq := r.sq + [Poll]), polls - 1);
    }
  }

  /** Queueing the cancellation of the current recvmsg. */
  lemma CancelKeeps(r: Ring)
    requires Inv(r) && r.cq == [] && r.recv != 0 && Room(r)
    ensures Inv(r.(sq := r.sq + [Cancel(r.recv)], recv := 0))
  {
    CleanAppend(r.flight, r.sq, Cancel(r.recv));
    assert Outstanding(r.(sq := r.sq + [Cancel(r.recv)], recv := 0)) == Outstanding(r);
  }

  lemma IssueKeeps(r: Ring)
    requires Inv(r) && r.cq == [] && r.recv == 0 && r.fitted
    ensures Inv(Issued(r)) && (Room(r) ==> Issued(r).recv != 0)
  {
    if Room(r) {
      var req := Request(r.issued + 1, r.aim);
      CleanAppend(r.flight, r.sq, Recv(req));
      GenNext(r.issued);
      var next := Issued(r);
      QueuedFits(next.sq);
      CleanFlight(next.flight, next.sq);
      assert Outstanding(next) == Outstanding(r) + [req];
    }
  }

  /** Everything of the invariant but that the current recvmsg is this call's. */
  lemma NewCall(r: Ring, aim: Aim, fitted: bool)
    requires Inv(r) && r.cq == []
    ensures Inv(r.(aim := aim, fitted := r.recvAim == aim)) && (r.recv == 0 ==> Inv(r.(aim := aim, fitted := fitted)))
  {
    var kept := r.(aim := aim, fitted := r.recvAim == aim);
    assert Outstanding(r.(aim := aim, fitted := fitted)) == Outstanding(r) == Outstanding(kept);
  }

  lemma ArmKeeps(r: Ring, aim: Aim, polls: nat)
    requires Inv(r) && Enabled(false, r, Arm(aim, polls))
    ensures Inv(Armed(r, aim, polls))
    ensures |r.sq| + polls + 2 <= ENTRIES ==> Armed(r, aim, polls).recv != 0
  {
    var fitted, same := Fits(r, aim, polls), r.recvAim == aim;
    NewCall(r, aim, fitted);
    PolledKeeps(r.(aim := aim, fitted := same), polls);
    var blank := Polled(r.(aim := aim, fitted := same), polls);
    PolledSame(r.(aim := aim, fitted := fitted), polls, same);
    PolledLength(r.(aim := aim, fitted := fitted), polls);
    var p := Polled(r.(aim := aim, fitted := fitted), polls);
    if p.recv == 0 {
      NewCall(blank, aim, fitted);
      IssueKeeps(p);
    } else if !same && Room(p) {
      CancelKeeps(blank);
      NewCall(blank.(sq := blank.sq + [Cancel(blank.recv)], recv := 0), aim, fitted);
      IssueKeeps(p.(sq := p.sq + [Cancel(p.recv)], recv := 0));
    }
  }

  lemma {:induction false} PolledSame(r: Ring, polls: nat, fitted: bool)
    ensures Polled(r.(fitted := fitted), polls) == Polled(r, polls).(fitted := fitted)
    ensures |Polled(r, polls).sq| <= |r.sq| + polls
    decreases polls
  {
    if polls > 0 && Room(r) {
      PolledSame(r.(sq := r.sq + [Poll]), polls - 1, fitted);
    }
  }

  // ---- The kernel's steps, and the harvest

  lemma RecvTaken(r: Ring)
    requires Inv(r) && r.sq != [] && r.sq[0].Recv?
    ensures Inv(Submitted(r))
  {
    var next := Submitted(r);
    assert next.flight == [r.sq[0].req] && next.flight + Queued(next.sq) == r.flight + Queued(r.sq);
    assert Outstanding(next) == Outstanding(r);
  }

  lemma CancelTaken(r: Ring)
    requires Inv(r) && r.sq != [] && r.sq[0].Cancel?
    ensures Inv(Submitted(r))
  {
    var next := Submitted(r);
    if r.flight == [] {
      DoneAppend(r.cq, Other);
    } else {
      DoneAppend(r.cq, Came(r.flight[0], -1, r.recvAim));
      assert r.flight == [r.flight[0]];
    }
    assert Outstanding(next) == Outstanding(r);
  }

  lemma ReadNowKeeps(r: Ring, res: int)
    requires Inv(r) && r.sq != [] && r.sq[0].Recv?
    ensures Inv(ReadInline(r, res))
  {
    var req := r.sq[0].req;
    var next := ReadInline(r, res);
    CleanLands(req, next.sq);
    DoneAppend(r.cq, Came(req, res, r.recvAim));
    assert r.flight == [] && Queued(r.sq) == [req] + Queued(next.sq);
    assert Outstanding(next) == Outstanding(r);
  }

  lemma SubmitKeeps(r: Ring)
    requires Inv(r) && r.sq != []
    ensures Inv(Submitted(r))
  {
    match r.sq[0]
    case Recv(_) => RecvTaken(r);
    case Cancel(_) => CancelTaken(r);
    case Poll => assert Outstanding(Submitted(r)) == Outstanding(r);
  }

  lemma DeliverKeeps(r: Ring, res: int)
    requires Inv(r) && r.sq == [] && r.flight != []
    ensures Inv(Step(r, Deliver(res)))
  {
    var next := Step(r, Deliver(res));
    assert r.flight == [r.flight[0]];
    DoneAppend(r.cq, Came(r.flight[0], res, r.recvAim));
    assert Outstanding(next) == Outstanding(r);
    assert Outstanding(r)[|Outstanding(r)| - 1] == r.flight[0];
  }

  lemma NoteKeeps(r: Ring)
    requires Inv(r)
    ensures Inv(Step(r, Note))
  {
    DoneAppend(r.cq, Other);
    assert Outstanding(Step(r, Note)) == Outstanding(r);
  }

  /** A completion carries the current generation exactly when it is the current recvmsg's. */
  lemma MatchIsCurrent(r: Ring, req: Request, res: int)
    requires Inv(r) && r.cq != [] && r.cq[0] == Came(req, res, r.recvAim)
    ensures GenOf(req.serial) == r.recv <==> r.recv != 0 && req == Request(r.issued, r.recvAim)
    ensures req.serial == r.issued ==> Outstanding(r) == [req]
    ensures Outstanding(r) == [req] + Outstanding(Harvested(r))
  {
    var out := Outstanding(r);
    assert out[0] == req && out[0].serial == r.issued - |out| + 1;
    Assoc([req], Done(r.cq[1..]), r.flight);
    Assoc([req], Done(r.cq[1..]) + r.flight, Queued(r.sq));
    GenApart(req.serial, r.issued);
  }

  lemma {:induction false} DoneHas(cq: seq<Cqe>, k: nat)
    requires k < |cq| && cq[k].Came?
    ensures Done(cq) != []
  {
    if !cq[0].Came? {
      DoneHas(cq[1..], k - 1);
    }
  }

  lemma HarvestKeeps(r: Ring)
    requires Inv(r) && r.cq != []
    ensures Inv(Harvested(r))
  {
    var next := Harvested(r);
    match r.cq[0]
    case Other =>
      assert Outstanding(next) == Outstanding(r);
      OtherLeaves(r);
    case Came(req, res, _) =>
      MatchIsCurrent(r, req, res);
      if GenOf(req.serial) == r.recv {
        CurrentLeaves(r, req, res);
      } else {
        StaleLeaves(r, req, res);
      }
  }

  lemma OtherLeaves(r: Ring)
    requires Inv(r) && r.cq != [] && r.cq[0] == Other && Outstanding(Harvested(r)) == Outstanding(r)
    ensures Inv(Harvested(r))
  {
    var next := Harvested(r);
    assert forall k :: 0 <= k < |next.cq| ==> next.cq[k] == r.cq[k + 1];
  }

  lemma StaleLeaves(r: Ring, req: Request, res: int)
    requires Inv(r) && r.cq != [] && r.cq[0] == Came(req, res, r.recvAim) && GenOf(req.serial) != r.recv
    requires Outstanding(r) == [req] + Outstanding(Harvested(r))
    requires r.recv != 0 ==> req != Request(r.issued, r.recvAim)
    ensures Inv(Harvested(r))
  {
    var next := Harvested(r);
    assert forall k :: 0 <= k < |Outstanding(next)| ==> Outstanding(next)[k] == Outstanding(r)[k + 1];
    assert forall k :: 0 <= k < |next.cq| ==> next.cq[k] == r.cq[k + 1];
  }

  lemma CurrentLeaves(r: Ring, req: Request, res: int)
    requires Inv(r) && r.cq != [] && r.cq[0] == Came(req, res, r.recvAim) && r.recv != 0 && req == Request(r.issued, r.recvAim)
    requires Outstanding(r) == [req] && Outstanding(r) == [req] + Outstanding(Harvested(r)) && GenOf(req.serial) == r.recv
    ensures Inv(Harvested(r))
  {
    var next := Harvested(r);
    assert Outstanding(next) == [] && next.flight == [] && Done(next.cq) == [];
    CleanFinal(next.flight, next.sq);
    forall k | 0 <= k < |next.cq| && next.cq[k].Came?
      ensures false
    {
      DoneHas(next.cq, k);
    }
  }

  lemma StepKeeps(r: Ring, e: Event)
    requires Inv(r) && Enabled(false, r, e)
    ensures Inv(Step(r, e))
  {
    match e
    case Arm(aim, polls) => ArmKeeps(r, aim, polls);
    case Submit => SubmitKeeps(r);
    case ReadNow(res) => ReadNowKeeps(r, res);
    case Deliver(res) => DeliverKeeps(r, res);
    case Note => NoteKeeps(r);
    case Harvest => HarvestKeeps(r);
  }

  lemma {:induction false} RunKeeps(whole: bool, r: Ring, log: seq<Event>)
    requires Inv(r)
    ensures Inv(RunFrom(whole, r, log))
    decreases |log|
  {
    if log != [] {
      if Enabled(whole, r, log[0]) {
        StepKeeps(r, log[0]);
      }
      RunKeeps(whole, Advance(whole, r, log[0]), log[1..]);
    }
  }

  // ---- Nothing left over

  lemma {:induction false} PolledPolls(r: Ring, polls: nat)
    requires forall k :: 0 <= k < |r.sq| ==> r.sq[k] == Poll
    ensures var p := Polled(r, polls); p == r.(sq := p.sq) && forall k :: 0 <= k < |p.sq| ==> p.sq[k] == Poll
    decreases polls
  {
    if polls > 0 && Room(r) {
      PolledPolls(r.(sq := r.sq + [Poll]), polls - 1);
    }
  }

  lemma ArmFresh(r: Ring, aim: Aim, polls: nat)
    requires NoneStale(r) && r.sq == [] && r.cq == []
    ensures NoneStale(Armed(r, aim, polls))
  {
    PolledPolls(r.(aim := aim, fitted := Fits(r, aim, polls)), polls);
  }

  lemma HarvestFresh(r: Ring)
    requires Inv(r) && NoneStale(r) && r.cq != []
    ensures NoneStale(Harvested(r))
  {
    var next := Harvested(r);
    assert forall k :: 0 <= k < |next.cq| ==> next.cq[k] == r.cq[k + 1];
    if r.cq[0].Came? {
      var req := r.cq[0].req;
      MatchIsCurrent(r, req, r.cq[0].res);
      if GenOf(req.serial) == r.recv {
        assert Done(next.cq) + next.flight + Queued(next.sq) == [];
        NoneQueued(next.sq);
        forall k | 0 <= k < |next.cq|
          ensures !next.cq[k].Came?
        {
          if next.cq[k].Came? {
            DoneHas(next.cq, k);
          }
        }
      } else {
        GenSame(r, req);
      }
    }
  }

  lemma GenSame(r: Ring, req: Request)
    requires Inv(r) && GenOf(req.serial) != r.recv
    ensures r.recv != 0 ==> req.serial != r.issued
  {
  }

  lemma {:induction false} NoneQueued(sq: seq<Sqe>)
    requires Queued(sq) == []
    ensures forall k :: 0 <= k < |sq| ==> !sq[k].Recv?
  {
    if sq != [] {
      NoneQueued(sq[1..]);
      assert forall k :: 1 <= k < |sq| ==> sq[k] == sq[1..][k - 1];
    }
  }

  lemma StepFresh(r: Ring, e: Event)
    requires Inv(r) && NoneStale(r) && Enabled(true, r, e)
    ensures NoneStale(Step(r, e))
  {
    match e
    case Arm(aim, polls) => ArmFresh(r, aim, polls);
    case Submit =>
    case ReadNow(_) =>
    case Deliver(_) =>
      CleanFlight(r.flight, r.sq);
      assert r.flight == Final(r.flight, r.sq);
    case Note =>
    case Harvest => HarvestFresh(r);
  }

  lemma {:induction false} RunFresh(r: Ring, log: seq<Event>)
    requires Inv(r) && NoneStale(r)
    ensures NoneStale(RunFrom(true, r, log))
    decreases |log|
  {
    if log != [] {
      if Enabled(true, r, log[0]) {
        StepFresh(r, log[0]);
        StepKeeps(r, log[0]);
      }
      RunFresh(Advance(true, r, log[0]), log[1..]);
    }
  }

  // ---- What every run guarantees

  /**
   RX_READY_TAKEN is reported for a datagram in the calling tt_receive()'s own buffer and length if and only if its
   wr_arm() had room for a cancellation it needed. Generations never collide, wrapped or not: at most 17 recvmsgs are ever outstanding, the
   last ones issued.
   */
  lemma TakenIsTheCalls(whole: bool, log: seq<Event>)
    ensures var r := After(whole, log);
            && (forall k :: 0 <= k < |r.reports| ==> (r.reports[k].read == r.reports[k].call <==> r.reports[k].fitted))
            && Tail(Outstanding(r), r.issued) && |Outstanding(r)| <= ENTRIES + 1
  {
    RunKeeps(whole, Initial, log);
  }

  /**
   Two waits with different buffers, the first's io_uring_enter() failing: its recvmsg, taken late and at once
   completed, reads a datagram into the second's buffer and is then passed over as stale.
   */
  lemma PassesOver(first: Aim, second: Aim) returns (log: seq<Event>)
    requires first != second
    ensures After(false, log).passed == [second]
  {
    log := [Arm(first, 0), Arm(second, 0)] + [ReadNow(0), Harvest];
    RunConcat(false, Initial, [Arm(first, 0), Arm(second, 0)], [ReadNow(0), Harvest]);
    RunTwo(false, Initial, Arm(first, 0), Arm(second, 0));
    var one := Initial.(aim := first, gen := 1, recv := 1, recvAim := first, issued := 1, sq := [Recv(Request(1, first))]);
    assert Advance(false, Initial, Arm(first, 0)) == one;
    var two := one.(aim := second, gen := 2, recv := 2, recvAim := second, issued := 2,
                    sq := [Recv(Request(1, first)), Cancel(1), Recv(Request(2, second))]);
    assert Advance(false, one, Arm(second, 0)) == two;
    RunTwo(false, two, ReadNow(0), Harvest);
  }

  lemma RunTwo(whole: bool, r: Ring, a: Event, b: Event)
    ensures RunFrom(whole, r, [a, b]) == Advance(whole, Advance(whole, r, a), b)
  {
    assert [a, b][1..] == [b] && [b][1..] == [];
    assert RunFrom(whole, Advance(whole, r, a), [b]) == Advance(whole, Advance(whole, r, a), b);
  }

  /** No datagram is ever read by a recvmsg whose completion is passed over, if and only if submissions are taken whole. */
  lemma PassedExact(whole: bool)
    ensures (forall log :: After(whole, log).passed == []) <==> whole
  {
    if whole {
      forall log
        ensures After(whole, log).passed == []
      {
        RunFresh(Initial, log);
      }
    } else {
      var log := PassesOver(Aim(1, 0), Aim(2, 0));
      assert After(whole, log).passed == [Aim(2, 0)];
    }
  }

  /** A wait that starts with at most seven submissions left over always has room. */
  lemma EmptyIsRoomy(r: Ring, aim: Aim, polls: nat)
    requires Inv(r) && Enabled(false, r, Arm(aim, polls)) && |r.sq| <= ENTRIES - POLLS - 2
    ensures var armed := Armed(r, aim, polls);
            armed.fitted && armed.recv != 0 && armed.recvAim == aim
  {
    ArmKeeps(r, aim, polls);
    PolledLength(r.(aim := aim, fitted := true), polls);
  }

  /** When an armed call is left with another call's recvmsg: that is current, and its cancellation does not fit. */
  lemma ArmExact(r: Ring, aim: Aim, polls: nat)
    requires Inv(r) && Enabled(false, r, Arm(aim, polls))
    ensures var armed := Armed(r, aim, polls);
            (armed.recv != 0 && armed.recvAim != aim) <==> (r.recv != 0 && r.recvAim != aim && |r.sq| + polls >= ENTRIES)
  {
    PolledLength(r.(aim := aim, fitted := Fits(r, aim, polls)), polls);
    ArmKeeps(r, aim, polls);
  }

  lemma {:induction false} PolledLength(r: Ring, polls: nat)
    requires |r.sq| <= ENTRIES
    ensures Polled(r, polls) == r.(sq := Polled(r, polls).sq)
    ensures |Polled(r, polls).sq| == if |r.sq| + polls <= ENTRIES then |r.sq| + polls else ENTRIES
    decreases polls
  {
    if polls > 0 && Room(r) {
      PolledLength(r.(sq := r.sq + [Poll]), polls - 1);
    }
  }

  // ---- The run that needs the room

  lemma {:induction false} RunConcat(whole: bool, r: Ring, log: seq<Event>, more: seq<Event>)
    ensures RunFrom(whole, r, log + more) == RunFrom(whole, RunFrom(whole, r, log), more)
    decreases |log|
  {
    if log == [] {
      assert log + more == more;
    } else {
      assert (log + more)[1..] == log[1..] + more;
      RunConcat(whole, Advance(whole, r, log[0]), log[1..], more);
    }
  }

  lemma RunOne(r: Ring, e: Event)
    requires Enabled(false, r, e)
    ensures RunFrom(false, r, [e]) == Step(r, e)
  {
    assert [e][1..] == [];
  }

  /** What a call has in hand, whatever the kernel has taken of it. */
  predicate SameCall(r: Ring, s: Ring) {
    r.recv == s.recv && r.recvAim == s.recvAim && r.aim == s.aim && r.reports == s.reports && r.issued == s.issued
  }

  lemma {:induction false} TakesAll(r: Ring) returns (log: seq<Event>)
    requires Inv(r)
    ensures var s := RunFrom(false, r, log); Inv(s) && s.sq == [] && SameCall(r, s) && s.flight == Final(r.flight, r.sq)
    decreases |r.sq|
  {
    log := [];
    if r.sq != [] {
      SubmitKeeps(r);
      assert r.sq[0].Recv? ==> r.flight + [r.sq[0].req] == [r.sq[0].req];
      assert r.sq[0].Cancel? && r.flight != [] ==> r.flight[1..] == [];
      RunOne(r, Submit);
      var rest := TakesAll(Submitted(r));
      RunConcat(false, r, [Submit], rest);
      log := [Submit] + rest;
    }
  }

  /** While the current recvmsg is in flight, every completion waiting is passed over. */
  lemma {:induction false} HarvestsStale(r: Ring) returns (log: seq<Event>)
    requires Inv(r) && r.sq == [] && r.flight != []
    ensures var s := RunFrom(false, r, log); Inv(s) && s.sq == [] && s.flight == r.flight && s.cq == [] && SameCall(r, s)
    decreases |r.cq|
  {
    log := [];
    if r.cq != [] {
      HarvestKeeps(r);
      if r.cq[0].Came? {
        MatchIsCurrent(r, r.cq[0].req, r.cq[0].res);
        assert Outstanding(r)[|Outstanding(r)| - 1] == r.flight[|r.flight| - 1];
      }
      RunOne(r, Harvest);
      var rest := HarvestsStale(Harvested(r));
      RunConcat(false, r, [Harvest], rest);
      log := [Harvest] + rest;
    }
  }

  lemma Delivered(r: Ring)
    requires Inv(r) && r.sq == [] && r.cq == [] && r.flight != []
    ensures var s := RunFrom(false, r, [Deliver(0)] + [Harvest]);
            |s.reports| == |r.reports| + 1 && s.reports[|r.reports|] == Report(r.recvAim, r.aim, r.fitted)
  {
    CleanFlight(r.flight, r.sq);
    RunConcat(false, r, [Deliver(0)], [Harvest]);
    RunOne(r, Deliver(0));
    RunOne(Step(r, Deliver(0)), Harvest);
    assert Outstanding(r) == r.flight;
  }

  lemma ArmGrows(r: Ring, aim: Aim, polls: nat)
    requires Inv(r) && Enabled(false, r, Arm(aim, polls)) && |r.sq| + polls + 2 <= ENTRIES
    requires r.recv == 0 || r.recvAim != aim
    ensures var armed := Armed(r, aim, polls);
            && Inv(armed) && armed.cq == [] && armed.flight == r.flight && armed.reports == r.reports
            && |armed.sq| == |r.sq| + polls + (if r.recv == 0 then 1 else 2)
            && armed.recv != 0 && armed.recvAim == aim
  {
    ArmKeeps(r, aim, polls);
    PolledLength(r.(aim := aim, fitted := true), polls);
  }

  /** Six waits, each with another buffer, none of whose submissions the kernel takes: the ring is full. */
  lemma {:induction false} FillsUp(k: nat) returns (log: seq<Event>)
    requires 1 <= k <= 6
    ensures var r := After(false, log);
            && Inv(r) && r.cq == [] && r.flight == [] && r.reports == []
            && |r.sq| == 4 + 2 * k && r.recv != 0 && r.recvAim == Aim(k, 0)
  {
    var before, polls := Initial, 5;
    log := [];
    if k > 1 {
      log := FillsUp(k - 1);
      before, polls := After(false, log), 0;
    }
    ArmGrows(before, Aim(k, 0), polls);
    RunOne(before, Arm(Aim(k, 0), polls));
    RunConcat(false, Initial, log, [Arm(Aim(k, 0), polls)]);
    log := log + [Arm(Aim(k, 0), polls)];
  }

  /** The room is needed: without it, a call is told TAKEN for a datagram that went into another call's buffer. */
  lemma TakenNeedsRoom() returns (log: seq<Event>)
    ensures exists k :: 0 <= k < |After(false, log).reports| && After(false, log).reports[k].read != After(false, log).reports[k].call
  {
    log := FillsUp(6);
    var full := After(false, log);
    var seventh := Arm(Aim(7, 0), 0);
    ArmKeeps(full, Aim(7, 0), 0);
    ArmExact(full, Aim(7, 0), 0);
    RunOne(full, seventh);
    RunConcat(false, Initial, log, [seventh]);
    log := log + [seventh];
    var armed := After(false, log);
    assert armed == full.(aim := Aim(7, 0), fitted := false);
    var takes := TakesAll(armed);
    RunConcat(false, Initial, log, takes);
    log := log + takes;
    var stale := HarvestsStale(After(false, log));
    RunConcat(false, Initial, log, stale);
    log := log + stale;
    Delivered(After(false, log));
    RunConcat(false, Initial, log, [Deliver(0)] + [Harvest]);
    log := log + ([Deliver(0)] + [Harvest]);
    assert After(false, log).reports[0].read == Aim(6, 0) && After(false, log).reports[0].call == Aim(7, 0);
  }
}
