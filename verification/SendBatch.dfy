/**
 The batched send: datagrams are packed into UDP_SEGMENT runs, runs and single datagrams into sendmmsg() calls, and the
 calls repeated until the batch is gone or the kernel refuses. What reaches the wire is compared with the batch itself,
 byte for byte, after the kernel has cut each run at its first datagram's length.
 */
module SendBatch {
  import opened Sequences

  const CHUNK: nat := 64
  const CALL_DATAGRAMS: nat := 128
  const GSO_MAX_SEGMENTS: nat := 64
  const GSO_MAX_BYTES: nat := 65507
  const ETHERNET_PAYLOAD: nat := 1472

  type Bytes = seq<bv8>

  datatype Dest = Broadcast | To(ip: nat, port: nat)

  /** A datagram core built: its pieces and destination (ip 0: broadcast), and gso_large_fragment()'s answer for it. */
  datatype Out = Out(head: Bytes, body: Bytes, ip: nat, port: nat, large: bool) {
    function Payload(): Bytes {
      head + body
    }

    function To(): Dest {
      if ip == 0 then Broadcast else Dest.To(ip, port)
    }
  }

  /** What the wire carries. */
  datatype Packet = Packet(to: Dest, bytes: Bytes)

  function Wire(batch: seq<Out>): seq<Packet> {
    seq(|batch|, i requires 0 <= i < |batch| => Packet(batch[i].To(), batch[i].Payload()))
  }

  /** A message of a sendmmsg() call; `segment`: UDP_SEGMENT's size, 0 for none. */
  datatype Message = Message(pieces: seq<Bytes>, to: Dest, segment: nat)

  function Addressed(to: Dest, cuts: seq<Bytes>): seq<Packet> {
    seq(|cuts|, i requires 0 <= i < |cuts| => Packet(to, cuts[i]))
  }

  /** What one message puts on the wire. */
  function Carried(m: Message): seq<Packet> {
    if m.segment == 0 then [Packet(m.to, Joined(m.pieces))] else Addressed(m.to, Cut(Joined(m.pieces), m.segment))
  }

  function AllCarried(messages: seq<Message>): seq<Packet> {
    if messages == [] then [] else AllCarried(messages[..|messages| - 1]) + Carried(messages[|messages| - 1])
  }

  function Payloads(batch: seq<Out>): seq<Bytes> {
    seq(|batch|, i requires 0 <= i < |batch| => batch[i].Payload())
  }

  function Sum(ns: seq<nat>): nat {
    if ns == [] then 0 else Sum(ns[..|ns| - 1]) + ns[|ns| - 1]
  }

  // ---- Runs

  function Length(d: Out): nat {
    |d.head| + |d.body|
  }

  function TotalLength(batch: seq<Out>): nat {
    if batch == [] then 0 else TotalLength(batch[..|batch| - 1]) + Length(batch[|batch| - 1])
  }

  predicate SameDest(a: Out, b: Out) {
    a.ip == b.ip && (a.ip != 0 ==> a.port == b.port)
  }

  /** The datagrams can go as one UDP_SEGMENT send: large fragments, one destination, one length but for the last. */
  ghost predicate IsRun(run: seq<Out>, controlMax: nat) {
    && 2 <= |run| <= GSO_MAX_SEGMENTS
    && 0 < Length(run[0]) <= controlMax
    && (forall i :: 0 <= i < |run| ==> run[i].large && SameDest(run[0], run[i]) && 0 < Length(run[i]) <= Length(run[0]))
    && (forall i :: 0 <= i < |run| - 1 ==> Length(run[i]) == Length(run[0]))
    && TotalLength(run) <= GSO_MAX_BYTES
  }

  lemma TotalPrefix(run: seq<Out>, next: Out)
    ensures TotalLength(run + [next]) == TotalLength(run) + Length(next)
  {
    Appended(run, next);
  }

  /** The first `run` datagrams can be followed by one more of a run. */
  ghost predicate Even(batch: seq<Out>, run: nat, controlMax: nat) {
    && 1 <= run <= |batch| && run <= GSO_MAX_SEGMENTS && 0 < Length(batch[0]) <= controlMax
    && (forall i :: 0 <= i < run ==>
                      batch[i].large && SameDest(batch[0], batch[i]) && Length(batch[i]) == Length(batch[0]))
    && TotalLength(batch[..run]) <= GSO_MAX_BYTES
  }

  lemma EvenIsRun(batch: seq<Out>, run: nat, controlMax: nat)
    requires Even(batch, run, controlMax)
    ensures run > 1 ==> IsRun(batch[..run], controlMax)
  {
    assert batch[..run][0] == batch[0];
    assert forall i :: 0 <= i < run ==> batch[..run][i] == batch[i];
  }

  /** One more datagram, perhaps short, makes a run. */
  lemma OneMore(batch: seq<Out>, run: nat, controlMax: nat)
    requires Even(batch, run, controlMax) && run < |batch| && run < GSO_MAX_SEGMENTS
    requires batch[run].large && SameDest(batch[0], batch[run]) && 0 < Length(batch[run]) <= Length(batch[0])
    requires TotalLength(batch[..run]) + Length(batch[run]) <= GSO_MAX_BYTES
    ensures IsRun(batch[..run + 1], controlMax)
    ensures TotalLength(batch[..run + 1]) == TotalLength(batch[..run]) + Length(batch[run])
  {
    assert batch[..run + 1] == batch[..run] + [batch[run]];
    TotalPrefix(batch[..run], batch[run]);
    assert batch[..run + 1][0] == batch[0];
    assert forall i :: 0 <= i < run + 1 ==> batch[..run + 1][i] == batch[i];
  }

  lemma FirstRefuses(batch: seq<Out>, controlMax: nat)
    requires batch != []
    requires Length(batch[0]) == 0 || Length(batch[0]) > controlMax || |batch| < 2 || !batch[0].large
    ensures forall more :: 1 < more <= |batch| ==> !IsRun(batch[..more], controlMax)
  {
    assert forall more :: 1 < more <= |batch| ==> batch[..more][0] == batch[0];
  }

  /** gso_run(): how many datagrams from the first go as one, as many as the rules allow. */
  method GsoRun(batch: seq<Out>, controlMax: nat) returns (run: nat)
    requires batch != []
    ensures 1 <= run <= |batch|
    ensures run > 1 ==> IsRun(batch[..run], controlMax)
    ensures forall more :: run < more <= |batch| ==> !IsRun(batch[..more], controlMax)
  {
    var first := batch[0];
    var size := Length(first);
    if size == 0 || size > controlMax || |batch| < 2 || !first.large {
      FirstRefuses(batch, controlMax);
      return 1;
    }
    run := 1;
    var total := size;
    assert batch[..1] == [first];
    while run < |batch| && run < GSO_MAX_SEGMENTS
      invariant 1 <= run <= |batch| && run <= GSO_MAX_SEGMENTS
      invariant total == TotalLength(batch[..run])
      invariant run == 1 || Even(batch, run, controlMax)
    {
      var next := batch[run];
      var length := Length(next);
      if !SameDest(first, next) || length == 0 || length > size || total + length > GSO_MAX_BYTES || !next.large {
        assert batch[..run + 1] == batch[..run] + [next];
        TotalPrefix(batch[..run], next);
        LongerIsNoRun(batch, run, controlMax);
        if run > 1 {
          EvenIsRun(batch, run, controlMax);
        }
        return;
      }
      OneMore(batch, run, controlMax);
      total := total + length;
      run := run + 1;
      if length < size {
        ShortEndsRun(batch, run, controlMax);
        return;
      }
    }
    EvenIsRun(batch, run, controlMax);
  }

  lemma {:induction false} TotalGrows(batch: seq<Out>, k: nat)
    requires k <= |batch|
    ensures TotalLength(batch[..k]) <= TotalLength(batch)
    decreases |batch|
  {
    if k < |batch| {
      var n := |batch| - 1;
      TotalGrows(batch[..n], k);
      assert batch[..n][..k] == batch[..k];
    } else {
      assert batch[..k] == batch;
    }
  }

  lemma LongerIsNoRun(batch: seq<Out>, run: nat, controlMax: nat)
    requires 1 <= run < |batch|
    requires var first, next := batch[0], batch[run];
             || !SameDest(first, next) || Length(next) == 0 || Length(next) > Length(first) || !next.large
             || TotalLength(batch[..run + 1]) > GSO_MAX_BYTES
    ensures forall more :: run < more <= |batch| ==> !IsRun(batch[..more], controlMax)
  {
    forall more | run < more <= |batch|
      ensures !IsRun(batch[..more], controlMax)
    {
      TotalGrows(batch[..more], run + 1);
      assert batch[..more][..run + 1] == batch[..run + 1];
      assert batch[..more][run] == batch[run] && batch[..more][0] == batch[0];
    }
  }

  lemma ShortEndsRun(batch: seq<Out>, run: nat, controlMax: nat)
    requires 1 < run <= |batch| && Length(batch[run - 1]) < Length(batch[0])
    ensures forall more :: run < more <= |batch| ==> !IsRun(batch[..more], controlMax)
  {
    forall more | run < more <= |batch|
      ensures !IsRun(batch[..more], controlMax)
    {
      assert batch[..more][run - 1] == batch[run - 1] && batch[..more][0] == batch[0];
    }
  }

  // ---- The kernel's cut gives the run back

  /** Pieces of one size, the last perhaps shorter: cutting what they join to at that size gives them back. */
  lemma {:induction false} CutJoined(pieces: seq<Bytes>, size: nat)
    requires pieces != [] && size > 0
    requires forall i :: 0 <= i < |pieces| ==> 0 < |pieces[i]| <= size
    requires forall i :: 0 <= i < |pieces| - 1 ==> |pieces[i]| == size
    ensures Cut(Joined(pieces), size) == pieces
  {
    JoinedFront(pieces);
    if |pieces| == 1 {
      assert Joined(pieces) == pieces[0];
    } else {
      CutJoined(pieces[1..], size);
      JoinedFront(pieces[1..]);
      assert Joined(pieces)[..size] == pieces[0] && Joined(pieces)[size..] == Joined(pieces[1..]);
    }
  }

  lemma RunArrives(run: seq<Out>, m: Message, controlMax: nat)
    requires IsRun(run, controlMax) && m.to == run[0].To() && m.segment == Length(run[0])
    requires Joined(m.pieces) == Joined(Payloads(run))
    ensures Carried(m) == Wire(run)
  {
    CutJoined(Payloads(run), m.segment);
  }

  // ---- One call

  lemma JoinedAppend(pieces: seq<Bytes>, piece: Bytes)
    ensures Joined(pieces + [piece]) == Joined(pieces) + piece
  {
    Appended(pieces, piece);
  }

  lemma OneMorePayload(run: seq<Out>, k: nat, pieces: seq<Bytes>)
    requires k < |run| && Joined(pieces) == Joined(Payloads(run[..k]))
    ensures Joined(pieces + [run[k].head]) == Joined(pieces) + run[k].head
    ensures Joined(pieces + [run[k].head] + [run[k].body]) == Joined(Payloads(run[..k + 1]))
    ensures run[k].body == [] ==> Joined(pieces + [run[k].head]) == Joined(Payloads(run[..k + 1]))
  {
    JoinedAppend(pieces, run[k].head);
    JoinedAppend(pieces + [run[k].head], run[k].body);
    JoinedAppend(Payloads(run[..k]), run[k].Payload());
    assert Payloads(run[..k + 1]) == Payloads(run[..k]) + [run[k].Payload()];
    Assoc(Joined(pieces), run[k].head, run[k].body);
    assert run[k].body == [] ==> run[k].Payload() == run[k].head;
  }

  /** The pieces of a run's datagrams, an empty body left out. */
  method Gather(run: seq<Out>) returns (pieces: seq<Bytes>)
    ensures Joined(pieces) == Joined(Payloads(run))
  {
    pieces := [];
    for k := 0 to |run|
      invariant Joined(pieces) == Joined(Payloads(run[..k]))
    {
      OneMorePayload(run, k, pieces);
      pieces := pieces + [run[k].head];
      if run[k].body != [] {
        pieces := pieces + [run[k].body];
      }
    }
    assert run[..|run|] == run;
  }

  lemma OneArrives(d: Out, m: Message)
    requires m.to == d.To() && m.segment == 0 && Joined(m.pieces) == Joined(Payloads([d]))
    ensures Carried(m) == Wire([d])
  {
    assert Payloads([d]) == [] + [d.Payload()];
    JoinedAppend([], d.Payload());
    assert Joined([]) + d.Payload() == d.Payload();
  }

  /** send_message_setup(): what the message of a run puts on the wire is the run. */
  method MessageSetup(run: seq<Out>, controlMax: nat) returns (m: Message)
    requires |run| == 1 || IsRun(run, controlMax)
    ensures Carried(m) == Wire(run) && (m.segment > 0 <==> |run| > 1)
  {
    var pieces := Gather(run);
    m := Message(pieces, run[0].To(), if |run| > 1 then Length(run[0]) else 0);
    if |run| > 1 {
      RunArrives(run, m, controlMax);
    } else {
      assert run == [run[0]];
      OneArrives(run[0], m);
    }
  }

  datatype Call = Call(messages: seq<Message>, carried: seq<nat>, placed: nat, zero: bool, segmented: bool)

  ghost predicate Fragmented(batch: seq<Out>) {
    exists i :: 0 <= i < |batch| && Length(batch[i]) > ETHERNET_PAYLOAD
  }

  ghost predicate Segmented(messages: seq<Message>) {
    exists j :: 0 <= j < |messages| && messages[j].segment > 0
  }

  /** What the call's flags say, with checksum 0 allowed: it carries an IP-fragmented datagram, a UDP_SEGMENT run. */
  ghost predicate Flagged(call: Call, batch: seq<Out>) {
    && call.placed <= |batch|
    && (call.zero <==> Fragmented(batch[..call.placed]))
    && (call.segmented <==> Segmented(call.messages))
  }

  /** A run has no IP-fragmented datagram, so no call need mix the two - exactly while the control length is a frame's. */
  lemma ControlLengthExact(controlMax: nat)
    ensures (forall run :: IsRun(run, controlMax) ==> !Fragmented(run)) <==> controlMax <= ETHERNET_PAYLOAD
  {
    if controlMax > ETHERNET_PAYLOAD {
      var d := Out(seq(1473, _ => 0), [], 0, 0, true);
      TotalPrefix([], d);
      TotalPrefix([d], d);
      assert [d] + [d] == [d, d] && [] + [d] == [d];
      assert IsRun([d, d], controlMax) && Length([d, d][0]) > ETHERNET_PAYLOAD;
    }
  }

  lemma CarriedAppend(messages: seq<Message>, m: Message)
    ensures AllCarried(messages + [m]) == AllCarried(messages) + Carried(m)
  {
    Appended(messages, m);
  }

  lemma SumAppend(ns: seq<nat>, n: nat)
    ensures Sum(ns + [n]) == Sum(ns) + n
  {
    Appended(ns, n);
  }

  lemma WireAppend(batch: seq<Out>, p: nat, q: nat)
    requires p <= q <= |batch|
    ensures Wire(batch[..q]) == Wire(batch[..p]) + Wire(batch[p..q])
  {
  }

  /** Its first k messages carry the batch's first datagrams, as many as they count. */
  ghost predicate CarriesTo(call: Call, batch: seq<Out>, k: nat)
    requires k <= |call.messages| == |call.carried|
  {
    && k <= Sum(call.carried[..k]) <= |batch|
    && AllCarried(call.messages[..k]) == Wire(batch[..Sum(call.carried[..k])])
  }

  ghost predicate Carries(call: Call, batch: seq<Out>) {
    && |call.messages| == |call.carried| && call.placed == Sum(call.carried) <= |batch|
    && forall k {:trigger CarriesTo(call, batch, k)} :: 0 <= k <= |call.messages| ==> CarriesTo(call, batch, k)
  }

  function Joins(call: Call, m: Message, run: nat, zero: bool, segmented: bool): Call {
    Call(call.messages + [m], call.carried + [run], call.placed + run, zero, segmented)
  }

  lemma CarriesAppend(call: Call, batch: seq<Out>, m: Message, run: nat, zero: bool, segmented: bool)
    requires Carries(call, batch) && 0 < run && call.placed + run <= |batch|
    requires Carried(m) == Wire(batch[call.placed..call.placed + run])
    ensures Carries(Joins(call, m, run, zero, segmented), batch)
  {
    SumAppend(call.carried, run);
    forall k | 0 <= k <= |call.messages| + 1
      ensures CarriesTo(Joins(call, m, run, zero, segmented), batch, k)
    {
      if k <= |call.messages| {
        EarlierCarries(call, batch, m, run, zero, segmented, k);
      } else {
        LastCarries(call, batch, m, run, zero, segmented);
      }
    }
  }

  lemma NextCarried(messages: seq<Message>, batch: seq<Out>, placed: nat, m: Message, run: nat)
    requires placed + run <= |batch| && AllCarried(messages) == Wire(batch[..placed])
    requires Carried(m) == Wire(batch[placed..placed + run])
    ensures AllCarried(messages + [m]) == Wire(batch[..placed + run])
  {
    CarriedAppend(messages, m);
    WireAppend(batch, placed, placed + run);
  }

  lemma LastCarries(call: Call, batch: seq<Out>, m: Message, run: nat, zero: bool, segmented: bool)
    requires Carries(call, batch) && 0 < run && call.placed + run <= |batch|
    requires Carried(m) == Wire(batch[call.placed..call.placed + run])
    ensures CarriesTo(Joins(call, m, run, zero, segmented), batch, |call.messages| + 1)
  {
    AllOfIt(call, batch);
    NextCarried(call.messages, batch, call.placed, m, run);
    SumAppend(call.carried, run);
    FullPrefix(call.messages + [m]);
    FullPrefix(call.carried + [run]);
  }

  lemma EarlierCarries(call: Call, batch: seq<Out>, m: Message, run: nat, zero: bool, segmented: bool, k: nat)
    requires Carries(call, batch) && k <= |call.messages|
    ensures CarriesTo(Joins(call, m, run, zero, segmented), batch, k)
  {
    var next := Joins(call, m, run, zero, segmented);
    assert CarriesTo(call, batch, k);
    assert next.messages[..k] == call.messages[..k] && next.carried[..k] == call.carried[..k];
  }

  lemma AllOfIt(call: Call, batch: seq<Out>)
    requires Carries(call, batch)
    ensures |call.messages| <= call.placed && AllCarried(call.messages) == Wire(batch[..call.placed])
  {
    var n := |call.messages|;
    assert CarriesTo(call, batch, n);
    FullPrefix(call.messages);
    FullPrefix(call.carried);
  }

  lemma FlagsAppend(call: Call, batch: seq<Out>, m: Message, run: nat, controlMax: nat)
    requires Flagged(call, batch) && 0 < run && call.placed + run <= |batch| && controlMax <= ETHERNET_PAYLOAD
    requires run == 1 || IsRun(batch[call.placed..call.placed + run], controlMax)
    requires m.segment > 0 <==> run > 1
    ensures Flagged(Joins(call, m, run, call.zero || Length(batch[call.placed]) > ETHERNET_PAYLOAD,
                          call.segmented || run > 1), batch)
    ensures run > 1 ==> Length(batch[call.placed]) <= ETHERNET_PAYLOAD
  {
    var p, q := call.placed, call.placed + run;
    forall i | p <= i < q
      ensures run > 1 ==> Length(batch[i]) <= ETHERNET_PAYLOAD
    {
      assert batch[p..q][i - p] == batch[i];
    }
    assert forall i :: 0 <= i < p ==> batch[..p][i] == batch[i];
    assert forall i :: 0 <= i < q ==> batch[..q][i] == batch[i];
    assert Fragmented(batch[..p]) <==> exists i :: 0 <= i < p && Length(batch[i]) > ETHERNET_PAYLOAD;
    assert Fragmented(batch[..q]) <==> exists i :: 0 <= i < q && Length(batch[i]) > ETHERNET_PAYLOAD;
    var messages := call.messages + [m];
    assert messages[|call.messages|] == m;
    assert forall j :: 0 <= j < |call.messages| ==> messages[j] == call.messages[j];
  }

  /** A call under construction: within the limits, and with checksum 0 allowed of one kind only. */
  ghost predicate Building(call: Call, batch: seq<Out>, csum0: bool, controlMax: nat) {
    && Carries(call, batch) && |call.messages| <= CHUNK && call.placed <= CALL_DATAGRAMS
    && (csum0 && controlMax <= ETHERNET_PAYLOAD ==> Flagged(call, batch) && !(call.zero && call.segmented))
    && (!csum0 ==> !call.zero && !call.segmented)
  }

  /** A call as the kernel is given it: 1 to 64 messages, 1 to 128 datagrams. */
  ghost predicate WellBuilt(call: Call, batch: seq<Out>, csum0: bool, controlMax: nat) {
    Building(call, batch, csum0, controlMax) && 1 <= |call.messages| && 1 <= call.placed
  }

  /** The next message of a call with room for `room` datagrams. */
  method NextMessage(batch: seq<Out>, placed: nat, room: nat, gsoOn: bool, controlMax: nat) returns (m: Message, run: nat)
    requires 0 < room && placed + room <= |batch|
    ensures 1 <= run <= room && (!gsoOn ==> run == 1)
    ensures run == 1 || IsRun(batch[placed..placed + run], controlMax)
    ensures Carried(m) == Wire(batch[placed..placed + run]) && (m.segment > 0 <==> run > 1)
  {
    var next := batch[placed..placed + room];
    run := 1;
    if gsoOn {
      run := GsoRun(next, controlMax);
    }
    assert next[..run] == batch[placed..placed + run];
    m := MessageSetup(next[..run], controlMax);
  }

  /** One more message, unless it is of the other kind and starts the next call (csum0_joins()). */
  method AddMessage(call: Call, batch: seq<Out>, room: nat, gsoOn: bool, csum0: bool, controlMax: nat)
    returns (next: Call, joined: bool)
    requires Building(call, batch, csum0, controlMax) && |call.messages| < CHUNK
    requires 0 < room && call.placed + room <= |batch| && call.placed + room <= CALL_DATAGRAMS
    ensures Building(next, batch, csum0, controlMax)
    ensures joined ==> next.placed > call.placed && |next.messages| == |call.messages| + 1
                       && call.carried <= next.carried && next.carried[|call.carried|] >= 1
                       && (!gsoOn ==> next.carried[|call.carried|] == 1)
    ensures !joined ==> next == call && (call.zero || call.segmented)
  {
    var m, run := NextMessage(batch, call.placed, room, gsoOn, controlMax);
    var fragmented := Length(batch[call.placed]) > ETHERNET_PAYLOAD;
    if csum0 && ((fragmented && call.segmented) || (run > 1 && call.zero)) {
      return call, false;
    }
    var zero, segmented := call.zero || (csum0 && fragmented), call.segmented || (csum0 && run > 1);
    CarriesAppend(call, batch, m, run, zero, segmented);
    if csum0 && controlMax <= ETHERNET_PAYLOAD {
      FlagsAppend(call, batch, m, run, controlMax);
    }
    return Joins(call, m, run, zero, segmented), true;
  }

  /** send_call_build(): as many of the batch's datagrams as one call takes. */
  method CallBuild(batch: seq<Out>, gsoOn: bool, csum0: bool, controlMax: nat) returns (call: Call)
    requires batch != []
    ensures WellBuilt(call, batch, csum0, controlMax)
    ensures call.carried[0] >= 1 && (!gsoOn ==> call.carried[0] == 1)
  {
    call := Call([], [], 0, false, false);
    assert CarriesTo(call, batch, 0);
    while |call.messages| < CHUNK && call.placed < |batch| && call.placed < CALL_DATAGRAMS
      invariant Building(call, batch, csum0, controlMax)
      invariant |call.messages| == 0 ==> call.placed == 0 && !call.zero && !call.segmented
      invariant |call.messages| > 0 ==> call.placed > 0 && call.carried[0] >= 1 && (!gsoOn ==> call.carried[0] == 1)
      decreases |batch| - call.placed
    {
      var room := if |batch| < CALL_DATAGRAMS then |batch| - call.placed else CALL_DATAGRAMS - call.placed;
      var joined;
      call, joined := AddMessage(call, batch, room, gsoOn, csum0, controlMax);
      if !joined {
        break;
      }
    }
  }

  // ---- The whole batch

  /** Why a call failed: a full buffer, EINVAL, another errno a refused UDP_SEGMENT gives, or anything else. */
  datatype Errno = Again | Inval | Unsegmentable | Failed

  /** A call as it went to the kernel, with SO_NO_CHECK as it was, and the kernel's answer. */
  datatype Made = Made(call: Call, rest: seq<Out>, noCheck: bool, result: int, err: Errno)

  /** An answer the batch ends with: an error that is neither a full buffer nor a refused UDP_SEGMENT send. */
  predicate Hopeless(m: Made)
    requires m.call.carried != []
  {
    m.result == 0
    || (m.result < 0 && m.err != Again && (m.err == Failed || m.call.carried[0] == 1))
  }

  /** The call was within the limits, and its checksums were as its datagrams need them. */
  ghost predicate Fits(call: Call, rest: seq<Out>, noCheck: bool, csum0: bool, controlMax: nat) {
    && WellBuilt(call, rest, csum0, controlMax)
    && (call.segmented && controlMax <= ETHERNET_PAYLOAD ==> !noCheck)
    && (call.zero ==> noCheck)
  }

  ghost predicate WellMade(m: Made, csum0: bool, controlMax: nat) {
    Fits(m.call, m.rest, m.noCheck, csum0, controlMax)
  }

  ghost predicate AllWell(made: seq<Made>, csum0: bool, controlMax: nat) {
    forall k {:trigger WellMade(made[k], csum0, controlMax)} :: 0 <= k < |made| ==> WellMade(made[k], csum0, controlMax)
  }

  lemma AllWellAppend(made: seq<Made>, m: Made, csum0: bool, controlMax: nat)
    requires AllWell(made, csum0, controlMax) && WellMade(m, csum0, controlMax)
    ensures AllWell(made + [m], csum0, controlMax)
  {
    forall k | 0 <= k < |made| + 1
      ensures WellMade((made + [m])[k], csum0, controlMax)
    {
      if k < |made| {
        assert WellMade(made[k], csum0, controlMax);
      }
    }
  }

  class Sender {
    const csum0: bool
    const controlMax: nat
    var gsoOn: bool
    var noCheck: bool
    /** The kernel's side: what went out, and how many more full buffers it will report. */
    var wire: seq<Packet>
    var fullBuffers: nat
    ghost var made: seq<Made>

    ghost predicate Valid()
      reads this
    {
      AllWell(made, csum0, controlMax)
    }

    constructor (csum0: bool, controlMax: nat, gsoOn: bool, fullBuffers: nat)
      ensures Valid() && wire == [] && made == []
      ensures this.csum0 == csum0 && this.controlMax == controlMax
    {
      this.csum0, this.controlMax, this.gsoOn, this.fullBuffers := csum0, controlMax, gsoOn, fullBuffers;
      noCheck, wire, made := false, [], [];
    }

    /** sendmmsg(): some of the call's messages go, in order, or none and an errno. */
    method Sendmmsg(call: Call, ghost rest: seq<Out>) returns (result: int, err: Errno)
      requires Valid() && Fits(call, rest, noCheck, csum0, controlMax)
      modifies `wire, `fullBuffers, `made
      ensures Valid()
      ensures -1 <= result <= |call.messages|
      ensures wire == old(wire) + AllCarried(call.messages[..if result > 0 then result else 0])
      ensures if result < 0 && err == Again then fullBuffers < old(fullBuffers) else fullBuffers == old(fullBuffers)
      ensures made == old(made) + [Made(call, rest, noCheck, result, err)]
    {
      result, err := *, *;
      if result < 0 {
        result := -1;
        err := if err == Again && fullBuffers == 0 then Failed else err;
        fullBuffers := if err == Again then fullBuffers - 1 else fullBuffers;
      } else {
        result := if result > |call.messages| then |call.messages| else result;
        wire := wire + AllCarried(call.messages[..result]);
      }
      AllWellAppend(made, Made(call, rest, noCheck, result, err), csum0, controlMax);
      made := made + [Made(call, rest, noCheck, result, err)];
    }

    /** The next call, and csum0_before(): SO_NO_CHECK on for a fragmented datagram's call, off for a run's. */
    method Prepare(rest: seq<Out>) returns (call: Call)
      requires rest != []
      modifies `noCheck
      ensures Fits(call, rest, noCheck, csum0, controlMax)
      ensures call.carried[0] >= 1 && (!gsoOn ==> call.carried[0] == 1)
    {
      call := CallBuild(rest, gsoOn, csum0, controlMax);
      if call.segmented || call.zero {
        noCheck := call.zero;
      }
    }

    /** One call of what is left: how many datagrams went, and how many its first message had. */
    method MakeCall(rest: seq<Out>) returns (result: int, err: Errno, went: nat, firstRun: nat)
      requires Valid() && rest != []
      modifies `noCheck, `wire, `fullBuffers, `made
      ensures Valid() && old(made) < made
      ensures var last := made[|made| - 1];
              last.result == result && last.err == err && last.call.carried != [] && last.call.carried[0] == firstRun >= 1
      ensures went <= |rest| && wire == old(wire) + Wire(rest[..went])
      ensures (result > 0 <==> went > 0) && (firstRun > 1 ==> gsoOn)
      ensures if result < 0 && err == Again then fullBuffers < old(fullBuffers) else fullBuffers == old(fullBuffers)
    {
      var call := Prepare(rest);
      firstRun := call.carried[0];
      result, err := Sendmmsg(call, rest);
      var taken := if result > 0 then result else 0;
      assert CarriesTo(call, rest, taken);
      went := CountSent(call.carried, taken);
    }

    /**
     send_batch_flags(): the batch goes out in calls, from the first datagram that has not gone. `sent` datagrams went:
     on the wire is what was there, then exactly those, in order and byte for byte.
     */
    method SendBatchFlags(batch: seq<Out>, nonblocking: bool) returns (r: int, ghost sent: nat)
      requires Valid()
      modifies this
      ensures Valid() && old(made) <= made
      ensures sent <= |batch| && wire == old(wire) + Wire(batch[..sent])
      ensures r == -1 || r == sent
      ensures !nonblocking && r != -1 ==> r == |batch|
      ensures sent == |batch| ==> r == |batch|
      ensures r == -1 ==> old(made) < made && made[|made| - 1].call.carried != [] && Hopeless(made[|made| - 1])
      ensures nonblocking && 0 <= r < |batch| ==> old(made) < made && made[|made| - 1].result < 0
                                                  && made[|made| - 1].err == Again
    {
      var gone := 0;
      var retried := false;
      while gone < |batch|
        invariant Valid() && old(made) <= made
        invariant gone <= |batch| && wire == old(wire) + Wire(batch[..gone])
        decreases |batch| - gone, gsoOn, !retried, fullBuffers
      {
        var result, err, went, firstRun := MakeCall(batch[gone..]);
        assert batch[gone..][..went] == batch[gone..gone + went];
        WireAppend(batch, gone, gone + went);
        if result > 0 {
          retried := false;
          gone := gone + went;
          continue;
        }
        if nonblocking && result < 0 && err == Again {
          return gone, gone;
        }
        // send_wait_for_room() answers yes for a full buffer, however its poll() ends
        if !nonblocking && result < 0 && err == Again {
          continue;
        }
        if result < 0 && firstRun > 1 && err == Inval && csum0 && !retried {
          retried := true;
          noCheck := false;
          continue;
        }
        if result < 0 && firstRun > 1 && (err == Inval || err == Unsegmentable) {
          gsoOn := false;
          continue;
        }
        return -1, gone;
      }
      return |batch|, gone;
    }
  }

  /** gso_count_sent(): the datagrams the first k messages carried. */
  method CountSent(carried: seq<nat>, k: nat) returns (datagrams: nat)
    requires k <= |carried|
    ensures datagrams == Sum(carried[..k])
  {
    datagrams := 0;
    for i := 0 to k
      invariant datagrams == Sum(carried[..i])
    {
      assert carried[..i + 1] == carried[..i] + [carried[i]];
      SumAppend(carried[..i], carried[i]);
      datagrams := datagrams + carried[i];
    }
  }
}
