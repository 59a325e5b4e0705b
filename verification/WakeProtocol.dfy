/**
 How the FreeRTOS HAL notices an arrival: lwIP's callback counts it, a waker or a doorbell sets its flag, and each then
 gives one binary semaphore; tt_receive() looks at the flags and the counts and only then sleeps on it. Every atomic
 access is one step, so a run is any interleaving of the tcpip thread, the wakers, the bell ringers and the reader.
 */
module WakeProtocol {
  import opened Datagrams

  /** Whether lwIP may raise RCVPLUS with nothing queued, as it does on a few error and close paths. */
  datatype Env = Env(spurious: bool)

  /** Who called rx_read(): a tt_receive() that has or has not taken a rung bell, or tt_try_receive(). */
  datatype Caller = Waiting(rung: bool) | Trying

  /** The reading task's next atomic step. */
  datatype Pc =
    | Away
    | TakeWake
    | TakeBell
    | LookWellKnown(rung: bool)
    | LookData(rung: bool, seen: nat)
    | LoadWellKnown(caller: Caller)
    | LoadData(caller: Caller, seen: nat)
    | Recv(caller: Caller, which: Sock, seen: nat)
    | Clear(caller: Caller, which: Sock, seen: nat)
    | LoadCount(which: Sock)
    | Decrement(which: Sock, seen: nat)
    | Decide(rung: bool)
    | Asleep

  /**
   `mail`: datagrams in each netconn's mailbox; `uncounted`: queued, their RCVPLUS not run yet; `owed`: tasks between
   their set and their give; `blind`: a read found one netconn empty and went back to the wait with the other counted.
   */
  datatype State = State(
    mail: Per<nat>,
    uncounted: Per<nat>,
    count: Per<nat>,
    wake: bool,
    bell: bool,
    sem: bool,
    owed: nat,
    pc: Pc,
    preferData: bool,
    blind: bool)

  datatype Event =
      // the tcpip thread, wakers and bell ringers
    | Queue(sock: Sock)
    | Count(sock: Sock)
    | Spurious(sock: Sock)
    | SetWake
    | RingBell
    | Give
      // the reading task
    | Receive
    | TryReceive
    | Next
    | Fail
    | TimeOut

  const Initial: State := State(Per(0, 0), Per(0, 0), Per(0, 0), false, false, false, 0, Away, false, false)

  predicate Enabled(env: Env, st: State, e: Event) {
    match e
    case Queue(_) => true
    case Count(s) => st.uncounted.At(s) > 0
    case Spurious(_) => env.spurious
    case SetWake => true
    case RingBell => true
    case Give => st.owed > 0
    case Receive => st.pc == Away
    case TryReceive => st.pc == Away
    case Next => st.pc != Away && (st.pc == Asleep ==> st.sem)
    case Fail => st.pc.Recv?
    case TimeOut => st.pc.Decide? || st.pc == Asleep
  }

  function Counted(st: State, s: Sock): State {
    st.(count := st.count.With(s, st.count.At(s) + 1), owed := st.owed + 1)
  }

  function Other(s: Sock): Sock {
    if s == WellKnown then Data else WellKnown
  }

  /** Back from rx_read() with -1. */
  function Empty(st: State, caller: Caller): State {
    match caller
    case Waiting(rung) => st.(pc := Decide(rung))
    case Trying => st.(pc := Away)
  }

  /** The netconn rx_read() asks, from the two counts it loaded. */
  function Chosen(st: State, wellKnown: nat, data: nat): Sock {
    if data != 0 && (wellKnown == 0 || st.preferData) then Data else WellKnown
  }

  /** The reading task's step. */
  function Read(st: State): State
    requires st.pc != Away && (st.pc == Asleep ==> st.sem)
  {
    match st.pc
    case TakeWake => st.(wake := false, pc := if st.wake then Away else TakeBell)
    case TakeBell => st.(bell := false, pc := LookWellKnown(st.bell))
    case LookWellKnown(rung) => st.(pc := LookData(rung, st.count.wellKnown))
    case LookData(rung, seen) =>
      st.(pc := if seen != 0 || st.count.data != 0 then LoadWellKnown(Waiting(rung)) else Decide(rung))
    case LoadWellKnown(caller) => st.(pc := LoadData(caller, st.count.wellKnown))
    case LoadData(caller, seen) =>
      var data := st.count.data;
      if seen == 0 && data == 0 then Empty(st, caller)
      else
        var which := Chosen(st, seen, data);
        st.(preferData := if seen != 0 && data != 0 then !st.preferData else st.preferData,
            pc := Recv(caller, which, if which == Data then data else seen))
    case Recv(caller, which, seen) =>
      if st.mail.At(which) == 0 then st.(pc := Clear(caller, which, seen))
      else st.(mail := st.mail.With(which, st.mail.At(which) - 1), pc := LoadCount(which))
    case Clear(caller, which, seen) =>
      var count := if st.count.At(which) == seen then st.count.With(which, 0) else st.count;
      Empty(st.(count := count, blind := st.blind || (caller.Waiting? && st.count.At(Other(which)) != 0)), caller)
    case LoadCount(which) =>
      st.(pc := if st.count.At(which) == 0 then Away else Decrement(which, st.count.At(which)))
    case Decrement(which, seen) =>
      if st.count.At(which) == seen && seen > 0 then st.(count := st.count.With(which, seen - 1), pc := Away)
      else st.(pc := LoadCount(which))
    case Decide(rung) =>
      if rung then st.(pc := Away) else if st.sem then st.(sem := false, pc := TakeWake) else st.(pc := Asleep)
    case Asleep => st.(sem := false, pc := TakeWake)
  }

  function Step(env: Env, st: State, e: Event): State
    requires Enabled(env, st, e)
  {
    match e
    case Queue(s) =>
      st.(mail := st.mail.With(s, st.mail.At(s) + 1), uncounted := st.uncounted.With(s, st.uncounted.At(s) + 1))
    case Count(s) => Counted(st.(uncounted := st.uncounted.With(s, st.uncounted.At(s) - 1)), s)
    case Spurious(s) => Counted(st, s)
    case SetWake => st.(wake := true, owed := st.owed + 1)
    case RingBell => st.(bell := true, owed := st.owed + 1)
    case Give => st.(sem := true, owed := st.owed - 1)
    case Receive => st.(pc := TakeWake)
    case TryReceive => st.(pc := LoadWellKnown(Trying))
    case Next => Read(st)
    case Fail => st.(pc := Away)
    case TimeOut => st.(pc := Away)
  }

  function Advance(env: Env, st: State, e: Event): State {
    if Enabled(env, st, e) then Step(env, st, e) else st
  }

  function RunFrom(env: Env, st: State, log: seq<Event>): State
    decreases |log|
  {
    if log == [] then st else RunFrom(env, Advance(env, st, log[0]), log[1..])
  }

  function After(env: Env, log: seq<Event>): State {
    RunFrom(env, Initial, log)
  }

  // ---- Invariants

  /** A give is on its way, or has been made and not been taken. */
  predicate Token(st: State) {
    st.sem || st.owed > 0
  }

  /** The reader has taken a datagram off s and not uncounted it yet. */
  function Taken(pc: Pc, s: Sock): nat {
    if (pc.LoadCount? || pc.Decrement?) && pc.which == s then 1 else 0
  }

  /** Every datagram in the mailbox is counted, or about to be; without spurious events no count is too high either. */
  predicate Mailed(env: Env, st: State, s: Sock) {
    && st.mail.At(s) + Taken(st.pc, s) <= st.count.At(s) + st.uncounted.At(s)
    && (!env.spurious ==> st.mail.At(s) + Taken(st.pc, s) == st.count.At(s) + st.uncounted.At(s))
  }

  /** In a tt_receive() past its look at wake_pending. */
  predicate PastWake(pc: Pc) {
    match pc
    case Away => false
    case TakeWake => false
    case LoadWellKnown(caller) => caller.Waiting?
    case LoadData(caller, _) => caller.Waiting?
    case Recv(caller, _, _) => caller.Waiting?
    case Clear(caller, _, _) => caller.Waiting?
    case LoadCount(_) => false
    case Decrement(_, _) => false
    case _ => true
  }

  predicate PastBell(pc: Pc) {
    PastWake(pc) && pc != TakeBell
  }

  /** A count that grew since the reader loaded it came with a give. */
  predicate Fresh(st: State, s: Sock, seen: nat) {
    st.count.At(s) >= seen && (st.count.At(s) > seen ==> Token(st))
  }

  predicate Waits(caller: Caller) {
    caller.Waiting?
  }

  ghost predicate PcInv(env: Env, st: State) {
    match st.pc
    case LookData(_, seen) => Fresh(st, WellKnown, seen)
    case LoadWellKnown(caller) => Waits(caller) ==> st.count.wellKnown > 0 || st.count.data > 0
    case LoadData(caller, seen) =>
      && st.count.wellKnown >= seen
      && (Waits(caller) ==> Fresh(st, WellKnown, seen) && (seen > 0 || st.count.data > 0))
    case Recv(caller, which, seen) =>
      && seen > 0 && st.count.At(which) >= seen && (Waits(caller) ==> Fresh(st, which, seen))
    case Clear(caller, which, seen) =>
      && env.spurious && seen > 0
      && st.mail.At(which) + seen <= st.count.At(which) + st.uncounted.At(which)
      && st.count.At(which) >= seen && (Waits(caller) ==> Fresh(st, which, seen))
    case LoadCount(which) => st.count.At(which) > 0
    case Decrement(which, seen) => 0 < seen <= st.count.At(which)
    case Decide(_) => st.blind || (Fresh(st, WellKnown, 0) && Fresh(st, Data, 0))
    case Asleep => st.blind || (Fresh(st, WellKnown, 0) && Fresh(st, Data, 0))
    case _ => true
  }

  ghost predicate Inv(env: Env, st: State) {
    && Mailed(env, st, WellKnown) && Mailed(env, st, Data)
    && (PastWake(st.pc) && st.wake ==> Token(st))
    && (PastBell(st.pc) && st.bell ==> Token(st))
    && PcInv(env, st)
    && (st.blind ==> env.spurious)
  }

  lemma OthersKeep(env: Env, st: State, e: Event)
    requires Inv(env, st) && Enabled(env, st, e) && (e.Queue? || e.Count? || e.Spurious?)
    ensures Inv(env, Step(env, st, e))
  {
  }

  lemma SettersKeep(env: Env, st: State, e: Event)
    requires Inv(env, st) && Enabled(env, st, e) && !e.Queue? && !e.Count? && !e.Spurious? && e != Next
    ensures Inv(env, Step(env, st, e))
  {
  }

  // One lemma for each kind of reader step, the next state spelled out.

  lemma FlagsKeep(env: Env, st: State)
    requires Inv(env, st) && (st.pc == TakeWake || st.pc == TakeBell || st.pc.LookWellKnown? || st.pc.LoadWellKnown?)
    ensures Inv(env, Read(st))
  {
  }

  lemma LookKeeps(env: Env, st: State)
    requires Inv(env, st) && st.pc.LookData?
    ensures Inv(env, Read(st))
  {
    var LookData(rung, seen) := st.pc;
    var next := st.(pc := if seen != 0 || st.count.data != 0 then LoadWellKnown(Waiting(rung)) else Decide(rung));
    assert Read(st) == next;
  }

  lemma SleepKeeps(env: Env, st: State)
    requires Inv(env, st) && Enabled(env, st, Next) && (st.pc.Decide? || st.pc == Asleep)
    ensures Inv(env, Read(st))
  {
    if st.pc == Asleep || (!st.pc.rung && st.sem) {
      assert Read(st) == st.(sem := false, pc := TakeWake);
    } else if st.pc.rung {
      assert Read(st) == st.(pc := Away);
    } else {
      assert Read(st) == st.(pc := Asleep);
    }
  }

  lemma LoadKeeps(env: Env, st: State)
    requires Inv(env, st) && st.pc.LoadData?
    ensures Inv(env, Read(st))
  {
    var LoadData(caller, seen) := st.pc;
    var data := st.count.data;
    if seen == 0 && data == 0 {
      assert Read(st) == st.(pc := Away);
    } else {
      var which := Chosen(st, seen, data);
      var prefer := if seen != 0 && data != 0 then !st.preferData else st.preferData;
      Chooses(env, st, which, prefer, if which == Data then data else seen);
      assert Read(st) == st.(preferData := prefer, pc := Recv(caller, which, if which == Data then data else seen));
    }
  }

  lemma Chooses(env: Env, st: State, which: Sock, prefer: bool, loaded: nat)
    requires Inv(env, st) && st.pc.LoadData? && loaded > 0
    requires loaded == if which == Data then st.count.data else st.pc.seen
    ensures Inv(env, st.(preferData := prefer, pc := Recv(st.pc.caller, which, loaded)))
  {
  }

  lemma RecvKeeps(env: Env, st: State)
    requires Inv(env, st) && st.pc.Recv?
    ensures Inv(env, Read(st))
  {
    var Recv(caller, which, seen) := st.pc;
    if st.mail.At(which) == 0 {
      FindsNone(env, st);
      assert Read(st) == st.(pc := Clear(caller, which, seen));
    } else {
      TakesOne(env, st);
      assert Read(st) == st.(mail := st.mail.With(which, st.mail.At(which) - 1), pc := LoadCount(which));
    }
  }

  lemma FindsNone(env: Env, st: State)
    requires Inv(env, st) && st.pc.Recv? && st.mail.At(st.pc.which) == 0
    ensures Inv(env, st.(pc := Clear(st.pc.caller, st.pc.which, st.pc.seen)))
  {
  }

  lemma TakesOne(env: Env, st: State)
    requires Inv(env, st) && st.pc.Recv? && st.mail.At(st.pc.which) > 0
    ensures Inv(env, st.(mail := st.mail.With(st.pc.which, st.mail.At(st.pc.which) - 1), pc := LoadCount(st.pc.which)))
  {
  }

  lemma ClearKeeps(env: Env, st: State)
    requires Inv(env, st) && st.pc.Clear?
    ensures Inv(env, Read(st))
  {
    var Clear(caller, which, seen) := st.pc;
    var count := if st.count.At(which) == seen then st.count.With(which, 0) else st.count;
    if caller.Waiting? {
      var blind := st.blind || st.count.At(Other(which)) != 0;
      ClearedWaiting(env, st, count, blind);
      assert Read(st) == st.(count := count, blind := blind, pc := Decide(caller.rung));
    } else {
      ClearedTrying(env, st, count);
      assert Read(st) == st.(count := count, pc := Away);
    }
  }

  lemma ClearedWaiting(env: Env, st: State, count: Per<nat>, blind: bool)
    requires Inv(env, st) && st.pc.Clear? && st.pc.caller.Waiting?
    requires count == if st.count.At(st.pc.which) == st.pc.seen then st.count.With(st.pc.which, 0) else st.count
    requires blind == (st.blind || st.count.At(Other(st.pc.which)) != 0)
    ensures Inv(env, st.(count := count, blind := blind, pc := Decide(st.pc.caller.rung)))
  {
  }

  lemma ClearedTrying(env: Env, st: State, count: Per<nat>)
    requires Inv(env, st) && st.pc.Clear?
    requires count == if st.count.At(st.pc.which) == st.pc.seen then st.count.With(st.pc.which, 0) else st.count
    ensures Inv(env, st.(count := count, pc := Away))
  {
  }

  lemma CountKeeps(env: Env, st: State)
    requires Inv(env, st) && (st.pc.LoadCount? || st.pc.Decrement?)
    ensures Inv(env, Read(st))
  {
    var which := st.pc.which;
    if st.pc.LoadCount? {
      CountMoves(env, st, Decrement(which, st.count.At(which)));
      assert Read(st) == st.(pc := Decrement(which, st.count.At(which)));
    } else if st.count.At(which) == st.pc.seen {
      Decremented(env, st);
      assert Read(st) == st.(count := st.count.With(which, st.pc.seen - 1), pc := Away);
    } else {
      CountMoves(env, st, LoadCount(which));
      assert Read(st) == st.(pc := LoadCount(which));
    }
  }

  lemma CountMoves(env: Env, st: State, pc: Pc)
    requires Inv(env, st) && (st.pc.LoadCount? || st.pc.Decrement?)
    requires pc == LoadCount(st.pc.which) || pc == Decrement(st.pc.which, st.count.At(st.pc.which))
    ensures Inv(env, st.(pc := pc))
  {
  }

  lemma Decremented(env: Env, st: State)
    requires Inv(env, st) && st.pc.Decrement? && st.count.At(st.pc.which) == st.pc.seen
    ensures Inv(env, st.(count := st.count.With(st.pc.which, st.pc.seen - 1), pc := Away))
  {
  }

  lemma StepKeeps(env: Env, st: State, e: Event)
    requires Inv(env, st) && Enabled(env, st, e)
    ensures Inv(env, Step(env, st, e))
  {
    if e == Next {
      match st.pc
      case LookData(_, _) => LookKeeps(env, st);
      case LoadData(_, _) => LoadKeeps(env, st);
      case Recv(_, _, _) => RecvKeeps(env, st);
      case Clear(_, _, _) => ClearKeeps(env, st);
      case LoadCount(_) => CountKeeps(env, st);
      case Decrement(_, _) => CountKeeps(env, st);
      case Decide(_) => SleepKeeps(env, st);
      case Asleep => SleepKeeps(env, st);
      case _ => FlagsKeep(env, st);
    } else if e.Queue? || e.Count? || e.Spurious? {
      OthersKeep(env, st, e);
    } else {
      SettersKeep(env, st, e);
    }
  }

  lemma {:induction false} RunKeeps(env: Env, st: State, log: seq<Event>)
    requires Inv(env, st)
    ensures Inv(env, RunFrom(env, st, log))
    decreases |log|
  {
    if log != [] {
      if Enabled(env, st, log[0]) {
        StepKeeps(env, st, log[0]);
      }
      RunKeeps(env, Advance(env, st, log[0]), log[1..]);
    }
  }

  // ---- What every run guarantees

  /** The reader sleeps, nothing has been given, and nobody is about to give. */
  predicate Stuck(st: State) {
    st.pc == Asleep && !Token(st)
  }

  /** A wake or a rung bell never finds the reader asleep for good, whatever lwIP does. */
  lemma NoLostWake(env: Env, log: seq<Event>)
    ensures Stuck(After(env, log)) ==> !After(env, log).wake && !After(env, log).bell
  {
    RunKeeps(env, Initial, log);
  }

  /** Nor does a counted arrival, unless some read gave up on one netconn with the other still counted. */
  lemma NoLostArrival(env: Env, log: seq<Event>)
    ensures var st := After(env, log);
            Stuck(st) && !st.blind ==> st.count == Per(0, 0)
  {
    RunKeeps(env, Initial, log);
  }

  /** tt_rx_maybe_ready()'s promise: whatever waits in a mailbox is counted, or its RCVPLUS has not run yet. */
  lemma HintIsSound(env: Env, log: seq<Event>, s: Sock)
    ensures var st := After(env, log);
            st.mail.At(s) <= st.count.At(s) + st.uncounted.At(s)
  {
    RunKeeps(env, Initial, log);
  }

  // ---- The run that loses an arrival

  lemma {:induction false} RunOneMore(env: Env, st: State, log: seq<Event>, e: Event)
    ensures RunFrom(env, st, log + [e]) == Advance(env, RunFrom(env, st, log), e)
    decreases |log|
  {
    if log == [] {
      assert log + [e] == [e];
      assert RunFrom(env, Advance(env, st, e), [e][1..]) == Advance(env, st, e);
    } else {
      assert (log + [e])[1..] == log[1..] + [e];
      RunOneMore(env, Advance(env, st, log[0]), log[1..], e);
    }
  }

  /** A run and where it ends, one step on. */
  lemma Then(env: Env, log: seq<Event>, e: Event) returns (more: seq<Event>, st: State)
    ensures more == log + [e] && st == After(env, more) == Advance(env, After(env, log), e)
  {
    RunOneMore(env, Initial, log, e);
    more, st := log + [e], After(env, log + [e]);
  }

  /** The reader goes to sleep with nothing to do. */
  lemma GoesToSleep(env: Env) returns (log: seq<Event>)
    ensures After(env, log) == Initial.(pc := Asleep)
  {
    var st;
    log, st := Then(env, [], Receive);
    assert st == Initial.(pc := TakeWake);
    log, st := Then(env, log, Next);
    assert st == Initial.(pc := TakeBell);
    log, st := Then(env, log, Next);
    assert st == Initial.(pc := LookWellKnown(false));
    log, st := Then(env, log, Next);
    assert st == Initial.(pc := LookData(false, 0));
    log, st := Then(env, log, Next);
    assert st == Initial.(pc := Decide(false));
    log, st := Then(env, log, Next);
  }

  /** A spurious event on the well-known netconn and a datagram on the other; the two gives merge and wake the reader. */
  lemma WokenByBoth(env: Env, asleep: seq<Event>) returns (log: seq<Event>)
    requires env.spurious && After(env, asleep) == Initial.(pc := Asleep)
    ensures After(env, log) == Initial.(pc := TakeWake, mail := Per(0, 1), count := Per(1, 1))
  {
    var st;
    log, st := Then(env, asleep, Spurious(WellKnown));
    assert st == Initial.(pc := Asleep, count := Per(1, 0), owed := 1);
    log, st := Then(env, log, Queue(Data));
    log, st := Then(env, log, Count(Data));
    assert st == Initial.(pc := Asleep, mail := Per(0, 1), count := Per(1, 1), owed := 2);
    log, st := Then(env, log, Give);
    log, st := Then(env, log, Give);
    assert st == Initial.(pc := Asleep, mail := Per(0, 1), count := Per(1, 1), sem := true);
    log, st := Then(env, log, Next);
  }

  /** It reads the netconn that was counted for nothing, finds it empty, and sleeps with the other one counted. */
  lemma SleepsOverOne(env: Env, woken: seq<Event>) returns (log: seq<Event>)
    requires env.spurious && After(env, woken) == Initial.(pc := TakeWake, mail := Per(0, 1), count := Per(1, 1))
    ensures Stuck(After(env, log)) && After(env, log).count == After(env, log).mail == Per(0, 1)
  {
    var st;
    log, st := Then(env, woken, Next);
    log, st := Then(env, log, Next);
    log, st := Then(env, log, Next);
    log, st := Then(env, log, Next);
    log, st := Then(env, log, Next);
    log, st := Then(env, log, Next);
    assert st.pc == Recv(Waiting(false), WellKnown, 1);
    log, st := Then(env, log, Next);
    log, st := Then(env, log, Next);
    log, st := Then(env, log, Next);
  }

  /** No arrival is ever lost exactly when RCVPLUS always follows a queued datagram. */
  lemma ArrivalsExact(env: Env)
    ensures (forall log :: Stuck(After(env, log)) ==> After(env, log).count == Per(0, 0)) <==> !env.spurious
  {
    if env.spurious {
      var log := GoesToSleep(env);
      log := WokenByBoth(env, log);
      log := SleepsOverOne(env, log);
    } else {
      forall log
        ensures Stuck(After(env, log)) ==> After(env, log).count == Per(0, 0)
      {
        RunKeeps(env, Initial, log);
      }
    }
  }
}
