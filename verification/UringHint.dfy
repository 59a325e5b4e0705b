/**
 The readiness hint on Linux: one-shot polls on both receive sockets in a small io_uring. tt_rx_maybe_ready() says no
 only while both are believed armed and nothing has completed; the machine asks when that belief is right.
 */
module UringHint {
  import opened Sequences
  import opened Datagrams

  /** Whether io_uring_enter() always takes all that was queued. */
  datatype Env = Env(whole: bool)

  /** `waiting`: datagrams in each socket; `polls`: polls in flight; `wrong`: a "no" was said with a datagram waiting. */
  datatype State = State(waiting: Per<nat>, polls: Per<nat>, sq: seq<Sock>, cq: seq<Sock>, armed: set<Sock>, wrong: bool)

  /** Check(n): tt_rx_maybe_ready(), the kernel taking n submissions if it makes any (None: the call failed). */
  datatype Event = Arrive(sock: Sock) | Read(sock: Sock) | Check(taken: Taken)

  datatype Taken = Refused | Takes(n: nat)

  const Initial: State := State(Per(0, 0), Per(0, 0), [], [], {}, false)

  function Times(s: Sock, n: nat): seq<Sock> {
    if n == 0 then [] else Times(s, n - 1) + [s]
  }

  /** A datagram completes every poll on its socket. */
  function Arrived(st: State, s: Sock): State {
    st.(waiting := st.waiting.With(s, st.waiting.At(s) + 1), polls := st.polls.With(s, 0),
        cq := st.cq + Times(s, st.polls.At(s)))
  }

  /** A poll on a socket that is already readable completes at once. */
  function Polled(st: State, s: Sock): State {
    if st.waiting.At(s) > 0 then st.(cq := st.cq + [s]) else st.(polls := st.polls.With(s, st.polls.At(s) + 1))
  }

  function Submitted(st: State, n: nat): State
    decreases n
  {
    if n == 0 || st.sq == [] then st else Submitted(Polled(st.(sq := st.sq[1..]), st.sq[0]), n - 1)
  }

  /** uring_harvest(): a completion means its socket is no longer armed. */
  function Harvested(st: State): State {
    st.(cq := [], armed := set s | s in st.armed && s !in st.cq)
  }

  /** The submissions uring_arm() adds, in its order. */
  function Adds(armed: set<Sock>): seq<Sock> {
    (if WellKnown in armed then [] else [WellKnown]) + (if Data in armed then [] else [Data])
  }

  /** uring_arm(): queued; unless the call failed, believed armed. */
  function Arms(st: State, taken: Taken): State {
    var queued := st.(sq := st.sq + Adds(st.armed));
    match taken
    case Refused => queued
    case Takes(n) => Submitted(queued, n).(armed := {WellKnown, Data})
  }

  function Checked(st: State, taken: Taken): State {
    var h := Harvested(st);
    if h.armed == {WellKnown, Data} then h.(wrong := h.wrong || h.waiting != Per(0, 0)) else Arms(h, taken)
  }

  predicate Enabled(env: Env, st: State, e: Event) {
    match e
    case Arrive(_) => true
    case Read(s) => st.waiting.At(s) > 0
    case Check(taken) =>
      var added := |Adds(Harvested(st).armed)|;
      match taken
      case Refused => !env.whole
      case Takes(n) => n <= added && (env.whole ==> n == added)
  }

  function Step(env: Env, st: State, e: Event): State
    requires Enabled(env, st, e)
  {
    match e
    case Arrive(s) => Arrived(st, s)
    case Read(s) => st.(waiting := st.waiting.With(s, st.waiting.At(s) - 1))
    case Check(taken) => Checked(st, taken)
  }

  function RunFrom(env: Env, st: State, log: seq<Event>): State
    decreases |log|
  {
    if log == [] then st else RunFrom(env, if Enabled(env, st, log[0]) then Step(env, st, log[0]) else st, log[1..])
  }

  function After(env: Env, log: seq<Event>): State {
    RunFrom(env, Initial, log)
  }

  /** A poll in flight watches an empty socket. */
  predicate Watched(st: State, s: Sock) {
    st.polls.At(s) > 0 ==> st.waiting.At(s) == 0
  }

  /** An armed bit stands for a poll in flight or a completion not harvested. */
  predicate Backed(st: State, s: Sock) {
    s in st.armed ==> s in st.cq || st.polls.At(s) > 0
  }

  ghost predicate Inv(env: Env, st: State) {
    && Watched(st, WellKnown) && Watched(st, Data)
    && (env.whole ==> st.sq == [] && Backed(st, WellKnown) && Backed(st, Data) && !st.wrong)
  }

  lemma {:induction false} TimesHas(s: Sock, n: nat)
    ensures n > 0 ==> s in Times(s, n)
  {
    if n > 1 {
      TimesHas(s, n - 1);
    }
  }

  lemma {:induction false} SubmittedWatches(st: State, n: nat)
    requires Watched(st, WellKnown) && Watched(st, Data)
    ensures Watched(Submitted(st, n), WellKnown) && Watched(Submitted(st, n), Data)
    decreases n
  {
    if n > 0 && st.sq != [] {
      SubmittedWatches(Polled(st.(sq := st.sq[1..]), st.sq[0]), n - 1);
    }
  }

  /** One submission taken whole. */
  lemma TakesOne(st: State, s: Sock)
    requires st.sq == [s]
    ensures Submitted(st, 1) == Polled(st.(sq := []), s)
  {
    assert st.sq[1..] == [];
  }

  lemma TakesTwo(st: State)
    requires st.sq == [WellKnown, Data]
    ensures Submitted(st, 2) == Polled(Polled(st.(sq := []), WellKnown), Data)
  {
    assert st.sq[1..] == [Data];
    var one := Polled(st.(sq := [Data]), WellKnown);
    TakesOne(one, Data);
    assert Submitted(st, 2) == Submitted(one, 1);
  }

  /** Everything queued was taken: each socket just armed has a poll, or its completion. */
  lemma ArmsWhole(st: State)
    requires st.sq == [] && st.cq == [] && Backed(st, WellKnown) && Backed(st, Data)
    ensures var next := Arms(st, Takes(|Adds(st.armed)|));
            next.sq == [] && Backed(next, WellKnown) && Backed(next, Data) && next.wrong == st.wrong
  {
    var queued := st.(sq := st.sq + Adds(st.armed));
    assert queued.sq == Adds(st.armed);
    if WellKnown !in st.armed && Data !in st.armed {
      TakesTwo(queued);
    } else if WellKnown !in st.armed {
      TakesOne(queued, WellKnown);
    } else if Data !in st.armed {
      TakesOne(queued, Data);
    }
  }

  lemma StepKeeps(env: Env, st: State, e: Event)
    requires Inv(env, st) && Enabled(env, st, e)
    ensures Inv(env, Step(env, st, e))
  {
    match e
    case Arrive(s) => TimesHas(s, st.polls.At(s));
    case Read(_) =>
    case Check(taken) =>
      var h := Harvested(st);
      if h.armed != {WellKnown, Data} && taken.Takes? {
        SubmittedWatches(h.(sq := h.sq + Adds(h.armed)), taken.n);
        if env.whole {
          ArmsWhole(h);
        }
      }
  }

  lemma {:induction false} RunKeeps(env: Env, st: State, log: seq<Event>)
    requires Inv(env, st)
    ensures Inv(env, RunFrom(env, st, log))
    decreases |log|
  {
    if log != [] {
      if Enabled(env, st, log[0]) {
        StepKeeps(env, st, log[0]);
      }
      RunKeeps(env, if Enabled(env, st, log[0]) then Step(env, st, log[0]) else st, log[1..]);
    }
  }

  // ---- When the hint is right

  lemma {:induction false} RunOneMore(env: Env, st: State, log: seq<Event>, e: Event)
    requires Enabled(env, RunFrom(env, st, log), e)
    ensures RunFrom(env, st, log + [e]) == Step(env, RunFrom(env, st, log), e)
    decreases |log|
  {
    if log == [] {
      assert log + [e] == [e] && [e][1..] == [];
    } else {
      Appended(log, e);
      RunOneMore(env, if Enabled(env, st, log[0]) then Step(env, st, log[0]) else st, log[1..], e);
    }
  }

  lemma Then(env: Env, log: seq<Event>, st: State, e: Event) returns (more: seq<Event>, next: State)
    requires After(env, log) == st && Enabled(env, st, e)
    ensures more == log + [e] && next == Step(env, st, e) == After(env, more)
  {
    RunOneMore(env, Initial, log, e);
    more, next := log + [e], Step(env, st, e);
  }

  /** A failed call leaves its submissions queued; a later one takes those in place of its own. */
  lemma StaleSubmissions(env: Env) returns (log: seq<Event>, st: State)
    requires !env.whole
    ensures st == After(env, log) == State(Per(0, 1), Per(1, 0), [WellKnown, Data], [Data], {WellKnown, Data}, false)
  {
    assert After(env, []) == Initial;
    log, st := Then(env, [], Initial, Check(Refused));
    assert st == Initial.(sq := [WellKnown, Data]);
    assert st.sq + Adds({}) == [WellKnown, Data, WellKnown, Data];
    ghost var queued := st.(sq := [WellKnown, Data, WellKnown, Data]);
    assert queued.sq[1..] == [Data, WellKnown, Data] && [Data, WellKnown, Data][1..] == [WellKnown, Data];
    assert Submitted(queued, 2) == Submitted(Polled(queued.(sq := [Data, WellKnown, Data]), WellKnown), 1);
    assert Submitted(queued, 2) == Initial.(sq := [WellKnown, Data], polls := Per(1, 1));
    log, st := Then(env, log, st, Check(Takes(2)));
    assert st == State(Per(0, 0), Per(1, 1), [WellKnown, Data], [], {WellKnown, Data}, false);
    assert Times(Data, 1) == [Data];
    log, st := Then(env, log, st, Arrive(Data));
  }

  lemma ArmedWithoutPoll(env: Env) returns (log: seq<Event>, st: State)
    requires !env.whole
    ensures st == After(env, log) == State(Per(0, 1), Per(2, 0), [Data, Data], [], {WellKnown, Data}, false)
  {
    log, st := StaleSubmissions(env);
    var h := Harvested(st);
    assert h.armed == {WellKnown} && Adds(h.armed) == [Data];
    assert h.sq + [Data] == [WellKnown, Data, Data];
    assert [WellKnown, Data, Data][1..] == [Data, Data];
    assert Submitted(h.(sq := [WellKnown, Data, Data]), 1) == h.(sq := [Data, Data], polls := Per(2, 0));
    log, st := Then(env, log, st, Check(Takes(1)));
  }

  /** "No" is never said with a datagram waiting, exactly when every submission is taken whole. */
  lemma HintExact(env: Env)
    ensures (forall log :: !After(env, log).wrong) <==> env.whole
  {
    if env.whole {
      forall log
        ensures !After(env, log).wrong
      {
        RunKeeps(env, Initial, log);
      }
    } else {
      var log, st := ArmedWithoutPoll(env);
      log, st := Then(env, log, st, Read(Data));
      log, st := Then(env, log, st, Arrive(Data));
      assert Times(Data, 0) == [] && st.cq == [];
      assert Harvested(st).armed == {WellKnown, Data};
      log, st := Then(env, log, st, Check(Takes(0)));
      assert After(env, log).wrong;
    }
  }
}
