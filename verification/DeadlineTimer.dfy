/**
 The deadline timer in the epoll wait set: armed for an absolute time and moved only earlier, so a wait usually costs
 nothing for its deadline. The timer is edge-triggered - the set reports an expiry once - so the HAL's belief that a
 timer is armed must not outlive the report of its expiry. It does after a wait outside a poll that is told of one.
 */
module DeadlineTimer {
  import opened Wrappers

  const LAZY_STREAK: nat := 8

  // ---- The timer and what the HAL believes of it

  /**
   `expiry`, `edge`: the kernel's timer, and an expiry not reported yet. `armed`: the deadline the HAL believes armed
   (0: none). `stale`: an expiry was reported since the timer was last set or taken. `owed`: to a wait that takes it.
   */
  datatype Clock = Clock(now: nat, expiry: Option<nat>, edge: bool, armed: nat, stale: bool, owed: bool)

  /**
   Sleep: a lazy wait goes to sleep with no timeout of its own, for the timer to end it by `until`; `exact`: a long
   wait. Report: a wait is told of an expiry; one in a poll takes it next.
   */
  datatype Event =
    | Pass(d: nat)
    | Set(until: nat, exact: bool)
    | Sleep(until: nat, exact: bool)
    | Report(inPoll: bool)
    | Take

  const Unarmed := Clock(0, None, false, 0, false, false)

  /** Whether a lazy wait sets the timer: none armed, one armed later, or - a long wait - any other one. */
  predicate Rearms(armed: nat, until: nat, exact: bool) {
    armed == 0 || armed > until || (exact && armed != until)
  }

  /** A sleep with no timeout of its own is ended by `until`. */
  predicate Covered(c: Clock, until: nat) {
    c.edge || (c.expiry.Some? && c.expiry.value <= until)
  }

  /** `outside`: tt_receive() may wait outside a poll. */
  predicate Enabled(outside: bool, c: Clock, e: Event) {
    match e
    case Pass(_) => !c.owed
    case Set(until, exact) => !c.owed && until > 0 && Rearms(c.armed, until, exact)
    case Sleep(until, exact) => !c.owed && until > 0 && !Rearms(c.armed, until, exact)
    case Report(inPoll) => !c.owed && c.edge && (inPoll || outside)
    case Take => c.owed
  }

  /** Time passes; a deadline reached becomes an expiry to report. */
  function Passed(c: Clock, d: nat): Clock {
    var now := c.now + d;
    if c.expiry.Some? && now >= c.expiry.value then c.(now := now, expiry := None, edge := true) else c.(now := now)
  }

  /** timerfd_settime(): the new deadline replaces the old one, and an expiry of that one is forgotten. */
  function Rearmed(c: Clock, until: nat): Clock {
    var due := until <= c.now;
    c.(expiry := if due then None else Some(until), edge := due, armed := until, stale := false)
  }

  function Step(c: Clock, e: Event): Clock {
    match e
    case Pass(d) => Passed(c, d)
    case Set(until, _) => Rearmed(c, until)
    case Sleep(_, _) => c
    case Report(inPoll) => c.(edge := false, stale := true, owed := inPoll)
    case Take => c.(armed := 0, stale := false, owed := false)
  }

  /** The clock after a run; a step that is not enabled is not taken. */
  function After(outside: bool, log: seq<Event>): Clock {
    if log == [] then Unarmed else
    var c := After(outside, log[..|log| - 1]);
    if Enabled(outside, c, log[|log| - 1]) then Step(c, log[|log| - 1]) else c
  }

  /** Every step of the log was taken. */
  ghost predicate IsRun(outside: bool, log: seq<Event>) {
    forall k :: 0 <= k < |log| ==> Enabled(outside, After(outside, log[..k]), log[k])
  }

  /** A deadline believed armed is armed, or has expired and will still be reported; and only then. */
  predicate Synced(c: Clock) {
    if c.armed == 0 then c.expiry == None && !c.edge
    else (c.expiry == Some(c.armed) && !c.edge) || (c.expiry == None && c.edge && c.now >= c.armed)
  }

  /** After a report that was not taken, the HAL believes armed a timer that will never be reported. */
  predicate Believes(outside: bool, c: Clock) {
    && (if c.stale then c.armed != 0 && c.expiry == None && !c.edge else Synced(c))
    && (c.owed ==> c.stale) && (c.stale ==> c.owed || outside)
  }

  lemma {:induction false} Reached(outside: bool, log: seq<Event>)
    ensures Believes(outside, After(outside, log))
  {
    if log != [] {
      Reached(outside, log[..|log| - 1]);
    }
  }

  /** An expiry to come is that of the deadline believed armed, once it is reached. */
  lemma FiresDue(outside: bool, log: seq<Event>)
    ensures forall d: nat :: Passed(After(outside, log), d).edge ==>
                               0 < After(outside, log).armed <= After(outside, log).now + d
  {
    Reached(outside, log);
  }

  /** In every run a lazy wait goes to sleep covered if and only if no report went untaken since the timer was set. */
  lemma SleepCoveredExact(outside: bool, log: seq<Event>, until: nat, exact: bool)
    requires Enabled(outside, After(outside, log), Sleep(until, exact))
    ensures Covered(After(outside, log), until) <==> !After(outside, log).stale
  {
    Reached(outside, log);
  }

  ghost predicate NeverUncovered(outside: bool) {
    forall log, until, exact :: Enabled(outside, After(outside, log), Sleep(until, exact)) ==>
                                  Covered(After(outside, log), until)
  }

  lemma OneMore(outside: bool, log: seq<Event>, e: Event)
    requires IsRun(outside, log) && Enabled(outside, After(outside, log), e)
    ensures IsRun(outside, log + [e]) && After(outside, log + [e]) == Step(After(outside, log), e)
  {
    var longer := log + [e];
    assert longer[..|log|] == log;
    forall k | 0 <= k < |longer|
      ensures Enabled(outside, After(outside, longer[..k]), longer[k])
    {
      if k < |log| {
        assert longer[..k] == log[..k];
      }
    }
  }

  /**
   Three waits: a lazy one sets the timer for 10 and ends for data, one outside a poll is told of its expiry, and a lazy
   one with a later deadline leaves the timer as it is. That one sleeps with nothing to end it.
   */
  lemma SleepsUncovered(until: nat) returns (log: seq<Event>)
    requires until >= 10
    ensures IsRun(true, log) && Enabled(true, After(true, log), Sleep(until, false)) && !Covered(After(true, log), until)
  {
    OneMore(true, [], Set(10, false));
    OneMore(true, [] + [Set(10, false)], Sleep(10, false));
    OneMore(true, [] + [Set(10, false)] + [Sleep(10, false)], Pass(10));
    OneMore(true, [] + [Set(10, false)] + [Sleep(10, false)] + [Pass(10)], Report(false));
    log := [] + [Set(10, false)] + [Sleep(10, false)] + [Pass(10)] + [Report(false)];
  }

  /** No lazy wait ever sleeps uncovered if and only if no wait is made outside a poll. */
  lemma CoverExact(outside: bool)
    ensures NeverUncovered(outside) <==> !outside
  {
    if outside {
      var log := SleepsUncovered(20);
      assert Enabled(true, After(true, log), Sleep(20, false));
    } else {
      forall log, until, exact | Enabled(false, After(false, log), Sleep(until, exact))
        ensures Covered(After(false, log), until)
      {
        Reached(false, log);
      }
    }
  }

  // ---- The waits

  datatype Member = WellKnown | Data | Bell | Wake | Writable | Timer

  /** What a wait answers: ready members, a timeout (0), or an error (-1). */
  datatype Answer = Ready(members: set<Member>) | TimedOut | Failed

  predicate Fires(a: Answer) {
    a.Ready? && Timer in a.members
  }

  /** What a wait passes on of what the kernel reported: all but the timer. */
  predicate PassesOn(reported: Answer, a: Answer) {
    match a
    case Ready(members) => members != {} && reported.Ready? && members == reported.members - {Timer}
    case TimedOut => reported.TimedOut? || (reported.Ready? && reported.members == {Timer})
    case Failed => reported.Failed?
  }

  predicate ForData(members: set<Member>) {
    WellKnown in members || Data in members || Bell in members
  }

  /** Where a wait runs: outside a poll, or in one with the poll's deadline. */
  datatype Place = Outside | Poll(until: Option<nat>)

  class Waiter {
    const adapt: bool
    const outside: bool
    /** The kernel's side. */
    var now: nat
    var expiry: Option<nat>
    var edge: bool
    /** The HAL's: the deadline it believes armed (0: none), and the run of waits that ended for data. */
    var armed: nat
    var streak: nat
    /** What the kernel's last wait reported, and every step so far. */
    ghost var reported: Answer
    ghost var log: seq<Event>

    ghost function Clocked(): Clock
      reads this
    {
      After(outside, log)
    }

    /** The fields are those of the run logged so far. */
    ghost predicate Tracks()
      reads this
    {
      var c := Clocked();
      IsRun(outside, log) && now == c.now && expiry == c.expiry && edge == c.edge && armed == c.armed
    }

    /** Between two waits: no report is left to take. */
    ghost predicate Valid()
      reads this
    {
      Tracks() && !Clocked().owed
    }

    constructor (adapt: bool, outside: bool)
      ensures Valid() && !Clocked().stale && this.outside == outside && log == []
    {
      this.adapt, this.outside := adapt, outside;
      now, expiry, edge, armed, streak, reported, log := 0, None, false, 0, 0, Failed, [];
    }

    ghost method Record(e: Event)
      requires IsRun(outside, log) && Enabled(outside, Clocked(), e)
      requires var c := Step(Clocked(), e); now == c.now && expiry == c.expiry && edge == c.edge && armed == c.armed
      modifies `log
      ensures Tracks() && log == old(log) + [e] && Clocked() == Step(old(Clocked()), e)
    {
      OneMore(outside, log, e);
      log := log + [e];
    }

    method PassTime()
      requires Valid()
      modifies `now, `expiry, `edge, `log
      ensures Valid() && old(log) <= log && Clocked().stale == old(Clocked()).stale
      ensures now >= old(now) && Clocked() == Passed(old(Clocked()), now - old(now))
    {
      var havoc: int := *;
      var d := if havoc > 0 then havoc else 0;
      now := now + d;
      if expiry.Some? && now >= expiry.value {
        expiry, edge := None, true;
      }
      Record(Pass(d));
    }

    /** rx_wait(): with no timeout it ends only for a member or an error; an expiry is reported once. */
    method RxWait(timeout: Option<nat>, inPoll: bool) returns (a: Answer)
      requires Valid() && (inPoll || outside)
      modifies `now, `expiry, `edge, `log, `reported
      ensures Tracks() && old(log) <= log && now >= old(now) && reported == a
      ensures a.TimedOut? ==> timeout.Some? && now >= old(now) + timeout.value
      ensures a.Ready? ==> a.members != {}
      ensures var c := Passed(old(Clocked()), now - old(now));
              if Fires(a) then c.edge && Clocked() == Step(c, Report(inPoll)) else Clocked() == c
    {
      var start := now;
      PassTime();
      var members: set<Member>, failed: bool := *, *;
      if failed {
        a := Failed;
      } else if edge {
        edge := false;
        Record(Report(inPoll));
        a := Ready(members + {Timer});
      } else if timeout.Some? && now >= start + timeout.value && members - {Timer} == {} {
        a := TimedOut;
      } else {
        a := Ready(if members - {Timer} == {} then {Wake} else members - {Timer});
      }
      reported := a;
    }

    /** rx_timer_arm(): whatever was believed before, the timer is armed as believed. */
    method RxTimerArm(until: nat, exact: bool)
      requires Valid() && until > 0 && Rearms(armed, until, exact)
      modifies `expiry, `edge, `armed, `log
      ensures Valid() && old(log) <= log && armed == until && Synced(Clocked()) && !Clocked().stale
      ensures Covered(Clocked(), until)
    {
      armed := until;
      expiry, edge := if until <= now then None else Some(until), until <= now;
      Record(Set(until, exact));
    }

    /** rx_timer_take(). */
    method RxTimerTake()
      requires Tracks() && Clocked().owed
      modifies `armed, `streak, `log
      ensures Valid() && old(log) <= log && armed == 0 && streak == 0 && Synced(Clocked()) && !Clocked().stale
    {
      Reached(outside, log);
      armed, streak := 0, 0;
      Record(Take);
    }

    /** rx_wait_lazy() up to its sleep: the timer is set if it must be. */
    method GoToSleep(until: Option<nat>, exact: bool)
      requires Valid() && (until.Some? ==> until.value > 0)
      modifies `expiry, `edge, `armed, `log
      ensures Valid() && old(log) <= log && now == Clocked().now
      ensures armed == Clocked().armed
                    == if until.Some? && Rearms(old(armed), until.value, exact) then until.value else old(armed)
      ensures Clocked().stale ==> old(Clocked()).stale
    {
      if until.Some? && Rearms(armed, until.value, exact) {
        RxTimerArm(until.value, exact);
      }
      if until.Some? {
        Record(Sleep(until.value, exact));
      }
    }

    /** One turn of rx_wait_lazy(). */
    method LazyTurn(until: Option<nat>, exact: bool) returns (a: Answer)
      requires Valid() && (until.Some? ==> until.value > 0)
      modifies `now, `expiry, `edge, `armed, `log, `reported
      ensures Tracks() && old(log) <= log && now >= old(now) && reported == a
      ensures !a.TimedOut? && (a.Ready? ==> a.members != {}) && Clocked().owed == Fires(a)
      ensures Clocked().stale ==> old(Clocked()).stale || Fires(a)
      ensures Fires(a) && old(armed) == 0 ==> until.Some? && now >= until.value
    {
      GoToSleep(until, exact);
      ghost var c := Clocked();
      FiresDue(outside, log);
      a := RxWait(None, true);
      assert Fires(a) ==> 0 < c.armed <= now;
    }

    /**
     rx_wait_lazy(): whatever was believed before, a timeout comes only at or after the deadline, at most two expiries
     are seen and none is left to leak.
     */
    method RxWaitLazy(until: Option<nat>, exact: bool) returns (a: Answer, ghost fires: nat)
      requires Valid() && (until.Some? ==> until.value > 0)
      modifies this
      ensures Valid() && old(log) <= log && now >= old(now) && fires <= 2
      ensures Clocked().stale ==> old(Clocked()).stale
      ensures a.TimedOut? ==> until.Some? && now >= until.value
      ensures PassesOn(reported, a)
    {
      fires := 0;
      while true
        invariant Valid() && old(log) <= log && now >= old(now) && fires <= 1
        invariant Clocked().stale ==> old(Clocked()).stale
        invariant fires == 1 ==> armed == 0
        decreases 2 - fires
      {
        a := LazyTurn(until, exact);
        if !Fires(a) {
          return;
        }
        RxTimerTake();
        fires := fires + 1;
        a := Ready(a.members - {Timer});
        if a.members != {} {
          return;
        }
        if until.Some? && now >= until.value {
          return TimedOut, fires;
        }
      }
    }

    /**
     rx_wait_plain_fired(): a wait with a timeout met an expiry an earlier wait left. It is taken and the wait goes on
     to the same deadline.
     */
    method RxWaitPlainFired(timeout: Option<nat>, until: Option<nat>, members: set<Member>) returns (a: Answer)
      requires Tracks() && Clocked().owed && Timer in members && reported == Ready(members)
      modifies this
      ensures Valid() && old(log) <= log && now >= old(now) && Synced(Clocked()) && !Clocked().stale
      ensures a.TimedOut? ==> if until.Some? then now >= until.value
                              else timeout.Some? && now >= old(now) + timeout.value
      ensures PassesOn(reported, a)
    {
      RxTimerTake();
      a := Ready(members - {Timer});
      if a.members != {} {
        return;
      }
      if until.Some? && now >= until.value {
        return TimedOut;
      }
      Reached(outside, log);
      a := RxWait(if until.Some? then Some(until.value - now) else timeout, true);
    }

    /** rx_wait_lazy_run(). */
    method RxWaitLazyRun(until: Option<nat>, exact: bool) returns (a: Answer)
      requires Valid() && (until.Some? ==> until.value > 0)
      modifies this
      ensures Valid() && old(log) <= log && now >= old(now)
      ensures Clocked().stale ==> old(Clocked()).stale
      ensures a.TimedOut? ==> until.Some? && now >= until.value
      ensures PassesOn(reported, a)
    {
      ghost var fires;
      a, fires := RxWaitLazy(until, exact);
      if a.TimedOut? || (a.Ready? && !ForData(a.members)) {
        streak := 0;
      }
    }

    /**
     rx_wait_epoll(); `settling`: receive offload is settling, which takes a wait with a timeout. In a poll no expiry is
     passed on, none goes stale, and a timeout comes no earlier than the deadline or the timeout given. Outside one the
     belief goes stale exactly when the wait reports an expiry.
     */
    method RxWaitEpoll(place: Place, timeout: Option<nat>, long: bool, settling: bool) returns (a: Answer)
      requires Valid() && (place.Outside? ==> outside) && (place.Poll? && place.until.Some? ==> place.until.value > 0)
      modifies this
      ensures Valid() && old(log) <= log && now >= old(now)
      ensures if place.Poll? then PassesOn(reported, a) && (Clocked().stale ==> old(Clocked()).stale)
              else reported == a && (Clocked().stale <==> old(Clocked()).stale || Fires(a))
      ensures place.Poll? && a.TimedOut? ==>
                || (place.until.Some? && now >= place.until.value)
                || (timeout.Some? && now >= old(now) + timeout.value)
    {
      if place.Poll? && (!adapt || streak >= LAZY_STREAK || long) && !settling {
        a := RxWaitLazyRun(place.until, long);
        return;
      }
      a := RxWait(timeout, place.Poll?);
      if place.Outside? {
        return;
      }
      if Fires(a) {
        a := RxWaitPlainFired(timeout, place.until, a.members);
      } else if a.Ready? && ForData(a.members) {
        streak := if streak < 255 then streak + 1 else streak;
        return;
      }
      if a.TimedOut? || (a.Ready? && !ForData(a.members)) {
        streak := 0;
      }
    }
  }

  datatype Wait = Wait(place: Place, timeout: Option<nat>, long: bool, settling: bool)

  /** No deadline is the epoch, and only a HAL that waits outside a poll is asked to. */
  predicate Sensible(outside: bool, w: Wait) {
    (w.place.Outside? ==> outside) && (w.place.Poll? && w.place.until.Some? ==> w.place.until.value > 0)
  }

  /**
   Any sequence of waits: no wait in a poll reports the timer, and each lazy sleep for a deadline was covered if and only
   if no report had gone untaken.
   */
  method Waits(waiter: Waiter, waits: seq<Wait>) returns (answers: seq<Answer>)
    requires waiter.Valid() && forall k :: 0 <= k < |waits| ==> Sensible(waiter.outside, waits[k])
    modifies waiter
    ensures waiter.Valid() && |answers| == |waits|
    ensures forall k :: 0 <= k < |waits| && waits[k].place.Poll? ==> !Fires(answers[k])
    ensures forall k :: 0 <= k < |waiter.log| && waiter.log[k].Sleep? ==>
                          var c := After(waiter.outside, waiter.log[..k]);
                          Covered(c, waiter.log[k].until) <==> !c.stale
  {
    answers := [];
    for i := 0 to |waits|
      invariant waiter.Valid() && |answers| == i
      invariant forall k :: 0 <= k < i && waits[k].place.Poll? ==> !Fires(answers[k])
    {
      var w := waits[i];
      assert Sensible(waiter.outside, w);
      var a := waiter.RxWaitEpoll(w.place, w.timeout, w.long, w.settling);
      answers := answers + [a];
    }
    forall k | 0 <= k < |waiter.log| && waiter.log[k].Sleep?
      ensures var c := After(waiter.outside, waiter.log[..k]); Covered(c, waiter.log[k].until) <==> !c.stale
    {
      SleepCoveredExact(waiter.outside, waiter.log[..k], waiter.log[k].until, waiter.log[k].exact);
    }
  }
}
