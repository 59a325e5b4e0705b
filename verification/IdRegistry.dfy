/**
 Context ids of their own for several contexts on one host: a registry file with one pid per id, locked for each claim
 and release. An id whose recorded pid is not a living process is free. Any interleaving of processes being born,
 claiming, releasing and dying is a run; ids stay unique in every run exactly when all processes share a pid namespace
 and the registry can always be used.
 */
module IdRegistry {

  const MAX_IDS: nat := 256
  const BROADCAST: nat := 255

  /** A process, by its pid and the namespace that pid means something in. */
  datatype Proc = Proc(ns: nat, pid: nat)

  datatype Ctx = Ctx(proc: Proc, index: nat)

  // ---- Picking an id

  /** An id a context may take: neither held nor to be avoided. */
  predicate Allowed(held: seq<bool>, avoid: set<nat>, id: nat)
    requires |held| == MAX_IDS
  {
    0 < id < BROADCAST && !held[id] && id !in avoid
  }

  /** How many ids from `id` up may be taken. */
  function AllowedFrom(held: seq<bool>, avoid: set<nat>, id: nat): nat
    requires |held| == MAX_IDS
    decreases BROADCAST - id
  {
    if id >= BROADCAST then 0
    else AllowedFrom(held, avoid, id + 1) + if Allowed(held, avoid, id) then 1 else 0
  }

  lemma {:induction false} SomeAllowed(held: seq<bool>, avoid: set<nat>, low: nat, id: nat)
    requires |held| == MAX_IDS && low <= id && Allowed(held, avoid, id)
    ensures AllowedFrom(held, avoid, low) > AllowedFrom(held, avoid, id + 1)
    decreases id - low
  {
    if low < id {
      SomeAllowed(held, avoid, low + 1, id);
    }
  }

  /**
   What pick_context_id() answers: the preferred id if it may be taken; otherwise, counting down from 254, the one after
   salt mod (the number there are) others; 0 exactly when there is none.
   */
  ghost predicate Picks(held: seq<bool>, avoid: set<nat>, preferred: nat, salt: nat, id: nat)
    requires |held| == MAX_IDS
  {
    && (id == 0 <==> forall i :: 0 < i < BROADCAST ==> !Allowed(held, avoid, i))
    && (id != 0 ==> Allowed(held, avoid, id))
    && (Allowed(held, avoid, preferred) ==> id == preferred)
    && (!Allowed(held, avoid, preferred) && id != 0 ==>
          && AllowedFrom(held, avoid, 1) > 0
          && AllowedFrom(held, avoid, id + 1) == if salt != 0 then salt % AllowedFrom(held, avoid, 1) else 0)
  }

  method PickContextId(held: seq<bool>, avoid: set<nat>, preferred: nat, salt: nat) returns (id: nat)
    requires |held| == MAX_IDS
    ensures Picks(held, avoid, preferred, salt, id)
  {
    if 0 < preferred < BROADCAST && !held[preferred] && preferred !in avoid {
      assert Allowed(held, avoid, preferred);
      return preferred;
    }
    var count := 0;
    var i := BROADCAST;
    while i > 1
      invariant 1 <= i <= BROADCAST && count == AllowedFrom(held, avoid, i)
    {
      i := i - 1;
      count := count + if !held[i] && i !in avoid then 1 else 0;
    }
    if count == 0 {
      forall k | 0 < k < BROADCAST
        ensures !Allowed(held, avoid, k)
      {
        if Allowed(held, avoid, k) {
          SomeAllowed(held, avoid, 1, k);
        }
      }
      return 0;
    }
    var skip := if salt != 0 then salt % count else 0;
    ghost var start := skip;
    i := BROADCAST;
    while i > 1
      invariant 1 <= i <= BROADCAST && skip == start - AllowedFrom(held, avoid, i) >= 0
    {
      i := i - 1;
      if !held[i] && i !in avoid {
        if skip == 0 {
          assert Allowed(held, avoid, i);
          return i;
        }
        skip := skip - 1;
      }
    }
    assert false;
  }

  // ---- Runs

  /** The registry's records, the living processes, and the id each context goes by. */
  datatype State = State(pids: seq<nat>, alive: set<Proc>, holds: map<Ctx, nat>)

  /** `oneNs`: every process is of one pid namespace. `usable`: the registry can always be opened, locked and written. */
  datatype Env = Env(oneNs: bool, usable: bool)

  /** `locked`: the registry could be used; `relocked`: it could again, to give the old id back. */
  datatype Event =
    | Spawn(p: Proc)
    | Die(p: Proc)
    | Claim(c: Ctx, preferred: nat, avoid: set<nat>, salt: nat, locked: bool, relocked: bool, id: nat)
    | Release(c: Ctx, locked: bool)

  function Zeros(n: nat): (zeros: seq<nat>)
    ensures |zeros| == n && forall i :: 0 <= i < n ==> zeros[i] == 0
  {
    if n == 0 then [] else Zeros(n - 1) + [0]
  }

  const Empty := State(Zeros(MAX_IDS), {}, map[])

  /** kill(pid, 0) from a process of namespace ns: whether some process lives there under that pid. */
  predicate Sees(alive: set<Proc>, ns: nat, pid: nat) {
    pid > 0 && Proc(ns, pid) in alive
  }

  /** Which ids a process of namespace ns takes for held; all look free in a registry it cannot use. */
  function HeldFor(st: State, ns: nat, locked: bool): (held: seq<bool>)
    ensures |held| == |st.pids|
    ensures forall i :: 0 <= i < |held| ==> held[i] == (locked && Sees(st.alive, ns, st.pids[i]))
  {
    seq(|st.pids|, i requires 0 <= i < |st.pids| => locked && Sees(st.alive, ns, st.pids[i]))
  }

  ghost predicate MayClaim(env: Env, st: State, e: Event)
    requires e.Claim?
  {
    && e.c.proc in st.alive && |st.pids| == MAX_IDS && (env.usable ==> e.locked && e.relocked)
    && Picks(HeldFor(st, e.c.proc.ns, e.locked), e.avoid, e.preferred, e.salt, e.id)
  }

  ghost predicate Enabled(env: Env, st: State, e: Event) {
    match e
    case Spawn(p) => p.pid > 0 && p !in st.alive && (env.oneNs ==> p.ns == 0)
    case Die(_) => true
    case Claim(_, _, _, _, _, _, _) => MayClaim(env, st, e)
    case Release(c, locked) => c.proc in st.alive && c in st.holds && (env.usable ==> locked)
  }

  /** tt_id_registry_release(): only a record of this process's goes. */
  function Freed(pids: seq<nat>, id: nat, pid: nat): seq<nat> {
    if id < |pids| && pids[id] == pid then pids[id := 0] else pids
  }

  function Claimed(st: State, c: Ctx, locked: bool, relocked: bool, id: nat): State {
    if id == 0 || id >= |st.pids| then st else
    var written := if locked then st.pids[id := c.proc.pid] else st.pids;
    var pids := if c in st.holds && st.holds[c] != id && relocked then Freed(written, st.holds[c], c.proc.pid) else written;
    st.(pids := pids, holds := st.holds[c := id])
  }

  function Released(st: State, c: Ctx, locked: bool): State {
    if c !in st.holds then st
    else State(if locked then Freed(st.pids, st.holds[c], c.proc.pid) else st.pids, st.alive, st.holds - {c})
  }

  function Buried(st: State, p: Proc): State {
    State(st.pids, st.alive - {p}, map c | c in st.holds && c.proc != p :: st.holds[c])
  }

  function Step(st: State, e: Event): State {
    match e
    case Spawn(p) => st.(alive := st.alive + {p})
    case Die(p) => Buried(st, p)
    case Claim(c, _, _, _, locked, relocked, id) => Claimed(st, c, locked, relocked, id)
    case Release(c, locked) => Released(st, c, locked)
  }

  /** A step that is not enabled is not taken. */
  ghost function Advance(env: Env, st: State, e: Event): State {
    if Enabled(env, st, e) then Step(st, e) else st
  }

  /** The state after a run. */
  ghost function After(env: Env, log: seq<Event>): State {
    if log == [] then Empty else Advance(env, After(env, log[..|log| - 1]), log[|log| - 1])
  }

  /** No two live contexts go by the same id. */
  ghost predicate Unique(st: State) {
    forall c, d :: c in st.holds && d in st.holds && st.holds[c] == st.holds[d] ==> c == d
  }

  /** Only the living hold an id, and it is one of the registry's. */
  ghost predicate Placed(st: State) {
    && |st.pids| == MAX_IDS
    && (forall c :: c in st.holds ==> c.proc in st.alive && 0 < st.holds[c] < BROADCAST)
    && (forall p :: p in st.alive ==> p.pid > 0)
  }

  /** What one namespace and a usable registry give: each live context's id is recorded as its process's. */
  ghost predicate Recorded(st: State) {
    && (forall c :: c in st.holds ==> st.holds[c] < |st.pids| && st.pids[st.holds[c]] == c.proc.pid)
    && (forall p :: p in st.alive ==> p.ns == 0)
  }

  ghost predicate Inv(env: Env, st: State) {
    Placed(st) && (env.oneNs && env.usable ==> Recorded(st) && Unique(st))
  }

  /** The id a claim takes was no live context's. */
  lemma ClaimFresh(env: Env, st: State, e: Event, d: Ctx)
    requires Placed(st) && Recorded(st) && Enabled(env, st, e) && e.Claim? && e.locked && e.id != 0 && d in st.holds
    ensures st.holds[d] != e.id
  {
    var held := HeldFor(st, e.c.proc.ns, true);
    assert d.proc == Proc(e.c.proc.ns, d.proc.pid);
    assert held[st.holds[d]] && !held[e.id];
  }

  lemma ClaimKeeps(env: Env, st: State, e: Event)
    requires Inv(env, st) && Enabled(env, st, e) && e.Claim?
    ensures Inv(env, Step(st, e))
  {
    var next := Step(st, e);
    if e.id != 0 {
      assert Allowed(HeldFor(st, e.c.proc.ns, e.locked), e.avoid, e.id);
      if env.oneNs && env.usable {
        forall d | d in st.holds
          ensures st.holds[d] != e.id
        {
          ClaimFresh(env, st, e, d);
        }
      }
    }
  }

  lemma ReleaseKeeps(env: Env, st: State, e: Event)
    requires Inv(env, st) && Enabled(env, st, e) && e.Release?
    ensures Inv(env, Step(st, e))
  {
    var next := Step(st, e);
    if env.oneNs && env.usable {
      forall d | d in next.holds
        ensures next.pids[next.holds[d]] == d.proc.pid
      {
        assert d in st.holds && st.holds[d] != st.holds[e.c];
      }
    }
  }

  lemma {:induction false} Reached(env: Env, log: seq<Event>)
    ensures Inv(env, After(env, log))
  {
    if log != [] {
      var before, e := log[..|log| - 1], log[|log| - 1];
      Reached(env, before);
      if Enabled(env, After(env, before), e) {
        if e.Claim? {
          ClaimKeeps(env, After(env, before), e);
        } else if e.Release? {
          ReleaseKeeps(env, After(env, before), e);
        }
      }
    }
  }

  lemma OneMore(env: Env, log: seq<Event>, e: Event)
    requires Enabled(env, After(env, log), e)
    ensures After(env, log + [e]) == Step(After(env, log), e)
  {
    assert (log + [e])[..|log|] == log;
  }

  /** Two processes of one namespace, or of two. */
  function Other(env: Env): Proc {
    Proc(if env.oneNs then 0 else 1, 2)
  }

  const First := Ctx(Proc(0, 1), 0)

  function Second(env: Env): Ctx {
    Ctx(Other(env), 0)
  }

  /** The id preferred by a context that sees it free is the one it gets. */
  lemma Prefers(held: seq<bool>, preferred: nat)
    requires |held| == MAX_IDS && 0 < preferred < BROADCAST && !held[preferred]
    ensures Picks(held, {}, preferred, 0, preferred)
  {
    assert Allowed(held, {}, preferred);
  }

  lemma FirstTakes(env: Env) returns (log: seq<Event>)
    ensures After(env, log) == State(Empty.pids[5 := 1], {First.proc, Other(env)}, map[First := 5])
  {
    var born := [] + [Spawn(First.proc)];
    OneMore(env, [], Spawn(First.proc));
    OneMore(env, born, Spawn(Other(env)));
    var both := born + [Spawn(Other(env))];
    var st := After(env, both);
    assert st == State(Empty.pids, {First.proc, Other(env)}, map[]);
    Prefers(HeldFor(st, 0, true), 5);
    OneMore(env, both, Claim(First, 5, {}, 0, true, true, 5));
    log := both + [Claim(First, 5, {}, 0, true, true, 5)];
  }

  /**
   The second prefers the id the first took: from another namespace the first's pid is nobody's, and in a registry that
   cannot be used every id is free.
   */
  lemma SharedId(env: Env) returns (log: seq<Event>)
    requires !(env.oneNs && env.usable)
    ensures !Unique(After(env, log))
  {
    var before := FirstTakes(env);
    var st := After(env, before);
    var c := Second(env);
    var locked := env.usable;
    Prefers(HeldFor(st, c.proc.ns, locked), 5);
    var claim := Claim(c, 5, {}, 0, locked, locked, 5);
    OneMore(env, before, claim);
    log := before + [claim];
    assert First in After(env, log).holds && c in After(env, log).holds && c != First;
  }

  /** Live contexts go by different ids in every run if and only if they share a namespace and a usable registry. */
  lemma UniqueExact(env: Env)
    ensures (forall log :: Unique(After(env, log))) <==> env.oneNs && env.usable
  {
    if env.oneNs && env.usable {
      forall log
        ensures Unique(After(env, log))
      {
        Reached(env, log);
      }
    } else {
      var log := SharedId(env);
      assert !Unique(After(env, log));
    }
  }

  // ---- The registry

  class Registry {
    const env: Env
    const pids: array<nat>
    var alive: set<Proc>
    var holds: map<Ctx, nat>
    ghost var log: seq<Event>

    ghost function Now(): State
      reads this, pids
    {
      State(pids[..], alive, holds)
    }

    /** The registry is what the run logged so far made of it. */
    ghost predicate Valid()
      reads this, pids
    {
      pids.Length == MAX_IDS && Now() == After(env, log)
    }

    constructor (env: Env)
      ensures Valid() && log == [] && this.env == env && fresh(pids)
    {
      this.env := env;
      pids := new nat[MAX_IDS](_ => 0);
      alive, holds, log := {}, map[], [];
      new;
      assert pids[..] == Empty.pids;
    }

    ghost method Record(e: Event)
      requires pids.Length == MAX_IDS && Enabled(env, After(env, log), e) && Now() == Step(After(env, log), e)
      modifies `log
      ensures Valid() && log == old(log) + [e]
    {
      OneMore(env, log, e);
      log := log + [e];
    }

    method Spawn(p: Proc)
      requires Valid() && p.pid > 0 && p !in alive && (env.oneNs ==> p.ns == 0)
      modifies `alive, `log
      ensures Valid() && log == old(log) + [Event.Spawn(p)]
    {
      alive := alive + {p};
      Record(Event.Spawn(p));
    }

    /** A process dies: its contexts with it, their ids still recorded. */
    method Die(p: Proc)
      requires Valid()
      modifies `alive, `holds, `log
      ensures Valid() && log == old(log) + [Event.Die(p)]
      ensures forall c :: c in holds <==> c in old(holds) && c.proc in alive
    {
      Reached(env, log);
      alive := alive - {p};
      holds := map c | c in holds && c.proc != p :: holds[c];
      Record(Event.Die(p));
    }

    /** Which ids are held, as a process of namespace ns sees it. */
    method Held(ns: nat, locked: bool) returns (held: seq<bool>)
      requires pids.Length == MAX_IDS
      ensures held == HeldFor(Now(), ns, locked)
    {
      held := [];
      for i := 0 to MAX_IDS
        invariant |held| == i && forall j :: 0 <= j < i ==> held[j] == (locked && Sees(alive, ns, pids[j]))
      {
        held := held + [locked && Sees(alive, ns, pids[i])];
      }
    }

    /** tt_id_registry_claim(): what the process sees decides which ids are held. */
    method RegistryClaim(p: Proc, preferred: nat, avoid: set<nat>, salt: nat, locked: bool) returns (id: nat)
      requires pids.Length == MAX_IDS
      modifies pids
      ensures Picks(old(HeldFor(Now(), p.ns, locked)), avoid, preferred, salt, id) && id < MAX_IDS
      ensures pids[..] == if id != 0 && locked then old(pids[..])[id := p.pid] else old(pids[..])
    {
      var held := Held(p.ns, locked);
      id := PickContextId(held, avoid, preferred, salt);
      if id != 0 && locked {
        pids[id] := p.pid;
      }
    }

    /** tt_id_registry_release(). */
    method RegistryRelease(id: nat, pid: nat, locked: bool)
      requires pids.Length == MAX_IDS && id < MAX_IDS
      modifies pids
      ensures pids[..] == if locked then Freed(old(pids[..]), id, pid) else old(pids[..])
    {
      if locked && pids[id] == pid {
        pids[id] := 0;
      }
    }

    /**
     tt_claim_context_id(): a context takes an id, and gives back the one it went by. With one namespace and a usable
     registry it is no live context's.
     */
    method ClaimContext(c: Ctx, preferred: nat, avoid: set<nat>, salt: nat, locked: bool, relocked: bool) returns (id: nat)
      requires Valid() && c.proc in alive && (env.usable ==> locked && relocked)
      modifies pids, `holds, `log
      ensures Valid() && log == old(log) + [Claim(c, preferred, avoid, salt, locked, relocked, id)]
      ensures holds == if id == 0 then old(holds) else old(holds)[c := id]
      ensures id != 0 ==> 0 < id < BROADCAST && id !in avoid && (locked ==> !Sees(alive, c.proc.ns, old(pids[..])[id]))
      ensures env.oneNs && env.usable ==> forall d :: d in holds && d != c && id != 0 ==> holds[d] != id
    {
      Reached(env, log);
      ghost var was := Now();
      id := RegistryClaim(c.proc, preferred, avoid, salt, locked);
      if id != 0 {
        assert Allowed(HeldFor(was, c.proc.ns, locked), avoid, id);
        if c in holds && holds[c] != id {
          RegistryRelease(holds[c], c.proc.pid, relocked);
        }
        holds := holds[c := id];
      }
      Record(Claim(c, preferred, avoid, salt, locked, relocked, id));
      Reached(env, log);
    }

    /** release_claimed_id(): a context without an id gives none back. */
    method ReleaseContext(c: Ctx, locked: bool)
      requires Valid() && c.proc in alive && (env.usable ==> locked)
      modifies pids, `holds, `log
      ensures Valid() && holds == old(holds) - {c}
      ensures env.oneNs && env.usable ==> forall d :: d in holds ==> holds[d] < MAX_IDS && pids[holds[d]] == d.proc.pid
    {
      Reached(env, log);
      if c in holds {
        RegistryRelease(holds[c], c.proc.pid, locked);
        holds := holds - {c};
        Record(Release(c, locked));
      }
      Reached(env, log);
    }
  }
}
