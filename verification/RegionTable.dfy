/**
 The FreeRTOS HAL's table of named memory regions, which stands in for files with unlink semantics: a name leads to one
 region, a region lives on nameless while anyone uses it, and its memory goes back exactly when it has neither a name
 nor a user. Files (the specification) are maps; the table is a fixed array of entries.
 */
module RegionTable {
  import opened Wrappers

  const USERS_MAX: nat := 0xFFFF

  datatype Why = Absent | BadHeader | Refused | Attached

  // ---- Files with unlink semantics

  /** What each name leads to, and the users and the size of every region there is. */
  datatype Files = Files(names: map<string, nat>, users: map<nat, nat>, bytes: map<nat, nat>)

  predicate Nameless(fs: Files, b: nat) {
    forall n :: n in fs.names ==> fs.names[n] != b
  }

  /** A region with neither a name nor a user is gone. */
  function Reaped(fs: Files, b: nat): Files {
    if b in fs.users && fs.users[b] == 0 && Nameless(fs, b)
    then Files(fs.names, fs.users - {b}, fs.bytes - {b})
    else fs
  }

  function Unlinked(fs: Files, path: string): Files {
    if path !in fs.names then fs else Reaped(fs.(names := fs.names - {path}), fs.names[path])
  }

  function Placed(fs: Files, path: string, b: nat, bytes: nat): Files {
    Files(fs.names[path := b], fs.users[b := 1], fs.bytes[b := bytes])
  }

  function Detached(fs: Files, b: nat): Files {
    if b in fs.users && fs.users[b] > 0 then Reaped(fs.(users := fs.users[b := fs.users[b] - 1]), b) else fs
  }

  /** Whether an attach of `bytes` succeeds, and what it says. */
  function Asked(fs: Files, path: string, bytes: nat): Why
    requires Sound(fs)
  {
    if path !in fs.names then Absent
    else if fs.bytes[fs.names[path]] < bytes then BadHeader
    else if fs.users[fs.names[path]] < USERS_MAX then Attached
    else Refused
  }

  function AttachedTo(fs: Files, path: string): Files
    requires Sound(fs) && path in fs.names
  {
    var b := fs.names[path];
    fs.(users := fs.users[b := fs.users[b] + 1])
  }

  /** Every name leads to a region; every region has a name or a user. */
  ghost predicate Sound(fs: Files) {
    && fs.users.Keys == fs.bytes.Keys
    && (forall n :: n in fs.names ==> fs.names[n] in fs.users)
    && (forall b :: b in fs.users ==> fs.users[b] > 0 || !Nameless(fs, b))
    && (forall m, n :: m in fs.names && n in fs.names && fs.names[m] == fs.names[n] ==> m == n)
  }

  // ---- The table

  datatype Entry = Free | Region(base: nat, bytes: nat, users: nat, named: bool, name: string)

  /** One entry and what the files say of its region. */
  ghost predicate Shows(e: Entry, fs: Files) {
    e.Region? ==>
      && e.base in fs.users && fs.users[e.base] == e.users
      && e.base in fs.bytes && fs.bytes[e.base] == e.bytes
      && (e.named ==> e.name in fs.names && fs.names[e.name] == e.base)
      && (!e.named ==> Nameless(fs, e.base))
  }

  function Taken(entries: seq<Entry>): nat {
    if entries == [] then 0
    else Taken(entries[..|entries| - 1]) + if entries[|entries| - 1].Region? then 1 else 0
  }

  ghost predicate Has(entries: seq<Entry>, b: nat) {
    exists i :: 0 <= i < |entries| && entries[i].Region? && entries[i].base == b
  }

  predicate Apart(e: Entry, f: Entry) {
    e.Region? && f.Region? ==> e.base != f.base
  }

  /** The table's entries are the files' regions, one each. */
  ghost predicate Represents(entries: seq<Entry>, fs: Files) {
    && (forall i {:trigger Shows(entries[i], fs)} :: 0 <= i < |entries| ==> Shows(entries[i], fs))
    && (forall i, j {:trigger Apart(entries[i], entries[j])} :: 0 <= i < j < |entries| ==> Apart(entries[i], entries[j]))
    && (forall b {:trigger Has(entries, b)} :: b in fs.users ==> Has(entries, b))
    && Taken(entries) == |fs.users|
  }

  lemma {:induction false} TakenAt(entries: seq<Entry>, i: nat, e: Entry)
    requires i < |entries|
    ensures Taken(entries[i := e]) + (if entries[i].Region? then 1 else 0) == Taken(entries) + (if e.Region? then 1 else 0)
  {
    var n := |entries| - 1;
    if i < n {
      TakenAt(entries[..n], i, e);
      assert entries[i := e][..n] == entries[..n][i := e];
    } else {
      assert entries[i := e][..n] == entries[..n];
    }
  }

  lemma {:induction false} TakenBound(entries: seq<Entry>)
    ensures Taken(entries) <= |entries|
    ensures Taken(entries) == |entries| <==> forall i :: 0 <= i < |entries| ==> entries[i].Region?
  {
    if entries != [] {
      TakenBound(entries[..|entries| - 1]);
    }
  }

  /** An entry changes, its region the same one: the others still show theirs, and none is lost. */
  lemma Changes(entries: seq<Entry>, fs: Files, i: nat, e: Entry, gs: Files)
    requires Represents(entries, fs) && i < |entries| && entries[i].Region? && e.Region? && e.base == entries[i].base
    requires gs.users.Keys == fs.users.Keys && Shows(e, gs)
    requires forall k :: 0 <= k < |entries| && k != i && Shows(entries[k], fs) ==> Shows(entries[k], gs)
    ensures Represents(entries[i := e], gs)
  {
    var next := entries[i := e];
    TakenAt(entries, i, e);
    assert |gs.users.Keys| == |fs.users.Keys|;
    forall k | 0 <= k < |next|
      ensures Shows(next[k], gs)
    {
      assert Shows(entries[k], fs);
    }
    forall k, l | 0 <= k < l < |next|
      ensures Apart(next[k], next[l])
    {
      assert Apart(entries[k], entries[l]);
    }
    forall b | b in gs.users
      ensures Has(next, b)
    {
      assert Has(entries, b);
      var k :| 0 <= k < |entries| && entries[k].Region? && entries[k].base == b;
      assert next[k].Region? && next[k].base == b;
    }
  }

  /** An entry loses its name. */
  lemma Unnames(entries: seq<Entry>, fs: Files, i: nat)
    requires Represents(entries, fs) && Sound(fs) && i < |entries| && entries[i].Region? && entries[i].named
    ensures Represents(entries[i := entries[i].(named := false)], fs.(names := fs.names - {entries[i].name}))
  {
    var e, gs := entries[i].(named := false), fs.(names := fs.names - {entries[i].name});
    assert Shows(entries[i], fs);
    forall k | 0 <= k < |entries| && k != i && Shows(entries[k], fs)
      ensures Shows(entries[k], gs)
    {
      assert Apart(entries[if k < i then k else i], entries[if k < i then i else k]);
    }
    Changes(entries, fs, i, e, gs);
  }

  /** An entry's region gains or loses a user. */
  lemma Uses(entries: seq<Entry>, fs: Files, i: nat, users: nat)
    requires Represents(entries, fs) && i < |entries| && entries[i].Region?
    ensures Represents(entries[i := entries[i].(users := users)], fs.(users := fs.users[entries[i].base := users]))
  {
    var e, gs := entries[i].(users := users), fs.(users := fs.users[entries[i].base := users]);
    assert Shows(entries[i], fs);
    assert gs.users.Keys == fs.users.Keys;
    forall k | 0 <= k < |entries| && k != i && Shows(entries[k], fs)
      ensures Shows(entries[k], gs)
    {
      assert Apart(entries[if k < i then k else i], entries[if k < i then i else k]);
    }
    Changes(entries, fs, i, e, gs);
  }

  /** An entry whose region is gone is free. */
  lemma Frees(entries: seq<Entry>, fs: Files, i: nat)
    requires Represents(entries, fs) && i < |entries| && entries[i].Region? && !entries[i].named && entries[i].users == 0
    ensures Reaped(fs, entries[i].base) == Files(fs.names, fs.users - {entries[i].base}, fs.bytes - {entries[i].base})
    ensures Represents(entries[i := Free], Reaped(fs, entries[i].base))
  {
    var b := entries[i].base;
    assert Shows(entries[i], fs);
    var next, gs := entries[i := Free], Reaped(fs, b);
    TakenAt(entries, i, Free);
    assert fs.users.Keys == gs.users.Keys + {b};
    assert |fs.users.Keys| == |gs.users.Keys| + 1;
    forall k | 0 <= k < |next|
      ensures Shows(next[k], gs)
    {
      if k != i {
        assert Shows(entries[k], fs);
        assert Apart(entries[if k < i then k else i], entries[if k < i then i else k]);
      }
    }
    forall k, l | 0 <= k < l < |next|
      ensures Apart(next[k], next[l])
    {
      assert Apart(entries[k], entries[l]);
    }
    forall c | c in gs.users
      ensures Has(next, c)
    {
      assert Has(entries, c);
      var k :| 0 <= k < |entries| && entries[k].Region? && entries[k].base == c;
      assert next[k] == entries[k];
    }
  }

  /** A free entry takes a new region under a name nobody has. */
  lemma Places(entries: seq<Entry>, fs: Files, i: nat, path: string, b: nat, bytes: nat)
    requires Represents(entries, fs) && Sound(fs) && i < |entries| && entries[i].Free?
    requires path !in fs.names && b !in fs.users
    ensures Represents(entries[i := Region(b, bytes, 1, true, path)], Placed(fs, path, b, bytes))
  {
    var e, gs := Region(b, bytes, 1, true, path), Placed(fs, path, b, bytes);
    var next := entries[i := e];
    TakenAt(entries, i, e);
    assert gs.users.Keys == fs.users.Keys + {b};
    assert |gs.users.Keys| == |fs.users.Keys| + 1;
    forall k | 0 <= k < |next|
      ensures Shows(next[k], gs)
    {
      if k != i {
        assert Shows(entries[k], fs);
      }
    }
    forall k, l | 0 <= k < l < |next|
      ensures Apart(next[k], next[l])
    {
      assert Apart(entries[k], entries[l]) && Shows(entries[k], fs) && Shows(entries[l], fs);
    }
    forall c | c in gs.users
      ensures Has(next, c)
    {
      if c == b {
        assert next[i].Region? && next[i].base == b;
      } else {
        assert Has(entries, c);
        var k :| 0 <= k < |entries| && entries[k].Region? && entries[k].base == c;
        assert next[k] == entries[k];
      }
    }
  }

  // ---- What the operations keep

  lemma StillNamed(fs: Files, gs: Files, c: nat)
    requires forall n :: n in fs.names && fs.names[n] == c ==> n in gs.names && gs.names[n] == c
    ensures !Nameless(fs, c) ==> !Nameless(gs, c)
  {
    if !Nameless(fs, c) {
      var n :| n in fs.names && fs.names[n] == c;
      assert gs.names[n] == c;
    }
  }

  lemma ReapedSound(fs: Files, b: nat)
    requires fs.users.Keys == fs.bytes.Keys && (forall n :: n in fs.names ==> fs.names[n] in fs.users)
    requires forall c :: c in fs.users && c != b ==> fs.users[c] > 0 || !Nameless(fs, c)
    requires forall m, n :: m in fs.names && n in fs.names && fs.names[m] == fs.names[n] ==> m == n
    ensures Sound(Reaped(fs, b)) && Reaped(fs, b).names == fs.names
    ensures Reaped(fs, b).users.Keys == fs.users.Keys || Reaped(fs, b).users.Keys == fs.users.Keys - {b}
  {
    var gs := Reaped(fs, b);
    forall c | c in gs.users
      ensures gs.users[c] > 0 || !Nameless(gs, c)
    {
      StillNamed(fs, gs, c);
    }
  }

  lemma UnlinkedSound(fs: Files, path: string)
    requires Sound(fs)
    ensures Sound(Unlinked(fs, path)) && Unlinked(fs, path).names == fs.names - {path}
    ensures Unlinked(fs, path).users.Keys <= fs.users.Keys
  {
    if path in fs.names {
      var gs := fs.(names := fs.names - {path});
      forall c | c in gs.users && c != fs.names[path]
        ensures gs.users[c] > 0 || !Nameless(gs, c)
      {
        StillNamed(fs, gs, c);
      }
      ReapedSound(gs, fs.names[path]);
    } else {
      assert fs.names - {path} == fs.names;
    }
  }

  lemma PlacedSound(fs: Files, path: string, b: nat, bytes: nat)
    requires Sound(fs) && path !in fs.names && b !in fs.users
    ensures Sound(Placed(fs, path, b, bytes))
  {
    var gs := Placed(fs, path, b, bytes);
    forall c | c in gs.users
      ensures gs.users[c] > 0 || !Nameless(gs, c)
    {
      StillNamed(fs, gs, c);
    }
  }

  lemma DetachedSound(fs: Files, b: nat)
    requires Sound(fs) && b in fs.users && fs.users[b] > 0
    ensures Sound(Detached(fs, b)) && Detached(fs, b).users.Keys <= fs.users.Keys
  {
    var gs := fs.(users := fs.users[b := fs.users[b] - 1]);
    forall c | c in gs.users && c != b
      ensures gs.users[c] > 0 || !Nameless(gs, c)
    {
      StillNamed(fs, gs, c);
    }
    ReapedSound(gs, b);
  }

  lemma AttachedSound(fs: Files, path: string)
    requires Sound(fs) && path in fs.names
    ensures Sound(AttachedTo(fs, path)) && AttachedTo(fs, path).users.Keys == fs.users.Keys
  {
    var gs := AttachedTo(fs, path);
    forall c | c in gs.users
      ensures gs.users[c] > 0 || !Nameless(gs, c)
    {
      StillNamed(fs, gs, c);
    }
  }

  // ---- The HAL's calls

  const PATH_LENGTH: nat := 64

  /** The entry a name leads to. */
  lemma NameHasEntry(entries: seq<Entry>, fs: Files, path: string) returns (k: nat)
    requires Represents(entries, fs) && Sound(fs) && path in fs.names
    ensures k < |entries| && entries[k].Region? && entries[k].named && entries[k].name == path
  {
    assert Has(entries, fs.names[path]);
    k :| 0 <= k < |entries| && entries[k].Region? && entries[k].base == fs.names[path];
    assert Shows(entries[k], fs);
  }

  class Table {
    const regions: array<Entry>
    /** The allocator's side: blocks handed out and not released. */
    var held: set<nat>
    ghost var fs: Files

    /** The table is the files, and the memory held is exactly their regions'. */
    ghost predicate Valid()
      reads this, regions
    {
      Represents(regions[..], fs) && Sound(fs) && held == fs.users.Keys
    }

    constructor (entries: nat)
      ensures Valid() && fresh(regions) && regions.Length == entries && fs == Files(map[], map[], map[])
    {
      regions := new Entry[entries](_ => Free);
      held, fs := {}, Files(map[], map[], map[]);
      new;
      AllFree(regions[..]);
    }

    /** region_named(). */
    method RegionNamed(path: string) returns (k: Option<nat>)
      requires Represents(regions[..], fs) && Sound(fs)
      ensures k.Some? <==> path in fs.names
      ensures k.Some? ==> k.value < regions.Length && regions[k.value].Region? && regions[k.value].named
                          && regions[k.value].name == path
    {
      for i := 0 to regions.Length
        invariant forall j :: 0 <= j < i ==> !(regions[j].Region? && regions[j].named && regions[j].name == path)
      {
        if regions[i].Region? && regions[i].named && regions[i].name == path {
          assert Shows(regions[..][i], fs);
          return Some(i);
        }
      }
      if path in fs.names {
        ghost var j := NameHasEntry(regions[..], fs, path);
      }
      return None;
    }

    /** A block goes back to the allocator: one it handed out, and once. */
    method Release(b: nat)
      requires b in held
      modifies `held
      ensures held == old(held) - {b}
    {
      held := held - {b};
    }

    /** The memory held is the regions', and `extra`: a block not placed yet. */
    ghost predicate Holds(extra: set<nat>)
      reads this
    {
      held == fs.users.Keys + extra && fs.users.Keys !! extra
    }

    /** region_retire_if_unused(), its memory released. */
    method RetireIfUnused(k: nat, ghost extra: set<nat>)
      requires Represents(regions[..], fs) && k < regions.Length && regions[k].Region? && Holds(extra)
      modifies regions, `held, `fs
      ensures Represents(regions[..], fs) && Holds(extra) && fs == Reaped(old(fs), old(regions[k]).base)
    {
      assert Shows(regions[..][k], fs);
      if regions[k].named || regions[k].users != 0 {
        return;
      }
      var gone := regions[k].base;
      Frees(regions[..], fs, k);
      regions[k] := Free;
      fs := Reaped(fs, gone);
      Release(gone);
      assert regions[..] == old(regions[..])[k := Free];
    }

    /** The region under a name, if there is one, loses it. */
    method Unname(path: string, ghost extra: set<nat>)
      requires Represents(regions[..], fs) && Sound(fs) && Holds(extra)
      modifies regions, `held, `fs
      ensures Represents(regions[..], fs) && Sound(fs) && Holds(extra) && fs == Unlinked(old(fs), path)
    {
      UnlinkedSound(fs, path);
      var k := RegionNamed(path);
      if k.Some? {
        var entry := regions[k.value];
        assert Shows(regions[..][k.value], fs);
        Unnames(regions[..], fs, k.value);
        regions[k.value] := entry.(named := false);
        assert regions[..] == old(regions[..])[k.value := entry.(named := false)];
        fs := fs.(names := fs.names - {path});
        RetireIfUnused(k.value, extra);
      }
    }

    /** tt_segment_unlink(). */
    method Unlink(path: string)
      requires Valid()
      modifies regions, `held, `fs
      ensures Valid() && fs == Unlinked(old(fs), path)
    {
      Unname(path, {});
    }

    /** tt_segment_attach(). */
    method Attach(path: string, bytes: nat) returns (base: Option<nat>, why: Why)
      requires Valid()
      modifies regions, `fs
      ensures Valid() && why == Asked(old(fs), path, bytes)
      ensures if why == Attached then base == Some(old(fs).names[path]) && fs == AttachedTo(old(fs), path)
              else base == None && fs == old(fs)
    {
      var k := RegionNamed(path);
      if k.None? {
        return None, Absent;
      }
      var entry := regions[k.value];
      assert Shows(regions[..][k.value], fs);
      if entry.bytes < bytes {
        return None, BadHeader;
      }
      if entry.users >= USERS_MAX {
        return None, Refused;
      }
      Uses(regions[..], fs, k.value, entry.users + 1);
      AttachedSound(fs, path);
      regions[k.value] := entry.(users := entry.users + 1);
      assert regions[..] == old(regions[..])[k.value := entry.(users := entry.users + 1)];
      fs := AttachedTo(fs, path);
      return Some(entry.base), Attached;
    }

    /** tt_segment_identify(). */
    method Identify(path: string) returns (identity: Option<nat>)
      requires Valid()
      ensures identity == if path in fs.names then Some(fs.names[path]) else None
    {
      var k := RegionNamed(path);
      if k.None? {
        return None;
      }
      assert Shows(regions[..][k.value], fs);
      return Some(regions[k.value].base);
    }

    /** tt_segment_detach(): of an address nobody uses, it does nothing. */
    method Detach(mapping: nat)
      requires Valid()
      modifies regions, `held, `fs
      ensures Valid() && fs == Detached(old(fs), mapping)
    {
      for i := 0 to regions.Length
        invariant Valid() && fs == old(fs)
        invariant forall j :: 0 <= j < i ==> !(regions[j].Region? && regions[j].base == mapping && regions[j].users != 0)
      {
        if regions[i].Region? && regions[i].base == mapping && regions[i].users != 0 {
          DetachAt(i);
          return;
        }
      }
      NobodyUses(regions[..], fs, mapping);
    }

    method DetachAt(i: nat)
      requires Valid() && i < regions.Length && regions[i].Region? && regions[i].users != 0
      modifies regions, `held, `fs
      ensures Valid() && fs == Detached(old(fs), old(regions[i]).base)
    {
      var entry := regions[i];
      LosesUser(regions[..], fs, i);
      regions[i] := entry.(users := entry.users - 1);
      assert regions[..] == old(regions[..])[i := entry.(users := entry.users - 1)];
      fs := fs.(users := fs.users[entry.base := entry.users - 1]);
      RetireIfUnused(i, {});
    }

    /** The first free entry, or none. */
    method FirstFree() returns (k: Option<nat>)
      ensures k.Some? <==> Taken(regions[..]) < regions.Length
      ensures k.Some? ==> k.value < regions.Length && regions[k.value].Free?
    {
      TakenBound(regions[..]);
      for i := 0 to regions.Length
        invariant forall j :: 0 <= j < i ==> regions[..][j].Region?
      {
        if regions[i].Free? {
          assert !regions[..][i].Region?;
          return Some(i);
        }
      }
      return None;
    }

    /** A block handed out takes a free entry and the name, or goes back. */
    method Place(path: string, b: nat, bytes: nat) returns (placed: bool)
      requires Represents(regions[..], fs) && Sound(fs) && path !in fs.names && Holds({b})
      modifies regions, `held, `fs
      ensures Valid()
      ensures placed <==> |old(fs).users| < regions.Length
      ensures fs == if placed then Placed(old(fs), path, b, bytes) else old(fs)
    {
      var k := FirstFree();
      if k.None? {
        Release(b);
        return false;
      }
      Places(regions[..], fs, k.value, path, b, bytes);
      PlacedSound(fs, path, b, bytes);
      regions[k.value] := Region(b, bytes, 1, true, path);
      assert regions[..] == old(regions[..])[k.value := Region(b, bytes, 1, true, path)];
      fs := Placed(fs, path, b, bytes);
      return true;
    }

    /**
     tt_segment_create(): `mem` is what the allocator gave, `aligned` whether it is cache-line aligned. A region left
     under the name is replaced; a block that cannot be placed is released again.
     */
    method Create(path: string, bytes: nat, mem: Option<nat>, aligned: bool) returns (r: Option<nat>)
      requires Valid() && (mem.Some? ==> mem.value !in held)
      modifies regions, `held, `fs
      ensures Valid()
      ensures var gs := Unlinked(old(fs), path);
              if |path| >= PATH_LENGTH || mem.None? || !aligned then r == None && fs == old(fs)
              else if |gs.users| < regions.Length then r == mem && fs == Placed(gs, path, mem.value, bytes)
              else r == None && fs == gs
    {
      if |path| >= PATH_LENGTH || mem.None? {
        return None;
      }
      held := held + {mem.value};
      if !aligned {
        Release(mem.value);
        return None;
      }
      UnlinkedSound(fs, path);
      Unname(path, {mem.value});
      var placed := Place(path, mem.value, bytes);
      return if placed then mem else None;
    }
  }

  lemma {:induction false} AllFree(entries: seq<Entry>)
    requires forall i :: 0 <= i < |entries| ==> entries[i].Free?
    ensures Represents(entries, Files(map[], map[], map[]))
  {
    if entries != [] {
      AllFree(entries[..|entries| - 1]);
    }
  }

  lemma LosesUser(entries: seq<Entry>, fs: Files, i: nat)
    requires Represents(entries, fs) && Sound(fs) && i < |entries| && entries[i].Region? && entries[i].users != 0
    ensures var b, users := entries[i].base, entries[i].users - 1;
            var gs := fs.(users := fs.users[b := users]);
            && Represents(entries[i := entries[i].(users := users)], gs) && gs.users.Keys == fs.users.Keys
            && Detached(fs, b) == Reaped(gs, b) && Sound(Detached(fs, b))
  {
    assert Shows(entries[i], fs);
    DetachedSound(fs, entries[i].base);
    Uses(entries, fs, i, entries[i].users - 1);
  }

  lemma NobodyUses(entries: seq<Entry>, fs: Files, b: nat)
    requires Represents(entries, fs)
    requires forall j :: 0 <= j < |entries| ==> !(entries[j].Region? && entries[j].base == b && entries[j].users != 0)
    ensures Detached(fs, b) == fs
  {
    if b in fs.users {
      assert Has(entries, b);
      var k :| 0 <= k < |entries| && entries[k].Region? && entries[k].base == b;
      assert Shows(entries[k], fs);
    }
  }

  // ---- What every sequence of calls keeps

  /** A call core makes; `mem`, `aligned`: what the allocator gives a creation. */
  datatype Call =
    | Create(path: string, bytes: nat, mem: Option<nat>, aligned: bool)
    | Attach(path: string, bytes: nat)
    | Detach(base: nat)
    | Unlink(path: string)

  /** What a call makes of the files, in a table of `entries`; no allocator hands out a block still held. */
  function Applied(fs: Files, entries: nat, call: Call): Files
    requires Sound(fs)
  {
    match call
    case Create(path, bytes, mem, aligned) =>
      if |path| >= PATH_LENGTH || mem.None? || mem.value in fs.users || !aligned then fs else
      var gs := Unlinked(fs, path);
      if |gs.users| < entries then Placed(gs, path, mem.value, bytes) else gs
    case Attach(path, bytes) => if Asked(fs, path, bytes) == Attached then AttachedTo(fs, path) else fs
    case Detach(b) => Detached(fs, b)
    case Unlink(path) => Unlinked(fs, path)
  }

  lemma AppliedSound(fs: Files, entries: nat, call: Call)
    requires Sound(fs)
    ensures Sound(Applied(fs, entries, call))
  {
    match call
    case Create(path, bytes, mem, aligned) =>
      UnlinkedSound(fs, path);
      if mem.Some? && mem.value !in fs.users {
        PlacedSound(Unlinked(fs, path), path, mem.value, bytes);
      }
    case Attach(path, bytes) =>
      if path in fs.names {
        AttachedSound(fs, path);
      }
    case Detach(b) =>
      if b in fs.users && fs.users[b] > 0 {
        DetachedSound(fs, b);
      }
    case Unlink(path) => UnlinkedSound(fs, path);
  }

  function AppliedAll(fs: Files, entries: nat, calls: seq<Call>): Files
    requires Sound(fs)
    decreases |calls|
  {
    if calls == [] then fs
    else
      AppliedSound(fs, entries, calls[0]);
      AppliedAll(Applied(fs, entries, calls[0]), entries, calls[1..])
  }

  function DetachesOf(calls: seq<Call>, b: nat): nat {
    if calls == [] then 0 else (if calls[0] == Detach(b) then 1 else 0) + DetachesOf(calls[1..], b)
  }

  /** The call is about the name itself: it takes it away or gives it to another region. */
  predicate Renames(call: Call, path: string) {
    (call.Create? || call.Unlink?) && call.path == path
  }

  ghost predicate NoneRenames(calls: seq<Call>, path: string) {
    forall k :: 0 <= k < |calls| ==> !Renames(calls[k], path)
  }

  /** b is a region of `bytes` with at least n users. */
  predicate Used(fs: Files, b: nat, n: nat, bytes: nat) {
    b in fs.users && fs.users[b] >= n && b in fs.bytes && fs.bytes[b] == bytes
  }

  lemma UnlinkKeepsUsed(fs: Files, path: string, b: nat, n: nat, bytes: nat)
    requires Used(fs, b, n, bytes) && n > 0
    ensures Used(Unlinked(fs, path), b, n, bytes)
  {
  }

  lemma DetachKeepsUsed(fs: Files, c: nat, b: nat, n: nat, bytes: nat)
    requires Used(fs, b, n + (if c == b then 1 else 0), bytes) && n > 0
    ensures Used(Detached(fs, c), b, n, bytes)
  {
  }

  lemma UsedPersists(fs: Files, entries: nat, call: Call, b: nat, n: nat, bytes: nat)
    requires Sound(fs) && Used(fs, b, n + (if call == Detach(b) then 1 else 0), bytes) && n > 0
    ensures Used(Applied(fs, entries, call), b, n, bytes)
  {
    match call
    case Create(path, _, _, _) => UnlinkKeepsUsed(fs, path, b, n, bytes);
    case Attach(_, _) =>
    case Detach(c) => DetachKeepsUsed(fs, c, b, n, bytes);
    case Unlink(path) => UnlinkKeepsUsed(fs, path, b, n, bytes);
  }

  /** The name leads to the region b of `bytes`. */
  predicate Leads(fs: Files, path: string, b: nat, bytes: nat) {
    path in fs.names && fs.names[path] == b && Used(fs, b, 0, bytes)
  }

  lemma UnlinkKeepsNamed(fs: Files, other: string, path: string, b: nat, bytes: nat)
    requires Leads(fs, path, b, bytes) && other != path
    ensures Leads(Unlinked(fs, other), path, b, bytes)
  {
    if other in fs.names {
      var gs := fs.(names := fs.names - {other});
      assert path in gs.names && gs.names[path] == b && !Nameless(gs, b);
    }
  }

  lemma DetachKeepsNamed(fs: Files, c: nat, path: string, b: nat, bytes: nat)
    requires Leads(fs, path, b, bytes)
    ensures Leads(Detached(fs, c), path, b, bytes)
  {
    if c in fs.users && fs.users[c] > 0 {
      var gs := fs.(users := fs.users[c := fs.users[c] - 1]);
      assert path in gs.names && gs.names[path] == b && !Nameless(gs, b);
    }
  }

  lemma NamedPersists(fs: Files, entries: nat, call: Call, path: string, b: nat, bytes: nat)
    requires Sound(fs) && Leads(fs, path, b, bytes) && !Renames(call, path)
    ensures Leads(Applied(fs, entries, call), path, b, bytes)
  {
    match call
    case Create(other, _, _, _) => UnlinkKeepsNamed(fs, other, path, b, bytes);
    case Attach(_, _) =>
    case Detach(c) => DetachKeepsNamed(fs, c, path, b, bytes);
    case Unlink(other) => UnlinkKeepsNamed(fs, other, path, b, bytes);
  }

  /** Whatever is created, replaced, attached or unlinked, a region outlives all but its users' own detaches. */
  lemma {:induction false} UsedRegionsPersist(fs: Files, entries: nat, calls: seq<Call>, b: nat, n: nat, bytes: nat)
    requires Sound(fs) && Used(fs, b, n + DetachesOf(calls, b), bytes) && n > 0
    ensures Used(AppliedAll(fs, entries, calls), b, n, bytes)
    decreases |calls|
  {
    if calls != [] {
      AppliedSound(fs, entries, calls[0]);
      UsedPersists(fs, entries, calls[0], b, n + DetachesOf(calls[1..], b), bytes);
      UsedRegionsPersist(Applied(fs, entries, calls[0]), entries, calls[1..], b, n, bytes);
    }
  }

  /** However often it is detached, a region outlives every call that neither unlinks nor recreates its name. */
  lemma {:induction false} NamedRegionsPersist(fs: Files, entries: nat, calls: seq<Call>, path: string, b: nat, bytes: nat)
    requires Sound(fs) && Leads(fs, path, b, bytes) && NoneRenames(calls, path)
    ensures Leads(AppliedAll(fs, entries, calls), path, b, bytes)
    decreases |calls|
  {
    if calls != [] {
      AppliedSound(fs, entries, calls[0]);
      NamedPersists(fs, entries, calls[0], path, b, bytes);
      NamedRegionsPersist(Applied(fs, entries, calls[0]), entries, calls[1..], path, b, bytes);
    }
  }

  lemma {:induction false} OneMore(fs: Files, entries: nat, calls: seq<Call>, call: Call)
    requires Sound(fs)
    ensures var gs := AppliedAll(fs, entries, calls);
            Sound(gs) && AppliedAll(fs, entries, calls + [call]) == Applied(gs, entries, call)
    decreases |calls|
  {
    if calls == [] {
      assert calls + [call] == [call] && [call][1..] == [];
    } else {
      AppliedSound(fs, entries, calls[0]);
      assert (calls + [call])[1..] == calls[1..] + [call];
      OneMore(Applied(fs, entries, calls[0]), entries, calls[1..], call);
    }
  }

  /** One call on the table, as core makes it. */
  method Make(table: Table, call: Call)
    requires table.Valid()
    modifies table, table.regions
    ensures table.Valid() && table.fs == Applied(old(table.fs), table.regions.Length, call)
  {
    match call {
      case Create(path, bytes, mem, aligned) =>
        var given := if mem.Some? && mem.value in table.held then None else mem;
        var _ := table.Create(path, bytes, given, aligned);
      case Attach(path, bytes) => var _, _ := table.Attach(path, bytes);
      case Detach(base) => table.Detach(base);
      case Unlink(path) => table.Unlink(path);
    }
  }

  /** Any sequence of calls: the table holds what the files do, and its memory is exactly their regions'. */
  method MakeAll(table: Table, calls: seq<Call>)
    requires table.Valid()
    modifies table, table.regions
    ensures table.Valid() && table.fs == AppliedAll(old(table.fs), table.regions.Length, calls)
  {
    for i := 0 to |calls|
      invariant table.Valid() && table.fs == AppliedAll(old(table.fs), table.regions.Length, calls[..i])
    {
      OneMore(old(table.fs), table.regions.Length, calls[..i], calls[i]);
      assert calls[..i + 1] == calls[..i] + [calls[i]];
      Make(table, calls[i]);
    }
    assert calls[..|calls|] == calls;
  }
}
