/**
  The single-owner session lock (bus_singleflight.py): its record, the three ways a
  holder counts as alive, and the calls that write, refresh and remove the record.
*/
module SessionLocks {
  import opened Wrappers

  const LEGACY_GRACE_NS := 24 * 3600 * 1_000_000_000
  const CLOCK_SANITY_NS := 24 * 3600 * 1_000_000_000

  datatype Liveness = ByTarget | ByPid | ByTtl

  datatype Source = Owner | Derived

  /** The lock file. A missing pid, target or birth is null. */
  datatype Rec = Rec(instance: string, pid: Option<int>, target: Option<string>, ts: int, liveness: Liveness, src: Source,
                     birth: Option<int>)

  /** What can be observed at the instant of a call: processes, their births, panes, and the real clock. */
  datatype World = World(alive: int -> bool, birth: int -> Option<int>, pane: string -> bool, clock: int)

  /** No process has a number below 1. */
  ghost predicate Real(w: World) { forall p | p <= 0 :: !w.alive(p) }

  /** The lock's settings: how long a record stays fresh, and the pid an instance name ends in. */
  datatype Lock = Lock(ttl: int, pidOf: string -> Option<int>)

  /** The caller's clock decides only if it is within a day of the real one. */
  function Bounded(w: World, now: Option<int>): int {
    if now.Some? && -CLOCK_SANITY_NS <= now.value - w.clock <= CLOCK_SANITY_NS then now.value else w.clock
  }

  predicate Given(target: Option<string>) { target.Some? && target.value != "" }

  predicate Named(owner: Option<int>) { owner.Some? && owner.value != 0 }

  // ------------------------------------------------------------------ liveness

  predicate SameProcess(w: World, r: Rec, now: int) {
    && r.pid.Some? && w.alive(r.pid.value)
    && match r.birth
       case None => now - r.ts < LEGACY_GRACE_NS
       case Some(born) => w.birth(r.pid.value) == None || w.birth(r.pid.value) == Some(born)
  }

  predicate HolderAlive(k: Lock, w: World, r: Rec, now: int) {
    if r.liveness == ByTarget && Given(r.target) then
      w.pane(r.target.value) && (r.src == Owner ==> SameProcess(w, r, now))
    else if r.liveness == ByPid then SameProcess(w, r, now)
    else now - r.ts < k.ttl && (r.pid == None || SameProcess(w, r, now))
  }

  // ------------------------------------------------------------------ the record

  function BirthOf(w: World, pid: Option<int>): Option<int> { if pid.Some? then w.birth(pid.value) else None }

  function Fresh(k: Lock, w: World, instance: string, target: Option<string>, owner: Option<int>, now: int): Rec {
    var pid := if Named(owner) then owner else k.pidOf(instance);
    Rec(instance, pid, target, now, if Given(target) then ByTarget else if Named(owner) then ByPid else ByTtl,
        if Named(owner) then Owner else Derived, BirthOf(w, pid))
  }

  /** The same strategy and pid with a new stamp; a missing birth is filled in. */
  function Refreshed(w: World, r: Rec, now: int): Rec {
    r.(ts := now, birth := if r.birth.Some? then r.birth else BirthOf(w, r.pid))
  }

  // ------------------------------------------------------------------- the calls

  datatype Reply = Acquired | AlreadyOwn | Duplicate | TargetNotLive | OwnerNotLive | Did(yes: bool)

  datatype Call =
    | Acquire(instance: string, target: Option<string>, owner: Option<int>, now: Option<int>)
    | Heartbeat(instance: string, target: Option<string>, owner: Option<int>, now: Option<int>)
    | Release(instance: string)

  /** The gate before anything is written: what the record will rest on must be alive now. */
  function Gate(k: Lock, w: World, instance: string, target: Option<string>, owner: Option<int>): Option<Reply> {
    if Given(target) && !w.pane(target.value) then Some(TargetNotLive)
    else if owner.Some? && !w.alive(owner.value) then Some(OwnerNotLive)
    else if !Given(target) && owner == None && k.pidOf(instance).Some? && !w.alive(k.pidOf(instance).value) then
      Some(OwnerNotLive)
    else None
  }

  function AcquireStep(k: Lock, w: World, file: Option<Rec>, c: Call): (Option<Rec>, Reply)
    requires c.Acquire?
  {
    var now := Bounded(w, c.now);
    match Gate(k, w, c.instance, c.target, c.owner)
    case Some(refusal) => (file, refusal)
    case None =>
      var mine := Fresh(k, w, c.instance, c.target, c.owner, now);
      match file
      case None => (Some(mine), Acquired)
      case Some(cur) =>
        if cur.instance == c.instance then
          (Some(if c.target == None && c.owner == None then Refreshed(w, cur, now) else mine), AlreadyOwn)
        else if HolderAlive(k, w, cur, now) then (file, Duplicate)
        else (Some(mine), Acquired)
  }

  function HeartbeatStep(k: Lock, w: World, file: Option<Rec>, c: Call): (Option<Rec>, Reply)
    requires c.Heartbeat?
  {
    var now := Bounded(w, c.now);
    if file == None || file.value.instance != c.instance then (file, Did(false))
    else if c.target == None && c.owner == None then (Some(Refreshed(w, file.value, now)), Did(true))
    else
      var target := if c.target.Some? then c.target else file.value.target;
      (Some(Fresh(k, w, c.instance, target, c.owner, now)), Did(true))
  }

  function LockStep(k: Lock, w: World, file: Option<Rec>, c: Call): (Option<Rec>, Reply) {
    match c
    case Acquire(_, _, _, _) => AcquireStep(k, w, file, c)
    case Heartbeat(_, _, _, _) => HeartbeatStep(k, w, file, c)
    case Release(instance) =>
      if file.Some? && file.value.instance == instance then (None, Did(true)) else (file, Did(false))
  }

  class SessionLock {
    const k: Lock
    var file: Option<Rec>

    constructor (k: Lock)
      ensures this.k == k && file == None
    {
      this.k := k;
      file := None;
    }

    method TryAcquire(w: World, instance: string, target: Option<string>, owner: Option<int>, callerNow: Option<int>)
      returns (r: Reply)
      modifies this`file
      ensures (file, r) == AcquireStep(k, w, old(file), Acquire(instance, target, owner, callerNow))
    {
      var now := Bounded(w, callerNow);
      if Given(target) && !w.pane(target.value) {
        return TargetNotLive;
      }
      if owner.Some? && !w.alive(owner.value) {
        return OwnerNotLive;
      }
      if !Given(target) && owner == None {
        var derived := k.pidOf(instance);
        if derived.Some? && !w.alive(derived.value) {
          return OwnerNotLive;
        }
      }
      var mine := Fresh(k, w, instance, target, owner, now);
      if file == None {
        file := Some(mine);
        return Acquired;
      }
      var cur := file.value;
      if cur.instance == instance {
        file := Some(if target == None && owner == None then Refreshed(w, cur, now) else mine);
        return AlreadyOwn;
      }
      if HolderAlive(k, w, cur, now) {
        return Duplicate;
      }
      file := Some(mine);
      r := Acquired;
    }

    method Beat(w: World, instance: string, target: Option<string>, owner: Option<int>, callerNow: Option<int>)
      returns (ok: bool)
      modifies this`file
      ensures (file, Did(ok)) == HeartbeatStep(k, w, old(file), Heartbeat(instance, target, owner, callerNow))
    {
      if file == None || file.value.instance != instance {
        return false;
      }
      var now := Bounded(w, callerNow);
      var kept := if target.Some? then target else file.value.target;
      file := Some(if owner == None && target == None then Refreshed(w, file.value, now)
                   else Fresh(k, w, instance, kept, owner, now));
      ok := true;
    }

    method Unlock(w: World, instance: string) returns (ok: bool)
      modifies this`file
      ensures (file, Did(ok)) == LockStep(k, w, old(file), Release(instance))
    {
      ok := file.Some? && file.value.instance == instance;
      if ok {
        file := None;
      }
    }
  }
}
