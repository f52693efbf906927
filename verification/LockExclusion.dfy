/** Exclusion over whole runs of serialized calls on the session lock (bus_singleflight.py). */
module LockExclusion {
  import opened Wrappers
  import opened SessionLocks

  /** A call, and the world it meets. */
  datatype Event = Event(w: World, c: Call)

  function FileAfter(k: Lock, events: seq<Event>): Option<Rec> {
    if events == [] then None
    else LockStep(k, events[|events| - 1].w, FileAfter(k, events[..|events| - 1]), events[|events| - 1].c).0
  }

  /** What the n-th call returned. */
  function ReplyAt(k: Lock, events: seq<Event>, n: nat): Reply
    requires n < |events|
  {
    LockStep(k, events[n].w, FileAfter(k, events[..n]), events[n].c).1
  }

  // ------------------------------------------------------- acquired means alive

  /** Whatever the strategy, a record written with `acquired` passes as alive at that instant. */
  lemma AcquiredIsAlive(k: Lock, w: World, file: Option<Rec>, c: Call)
    requires c.Acquire? && Real(w) && k.ttl > 0 && AcquireStep(k, w, file, c).1 == Acquired
    ensures AcquireStep(k, w, file, c).0.Some?
    ensures var r := AcquireStep(k, w, file, c).0.value;
            r.instance == c.instance && HolderAlive(k, w, r, Bounded(w, c.now))
  {
    if c.owner.Some? {
      assert c.owner.value > 0;
    }
  }

  /** A call is granted exactly when its gate is open and the lock is free or held by another who is not alive. */
  lemma AcquiredExactly(k: Lock, w: World, file: Option<Rec>, c: Call)
    requires c.Acquire?
    ensures AcquireStep(k, w, file, c).1 == Acquired
       <==> && Gate(k, w, c.instance, c.target, c.owner) == None
            && (file == None || (file.value.instance != c.instance && !HolderAlive(k, w, file.value, Bounded(w, c.now))))
  {
    hide HolderAlive;
  }

  // --------------------------------------------------------------- over a run

  predicate Granted(k: Lock, events: seq<Event>, n: nat, who: string)
    requires n < |events|
  {
    events[n].c.Acquire? && events[n].c.instance == who && ReplyAt(k, events, n) == Acquired
  }

  predicate Released(k: Lock, events: seq<Event>, n: nat, who: string)
    requires n < |events|
  {
    events[n].c == Release(who) && ReplyAt(k, events, n) == Did(true)
  }

  predicate NoGrant(k: Lock, events: seq<Event>, m: nat, n: nat)
    requires n <= |events|
  {
    forall i | m < i < n :: ReplyAt(k, events, i) != Acquired
  }

  predicate NoRelease(k: Lock, events: seq<Event>, m: nat, n: nat, who: string)
    requires n <= |events|
  {
    forall i | m < i < n :: !Released(k, events, i, who)
  }

  predicate HeldBy(file: Option<Rec>, who: string) { file.Some? && file.value.instance == who }

  lemma StepKeepsHolder(k: Lock, w: World, file: Option<Rec>, c: Call, who: string)
    requires HeldBy(file, who)
    requires LockStep(k, w, file, c).1 != Acquired && !(c == Release(who) && LockStep(k, w, file, c).1 == Did(true))
    ensures HeldBy(LockStep(k, w, file, c).0, who)
  {
    hide HolderAlive;
  }

  lemma StepGrants(k: Lock, w: World, file: Option<Rec>, c: Call)
    requires c.Acquire? && LockStep(k, w, file, c).1 == Acquired
    ensures HeldBy(LockStep(k, w, file, c).0, c.instance)
  {
    hide HolderAlive;
  }

  /** Once granted, the record stays the holder's until it releases it or another grant takes it. */
  lemma {:induction false} HolderStays(k: Lock, events: seq<Event>, m: nat, n: nat, who: string)
    requires m < n <= |events| && Granted(k, events, m, who)
    requires NoGrant(k, events, m, n) && NoRelease(k, events, m, n, who)
    ensures HeldBy(FileAfter(k, events[..n]), who)
  {
    hide LockStep;
    assert events[..n][..n - 1] == events[..n - 1];
    if n == m + 1 {
      StepGrants(k, events[m].w, FileAfter(k, events[..m]), events[m].c);
    } else {
      HolderStays(k, events, m, n - 1, who);
      assert ReplyAt(k, events, n - 1) != Acquired && !Released(k, events, n - 1, who);
      StepKeepsHolder(k, events[n - 1].w, FileAfter(k, events[..n - 1]), events[n - 1].c, who);
    }
  }

  /**
    Exclusion: between one grant and the next, to another instance, the holder released
    the lock, or its own record did not pass as alive when the other asked.
  */
  lemma NoSecondGrant(k: Lock, events: seq<Event>, m: nat, n: nat, who: string, other: string)
    requires m < n < |events| && who != other
    requires Granted(k, events, m, who) && Granted(k, events, n, other) && NoGrant(k, events, m, n)
    requires NoRelease(k, events, m, n, who)
    ensures HeldBy(FileAfter(k, events[..n]), who)
    ensures !HolderAlive(k, events[n].w, FileAfter(k, events[..n]).value, Bounded(events[n].w, events[n].c.now))
  {
    HolderStays(k, events, m, n, who);
    hide HolderAlive;
    AcquiredExactly(k, events[n].w, FileAfter(k, events[..n]), events[n].c);
  }

  /** The record passes as alive at every call of another instance after the grant. */
  predicate AliveThroughout(k: Lock, events: seq<Event>, m: nat, n: nat, who: string)
    requires n <= |events|
  {
    forall i | m < i < n && events[i].c.Acquire? && events[i].c.instance != who ::
      var file := FileAfter(k, events[..i]);
      HeldBy(file, who) ==> HolderAlive(k, events[i].w, file.value, Bounded(events[i].w, events[i].c.now))
  }

  /** While the holder does not release and its record passes as alive, nobody else is granted the lock. */
  lemma {:induction false} HeldWhileAlive(k: Lock, events: seq<Event>, m: nat, n: nat, who: string)
    requires m < n <= |events| && Granted(k, events, m, who)
    requires NoRelease(k, events, m, n, who) && AliveThroughout(k, events, m, n, who)
    ensures NoGrant(k, events, m, n) && HeldBy(FileAfter(k, events[..n]), who)
  {
    hide LockStep, HolderAlive;
    if n == m + 1 {
      HolderStays(k, events, m, n, who);
    } else {
      HeldWhileAlive(k, events, m, n - 1, who);
      var i := n - 1;
      NotGranted(k, events, i, who);
      HolderStays(k, events, m, n, who);
    }
  }

  lemma NotGranted(k: Lock, events: seq<Event>, i: nat, who: string)
    requires i < |events| && HeldBy(FileAfter(k, events[..i]), who)
    requires events[i].c.Acquire? && events[i].c.instance != who ==>
               HolderAlive(k, events[i].w, FileAfter(k, events[..i]).value, Bounded(events[i].w, events[i].c.now))
    ensures ReplyAt(k, events, i) != Acquired
  {
    hide HolderAlive;
  }
}
