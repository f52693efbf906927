/** No signed request passes twice, across checks, expiries, rewrites of the file and restarts (bus_relay.py). */
module NonceOnce {
  import opened Wrappers
  import opened NonceCache

  /** A request checked, or the process started again on the file it left. */
  datatype Event = Asked(purpose: string, q: Option<Req>, now: real) | Restarted(now: real)

  function EventStep(r: Rules, a: Auth, e: Event): (Auth, bool) {
    match e
    case Asked(purpose, q, now) => Check(r, a, purpose, q, now)
    case Restarted(now) => (Start(r, a.file, now), false)
  }

  function After(r: Rules, a: Auth, events: seq<Event>): Auth {
    if events == [] then a else EventStep(r, After(r, a, events[..|events| - 1]), events[|events| - 1]).0
  }

  predicate AcceptedAt(r: Rules, a: Auth, events: seq<Event>, n: nat)
    requires n < |events|
  {
    EventStep(r, After(r, a, events[..n]), events[n]).1
  }

  predicate Ordered(events: seq<Event>) { forall i, j | 0 <= i < j < |events| :: events[i].now <= events[j].now }

  // ---------------------------------------------------------- what is remembered

  predicate Unique(ls: seq<Line>) { forall i, j | 0 <= i < j < |ls| :: ls[i].key != ls[j].key }

  /** The key is there with a time no earlier than t. */
  predicate Keeps(ls: seq<Line>, k: Key, t: real) { exists i :: 0 <= i < |ls| && ls[i].key == k && ls[i].t >= t }

  /** From some line on the file says so, and no later line takes it back. */
  predicate Tells(ls: seq<Line>, k: Key, t: real) {
    exists i :: 0 <= i < |ls| && ls[i].key == k && TellsFrom(ls, k, t, i)
  }

  predicate TellsFrom(ls: seq<Line>, k: Key, t: real, i: nat) {
    forall j | i <= j < |ls| && ls[j].key == k :: ls[j].t >= t
  }

  predicate Remembered(a: Auth, k: Key, t: real) {
    Keeps(a.seen, k, t) && a.file.Some? && Tells(a.file.value, k, t)
  }

  lemma SetUnique(ls: seq<Line>, l: Line)
    requires Unique(ls)
    ensures Unique(Set(ls, l))
  {
  }

  lemma SetKeeps(ls: seq<Line>, l: Line, k: Key, t: real)
    requires Keeps(ls, k, t) && (l.key == k ==> l.t >= t)
    ensures Keeps(Set(ls, l), k, t)
  {
    var i :| 0 <= i < |ls| && ls[i].key == k && ls[i].t >= t;
    assert Set(ls, l)[i].key == k && Set(ls, l)[i].t >= t;
  }

  lemma SetPuts(ls: seq<Line>, l: Line)
    ensures Keeps(Set(ls, l), l.key, l.t)
  {
    var i := IndexOf(ls, l.key);
    assert Set(ls, l)[i] == l;
  }

  lemma {:induction false} LoadUnique(r: Rules, ls: seq<Line>, now: real)
    ensures Unique(Load(r, ls, now))
  {
    if ls != [] {
      LoadUnique(r, ls[..|ls| - 1], now);
      SetUnique(Load(r, ls[..|ls| - 1], now), ls[|ls| - 1]);
      hide Unique, Set;
    }
  }

  /** A start within twice the window still knows the key. */
  lemma {:induction false} LoadKeeps(r: Rules, ls: seq<Line>, now: real, k: Key, t: real)
    requires Tells(ls, k, t) && now - t <= 2.0 * r.window as real
    ensures Keeps(Load(r, ls, now), k, t)
  {
    var i :| 0 <= i < |ls| && ls[i].key == k && TellsFrom(ls, k, t, i);
    var init, last := ls[..|ls| - 1], ls[|ls| - 1];
    assert ls[|ls| - 1].key == k ==> ls[|ls| - 1].t >= t;
    if i < |init| {
      assert init[i].key == k && TellsFrom(init, k, t, i);
      LoadKeeps(r, init, now, k, t);
      if !Expired(r, last, now) {
        SetKeeps(Load(r, init, now), last, k, t);
      }
    } else {
      SetPuts(Load(r, init, now), last);
    }
  }

  lemma {:induction false} AliveIs(r: Rules, ls: seq<Line>, now: real, k: Key, t: real)
    ensures Unique(ls) ==> Unique(Alive(r, ls, now))
    ensures forall i | 0 <= i < |Alive(r, ls, now)| :: Alive(r, ls, now)[i] in ls
    ensures Keeps(ls, k, t) && now - t <= 2.0 * r.window as real ==> Keeps(Alive(r, ls, now), k, t)
  {
    if ls != [] {
      var init, last := ls[..|ls| - 1], ls[|ls| - 1];
      AliveIs(r, init, now, k, t);
      var so, all := Alive(r, init, now), Alive(r, ls, now);
      assert Unique(ls) ==> Unique(init);
      forall i | 0 <= i < |so| ensures so[i] in ls && (Unique(ls) ==> so[i].key != last.key) {
        var j :| 0 <= j < |init| && init[j] == so[i];
        assert ls[j] == so[i];
      }
      if Keeps(ls, k, t) && now - t <= 2.0 * r.window as real {
        var i :| 0 <= i < |ls| && ls[i].key == k && ls[i].t >= t;
        if i < |init| {
          assert init[i].key == k;
          var j :| 0 <= j < |so| && so[j].key == k && so[j].t >= t;
          assert all[j] == so[j];
        } else {
          assert all[|so|] == last;
        }
      }
    }
  }

  lemma UniqueTells(ls: seq<Line>, k: Key, t: real)
    requires Unique(ls) && Keeps(ls, k, t)
    ensures Tells(ls, k, t)
  {
    var i :| 0 <= i < |ls| && ls[i].key == k && ls[i].t >= t;
    assert TellsFrom(ls, k, t, i);
  }

  lemma AppendTells(ls: seq<Line>, l: Line, k: Key, t: real)
    requires Tells(ls, k, t) && (l.key == k ==> l.t >= t)
    ensures Tells(ls + [l], k, t)
  {
    var i :| 0 <= i < |ls| && ls[i].key == k && TellsFrom(ls, k, t, i);
    assert (ls + [l])[i].key == k && TellsFrom(ls + [l], k, t, i);
  }

  lemma AppendPuts(ls: seq<Line>, l: Line)
    ensures Keeps(ls + [l], l.key, l.t) && Tells(ls + [l], l.key, l.t)
  {
    assert (ls + [l])[|ls|] == l;
    assert TellsFrom(ls + [l], l.key, l.t, |ls|);
  }

  // --------------------------------------------------------------- one event

  lemma {:induction false} StepUnique(r: Rules, a: Auth, e: Event)
    requires Unique(a.seen)
    ensures Unique(EventStep(r, a, e).0.seen)
  {
    match e
    case Restarted(now) =>
      LoadUnique(r, if a.file.Some? then a.file.value else [], now);
    case Asked(purpose, q, now) =>
      if q.Some? {
        AliveIs(r, a.seen, now, KeyOf(purpose, q.value), 0.0);
      }
  }

  /** Acceptance puts the key into memory and into the file. */
  lemma AcceptanceIsKept(r: Rules, a: Auth, e: Event)
    requires Unique(a.seen) && e.Asked? && EventStep(r, a, e).1
    ensures Remembered(EventStep(r, a, e).0, KeyOf(e.purpose, e.q.value), e.now)
  {
    hide InOrder;
    var k, kept := KeyOf(e.purpose, e.q.value), Alive(r, a.seen, e.now);
    AppendPuts(kept, Line(k, e.now));
    AppendPuts(if a.file.Some? then a.file.value else [], Line(k, e.now));
  }

  lemma HasKept(ls: seq<Line>, k: Key, t: real)
    requires Keeps(ls, k, t)
    ensures Has(ls, k)
  {
  }

  /** Within twice the window the key stays remembered through any event, and a request with it is refused. */
  lemma MemoryLasts(r: Rules, a: Auth, e: Event, k: Key, t: real)
    requires Unique(a.seen) && Remembered(a, k, t) && t <= e.now && e.now - t <= 2.0 * r.window as real
    ensures Remembered(EventStep(r, a, e).0, k, t)
    ensures e.Asked? && e.q.Some? && KeyOf(e.purpose, e.q.value) == k ==> !EventStep(r, a, e).1
  {
    hide InOrder, Tells, Keeps, Unique;
    match e
    case Restarted(now) =>
      LoadKeeps(r, a.file.value, now, k, t);
      LoadUnique(r, a.file.value, now);
      UniqueTells(Load(r, a.file.value, now), k, t);
    case Asked(purpose, q, now) =>
      var kept := Alive(r, a.seen, now);
      AliveIs(r, a.seen, now, k, t);
      HasKept(kept, k, t);
      if EventStep(r, a, e).1 {
        var l := Line(KeyOf(purpose, q.value), now);
        AppendKeeps(kept, l, k, t);
        UniqueAppend(kept, l);
        UniqueTells(kept + [l], k, t);
        AppendTells(a.file.value, l, k, t);
      }
  }

  lemma AppendKeeps(ls: seq<Line>, l: Line, k: Key, t: real)
    requires Keeps(ls, k, t)
    ensures Keeps(ls + [l], k, t)
  {
    var i :| 0 <= i < |ls| && ls[i].key == k && ls[i].t >= t;
    assert (ls + [l])[i] == ls[i];
  }

  lemma UniqueAppend(ls: seq<Line>, l: Line)
    requires Unique(ls) && !Has(ls, l.key)
    ensures Unique(ls + [l])
  {
  }

  // --------------------------------------------------------------- over a run

  lemma {:induction false} AlwaysUnique(r: Rules, a: Auth, events: seq<Event>)
    requires Unique(a.seen)
    ensures Unique(After(r, a, events).seen)
  {
    hide EventStep, Unique;
    if events != [] {
      AlwaysUnique(r, a, events[..|events| - 1]);
      StepUnique(r, After(r, a, events[..|events| - 1]), events[|events| - 1]);
    }
  }

  lemma {:induction false} StillRemembered(r: Rules, a: Auth, events: seq<Event>, m: nat, n: nat, k: Key)
    requires m < n <= |events| && Ordered(events) && Unique(a.seen)
    requires events[m].Asked? && AcceptedAt(r, a, events, m) && k == KeyOf(events[m].purpose, events[m].q.value)
    requires events[n - 1].now - events[m].now <= 2.0 * r.window as real
    ensures Remembered(After(r, a, events[..n]), k, events[m].now)
  {
    hide EventStep, Remembered, Unique;
    assert events[..n][..n - 1] == events[..n - 1];
    AlwaysUnique(r, a, events[..n - 1]);
    if n == m + 1 {
      AcceptanceIsKept(r, After(r, a, events[..m]), events[m]);
    } else {
      assert events[n - 2].now <= events[n - 1].now;
      StillRemembered(r, a, events, m, n - 1, k);
      MemoryLasts(r, After(r, a, events[..n - 1]), events[n - 1], k, events[m].now);
    }
  }

  lemma AcceptedInBand(r: Rules, a: Auth, e: Event)
    requires EventStep(r, a, e).1
    ensures e.Asked? && e.q.Some? && Abs(e.now - e.q.value.ts as real) <= r.window as real
  {
  }

  /**
    With a clock that never goes back and a file only the relay writes, one signed
    request (purpose, agent, time stamp, nonce) is accepted at most once, however
    often the process restarts.
  */
  lemma NeverAcceptedTwice(r: Rules, found: Option<seq<Line>>, start: real, events: seq<Event>, m: nat, n: nat)
    requires m < n < |events| && Ordered(events)
    requires events[m].Asked? && events[n].Asked? && events[m].q.Some? && events[n].q.Some?
    requires events[m].purpose == events[n].purpose && events[m].q.value.agent == events[n].q.value.agent
    requires events[m].q.value.ts == events[n].q.value.ts && events[m].q.value.nonce == events[n].q.value.nonce
    ensures !(AcceptedAt(r, Start(r, found, start), events, m) && AcceptedAt(r, Start(r, found, start), events, n))
  {
    hide EventStep, Remembered;
    var a := Start(r, found, start);
    LoadUnique(r, if found.Some? then found.value else [], start);
    if AcceptedAt(r, a, events, m) {
      AcceptedInBand(r, After(r, a, events[..m]), events[m]);
      var k := KeyOf(events[m].purpose, events[m].q.value);
      if events[n].now - events[m].now <= 2.0 * r.window as real {
        assert events[n - 1].now <= events[n].now;
        StillRemembered(r, a, events, m, n, k);
        AlwaysUnique(r, a, events[..n]);
        MemoryLasts(r, After(r, a, events[..n]), events[n], k, events[m].now);
      } else if AcceptedAt(r, a, events, n) {
        AcceptedInBand(r, After(r, a, events[..n]), events[n]);
      }
    }
  }
}
