/** The signed-request check of the relay (bus_relay.py): time band, nonce cache, and its durable file. */
module NonceCache {
  import opened Wrappers

  datatype Key = Key(purpose: string, agent: string, nonce: string)

  /** One accepted nonce, in memory in order of acceptance and as a line of the file. */
  datatype Line = Line(key: Key, t: real)

  /** A request that parses; the signature covers purpose, agent, ts and nonce. */
  datatype Req = Req(agent: string, ts: int, nonce: string, signed: bool)

  /** The known agents and the half width of the time band. */
  datatype Rules = Rules(known: set<string>, window: int)

  /** Memory and file; the file may be missing. */
  datatype Auth = Auth(seen: seq<Line>, notBefore: real, file: Option<seq<Line>>)

  function Abs(x: real): real { if x < 0.0 then -x else x }

  predicate Expired(r: Rules, l: Line, now: real) { now - l.t > 2.0 * r.window as real }

  function Alive(r: Rules, ls: seq<Line>, now: real): seq<Line> {
    if ls == [] then []
    else
      var so := Alive(r, ls[..|ls| - 1], now);
      if Expired(r, ls[|ls| - 1], now) then so else so + [ls[|ls| - 1]]
  }

  predicate Has(ls: seq<Line>, k: Key) { exists i :: 0 <= i < |ls| && ls[i].key == k }

  /** Where the key is, or the length if it is nowhere. */
  function IndexOf(ls: seq<Line>, k: Key): (i: nat)
    ensures i <= |ls| && (i < |ls| ==> ls[i].key == k) && forall j | 0 <= j < i :: ls[j].key != k
  {
    if ls == [] || ls[0].key == k then 0 else 1 + IndexOf(ls[1..], k)
  }

  /** `seen[key] = t`: in place if the key is there, at the end if not. */
  function Set(ls: seq<Line>, l: Line): seq<Line> {
    var i := IndexOf(ls, l.key);
    if i < |ls| then ls[i := l] else ls + [l]
  }

  /** Reading the file: a line within twice the window sets its key. */
  function Load(r: Rules, ls: seq<Line>, now: real): seq<Line> {
    if ls == [] then []
    else
      var so := Load(r, ls[..|ls| - 1], now);
      if Expired(r, ls[|ls| - 1], now) then so else Set(so, ls[|ls| - 1])
  }

  /** A start: what the file still holds, rewritten; without a file, nothing signed before now is accepted. */
  function Start(r: Rules, file: Option<seq<Line>>, now: real): Auth {
    var seen := Load(r, if file.Some? then file.value else [], now);
    Auth(seen, if file.Some? then 0.0 else now, Some(seen))
  }

  /** The checks before the cache. */
  predicate InOrder(r: Rules, a: Auth, q: Req, now: real) {
    && q.agent in r.known && Abs(now - q.ts as real) <= r.window as real
    && q.ts >= a.notBefore.Floor && 8 <= |q.nonce| <= 64 && q.signed
  }

  function KeyOf(purpose: string, q: Req): Key { Key(purpose, q.agent, q.nonce) }

  /** `check`: expired keys go first; a key still there is a replay. */
  function Check(r: Rules, a: Auth, purpose: string, q: Option<Req>, now: real): (Auth, bool) {
    if q == None || !InOrder(r, a, q.value, now) then (a, false)
    else
      var k, kept := KeyOf(purpose, q.value), Alive(r, a.seen, now);
      if Has(kept, k) then (a.(seen := kept), false)
      else
        var seen := kept + [Line(k, now)];
        var lines := if a.file.Some? then a.file.value else [];
        (a.(seen := seen, file := Some(if kept != a.seen then seen else lines + [Line(k, now)])), true)
  }

  class NonceAuth {
    const r: Rules
    var seen: seq<Line>
    var notBefore: real
    var file: Option<seq<Line>>

    function State(): Auth
      reads this
    {
      Auth(seen, notBefore, file)
    }

    constructor (r: Rules, found: Option<seq<Line>>, now: real)
      ensures this.r == r && State() == Start(r, found, now)
    {
      this.r := r;
      seen, notBefore, file := [], 0.0, found;
      new;
      if found == None {
        notBefore := now;
      }
      var lines := if found.Some? then found.value else [];
      for i := 0 to |lines|
        invariant seen == Load(r, lines[..i], now) && notBefore == (if found.Some? then 0.0 else now)
        invariant this.r == r
      {
        assert lines[..i + 1][..i] == lines[..i];
        if !Expired(r, lines[i], now) {
          seen := Set(seen, lines[i]);
        }
      }
      assert lines[..|lines|] == lines;
      file := Some(seen);
    }

    /** Drops the expired keys; tells whether there were any. */
    method DropExpired(now: real) returns (any: bool)
      modifies this`seen
      ensures seen == Alive(r, old(seen), now)
      ensures any <==> seen != old(seen)
    {
      var kept: seq<Line> := [];
      for i := 0 to |seen|
        invariant kept == Alive(r, seen[..i], now) && |kept| <= i
        invariant |kept| == i ==> kept == seen[..i]
      {
        assert seen[..i + 1][..i] == seen[..i];
        if !Expired(r, seen[i], now) {
          kept := kept + [seen[i]];
        }
      }
      assert seen[..|seen|] == seen;
      any := |kept| < |seen|;
      seen := kept;
    }

    method CheckRequest(purpose: string, q: Option<Req>, now: real) returns (ok: bool)
      modifies this`seen, this`file
      ensures (State(), ok) == Check(r, old(State()), purpose, q, now)
    {
      hide InOrder;
      if q == None || !InOrder(r, State(), q.value, now) {
        return false;
      }
      var k := KeyOf(purpose, q.value);
      var any := DropExpired(now);
      if Has(seen, k) {
        return false;
      }
      seen := seen + [Line(k, now)];
      file := Some(if any then seen else (if file.Some? then file.value else []) + [Line(k, now)]);
      ok := true;
    }
  }
}
