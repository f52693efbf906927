/**
  Where an agent's mail went once its cursor has passed it (agent_bus.py, dev
  mode): every message was handed out first or was skipped, and the log's
  `skipped_undelivered` numbers add up to the skipped ones.
*/
module SkipAccounting {
  import opened IntSets
  import opened BusState
  import opened Enforce
  import opened BusOps

  predicate DevEvent(e: Event) {
    match e
    case Sent(_) => true
    case Peeked(_, _, g) => g.Dev?
    case Received(_, _, g) => g.Dev?
    case Acked(_, _, _) => true
    case Marked(_, _, g) => g.Dev?
    case Replays(_, _, g) => g.Dev?
  }

  predicate DevRun(events: seq<Event>) { forall i | 0 <= i < |events| :: DevEvent(events[i]) }

  // -------------------------------------------------------------- the history

  /** The messages one event hands to the agent: a consumed page, or mail reported as delivered. */
  function HandedBy(w: World, b: Bus, e: Event, a: string): set<int> {
    match e
    case Received(x, limit, g) => if x == a then (set i | i in Recv(w, g, b, a, limit).1) else {}
    case Marked(x, ids, g) => if x == a then Positive(ids) * Mine(b.messages, a) else {}
    case _ => {}
  }

  function Handed(w: World, events: seq<Event>, a: string): set<int> {
    if events == [] then {}
    else
      var before := events[..|events| - 1];
      Handed(w, before, a) + HandedBy(w, Run(w, before), events[|events| - 1], a)
  }

  /** The agent's messages that its cursor passes when the state changes from b to c. */
  function Passed(b: Bus, c: Bus, a: string): set<int> {
    Between(Mine(c.messages, a), CurOf(b, a).last, CurOf(c, a).last)
  }

  /** Passed by the cursor, and handed out by then. */
  function InTime(w: World, events: seq<Event>, a: string): set<int> {
    if events == [] then {}
    else
      var before := events[..|events| - 1];
      InTime(w, before, a) + Passed(Run(w, before), Run(w, events), a) * Handed(w, events, a)
  }

  /** Passed by the cursor without having been handed out. */
  function Skipped(w: World, events: seq<Event>, a: string): set<int> {
    if events == [] then {}
    else
      var before := events[..|events| - 1];
      Skipped(w, before, a) + (Passed(Run(w, before), Run(w, events), a) - Handed(w, events, a))
  }

  /** The sum of `skipped_undelivered` over the agent's rows. */
  function SkipTotal(rows: seq<Row>, a: string): nat {
    if rows == [] then 0
    else
      var r := rows[|rows| - 1];
      SkipTotal(rows[..|rows| - 1], a) + if r.agent == a then r.skipped else 0
  }

  lemma {:induction false} SkipTotalAdds(x: seq<Row>, y: seq<Row>, a: string)
    ensures SkipTotal(x + y, a) == SkipTotal(x, a) + SkipTotal(y, a)
  {
    if y == [] {
      assert x + y == x;
    } else {
      SkipTotalAdds(x, y[..|y| - 1], a);
      assert (x + y)[..|x + y| - 1] == x + y[..|y| - 1];
    }
  }

  lemma SkipTotalOne(x: seq<Row>, r: Row, a: string)
    ensures SkipTotal(x + [r], a) == SkipTotal(x, a) + if r.agent == a then r.skipped else 0
  {
    assert (x + [r])[..|x|] == x;
  }

  lemma {:induction false} SkipTotalOfRows(x: string, ids: seq<int>, op: Op, a: string)
    ensures SkipTotal(RowsFor(x, ids, op), a) == 0
  {
    if ids != [] {
      SkipTotalOfRows(x, ids[..|ids| - 1], op, a);
      SkipTotalOne(RowsFor(x, ids[..|ids| - 1], op), Row(x, ids[|ids| - 1], ids[|ids| - 1], op, 0), a);
    }
  }

  // ---------------------------------------------------------- one step's effect

  /** Ids in use stay within the table; cursors and water levels never point past it. */
  predicate Sane(b: Bus) {
    && (forall i | i in b.read :: 1 <= i <= |b.messages|)
    && (forall x | x in b.cursors :: 0 <= b.cursors[x].last <= |b.messages| && b.cursors[x].delivered <= |b.messages|)
  }

  /** What a step does to one agent's accounts: `h` is handed out, the rest of what the cursor passes is counted. */
  predicate Booked(b: Bus, c: Bus, a: string, h: set<int>) {
    var mine := Mine(c.messages, a);
    && b.messages <= c.messages
    && CurOf(b, a).last <= CurOf(c, a).last
    && h <= Mine(b.messages, a)
    && b.read * mine + h <= c.read * mine
    && c.read * mine <= b.read * mine + h + UpTo(mine, CurOf(c, a).last)
    && Passed(b, c, a) <= c.read
    && SkipTotal(c.audit, a) == SkipTotal(b.audit, a) + |Passed(b, c, a) - b.read - h|
  }

  lemma MineOfPrefix(ms: seq<Msg>, ns: seq<Msg>, a: string)
    requires ms <= ns
    ensures Mine(ms, a) == UpTo(Mine(ns, a), |ms|)
  {
    assert forall i | 1 <= i <= |ms| :: IsFor(ms, i, a) <==> IsFor(ns, i, a);
  }

  lemma OthersDisjoint(ms: seq<Msg>, a: string, x: string)
    requires a != x
    ensures Mine(ms, a) * Mine(ms, x) == {}
  {
  }

  lemma NothingPassed(b: Bus, c: Bus, a: string)
    requires CurOf(b, a).last == CurOf(c, a).last
    ensures Passed(b, c, a) == {}
  {
  }

  lemma SendEffect(w: World, b: Bus, m: Msg, a: string)
    requires Sane(b)
    ensures Sane(Send(w, b, m).0) && Booked(b, Send(w, b, m).0, a, {})
  {
    hide SendFault;
    NothingPassed(b, Send(w, b, m).0, a);
  }

  /** Another agent's step: this agent's accounts do not move. */
  lemma OtherEffect(b: Bus, c: Bus, x: string, more: set<int>, r: seq<Row>, a: string)
    requires a != x && c.messages == b.messages && CurOf(c, a) == CurOf(b, a)
    requires more <= Mine(b.messages, x) && c.read == b.read + more
    requires c.audit == b.audit + r && SkipTotal(r, a) == 0
    ensures Booked(b, c, a, {})
  {
    hide CurOf, Mine;
    NothingPassed(b, c, a);
    OthersDisjoint(b.messages, a, x);
    SkipTotalAdds(b.audit, r, a);
    var mine := Mine(c.messages, a);
    forall i | i in mine ensures i !in more {
      assert i in more ==> i in Mine(b.messages, a) * Mine(b.messages, x);
    }
    assert c.read * mine == b.read * mine;
  }

  /** The agent's own step, on unchanged messages. */
  lemma OwnEffect(b: Bus, c: Bus, more: set<int>, h: set<int>, r: seq<Row>, a: string)
    requires c.messages == b.messages && CurOf(b, a).last <= CurOf(c, a).last
    requires c.read == b.read + more
    requires h <= more && h <= Mine(b.messages, a) && more <= h + UpTo(Mine(b.messages, a), CurOf(c, a).last)
    requires Passed(b, c, a) <= c.read
    requires c.audit == b.audit + r && SkipTotal(r, a) == |Passed(b, c, a) - b.read - h|
    ensures Booked(b, c, a, h)
  {
    hide CurOf, Mine, Passed;
    SkipTotalAdds(b.audit, r, a);
    var mine := Mine(c.messages, a);
    assert UpTo(mine, CurOf(c, a).last) <= mine;
    assert c.read * mine <= b.read * mine + h + UpTo(mine, CurOf(c, a).last);
  }

  lemma SkipOfOne(r: Row, a: string)
    ensures SkipTotal([r], a) == if r.agent == a then r.skipped else 0
  {
    SkipTotalOne([], r, a);
    assert [] + [r] == [r];
  }

  lemma RecvSane(w: World, b: Bus, x: string, limit: int, g: Gate)
    requires Sane(b) && g.Dev?
    ensures Sane(Recv(w, g, b, x, limit).0)
  {
    var page := Page(b, x, limit);
    PageIsPrefix(b, x, limit);
    if page != [] {
      assert page[|page| - 1] in page;
    }
  }

  lemma RecvFields(b: Bus, x: string, limit: int, a: string)
    requires Page(b, x, limit) != []
    ensures var c, page := RecvDev(b, x, limit).0, Page(b, x, limit);
            var top := page[|page| - 1];
            && c.messages == b.messages
            && c.read == b.read + UpTo(Mine(b.messages, x), top)
            && c.audit == b.audit + [Row(x, CurOf(b, x).last, top, RecvMark, 0)]
            && CurOf(c, x).last == top
            && (a != x ==> CurOf(c, a) == CurOf(b, a))
  {
    hide UpTo, Mine, Page;
  }

  lemma RecvOwn(w: World, b: Bus, a: string, limit: int, g: Gate)
    requires g.Dev? && Page(b, a, limit) != []
    ensures Booked(b, RecvDev(b, a, limit).0, a, set i | i in Page(b, a, limit))
  {
    var c, page := RecvDev(b, a, limit).0, Page(b, a, limit);
    RecvFields(b, a, limit, a);
    PageTops(b, a, limit);
    PageUpTo(b, a, limit);
    RecvPasses(w, b, a, limit, g);
    hide Page, Booked, Passed, Mine, UpTo, CurOf, RecvDev, SkipTotal;
    var r := Row(a, CurOf(b, a).last, page[|page| - 1], RecvMark, 0);
    SkipOfOne(r, a);
    var h := set i | i in page;
    assert Passed(b, c, a) - b.read - h == {};
    OwnEffect(b, c, UpTo(Mine(b.messages, a), page[|page| - 1]), h, [r], a);
  }

  lemma RecvOther(b: Bus, x: string, limit: int, a: string)
    requires a != x && Page(b, x, limit) != []
    ensures Booked(b, RecvDev(b, x, limit).0, a, {})
  {
    var c, page := RecvDev(b, x, limit).0, Page(b, x, limit);
    RecvFields(b, x, limit, a);
    PageUpTo(b, x, limit);
    hide Page, Booked, Passed, Mine, UpTo, CurOf, RecvDev, SkipTotal;
    var r := Row(x, CurOf(b, x).last, page[|page| - 1], RecvMark, 0);
    SkipOfOne(r, a);
    OtherEffect(b, c, x, UpTo(Mine(b.messages, x), page[|page| - 1]), [r], a);
  }

  lemma NoEffect(b: Bus, a: string)
    ensures Booked(b, b, a, {})
  {
    NothingPassed(b, b, a);
  }

  lemma RecvEffect(w: World, b: Bus, x: string, limit: int, g: Gate, a: string)
    requires g.Dev?
    ensures Booked(b, Recv(w, g, b, x, limit).0, a, HandedBy(w, b, Received(x, limit, g), a))
  {
    hide Booked, Page;
    NoEffect(b, a);
    if Page(b, x, limit) != [] {
      if x == a {
        RecvOwn(w, b, a, limit, g);
      } else {
        RecvOther(b, x, limit, a);
      }
    } else {
      assert HandedBy(w, b, Received(x, limit, g), a) == {};
    }
  }

  lemma PageTops(b: Bus, a: string, limit: int)
    requires Page(b, a, limit) != []
    ensures Page(b, a, limit)[|Page(b, a, limit)| - 1] > CurOf(b, a).last
  {
    var page := Page(b, a, limit);
    PageIsPrefix(b, a, limit);
    assert page[|page| - 1] in page;
  }

  lemma PageUpTo(b: Bus, a: string, limit: int)
    requires Page(b, a, limit) != []
    ensures var page := Page(b, a, limit);
            && (set i | i in page) <= UpTo(Mine(b.messages, a), page[|page| - 1]) <= Mine(b.messages, a)
  {
    var page := Page(b, a, limit);
    PageIsPrefix(b, a, limit);
    forall i | i in page ensures i <= page[|page| - 1] {
      var k :| 0 <= k < |page| && page[k] == i;
    }
  }

  /** The cursor passes exactly the page. */
  lemma RecvPasses(w: World, b: Bus, a: string, limit: int, g: Gate)
    requires g.Dev? && Page(b, a, limit) != []
    ensures var (c, page) := Recv(w, g, b, a, limit);
            Passed(b, c, a) == set i | i in page
  {
    var page := Page(b, a, limit);
    PageIsPrefix(b, a, limit);
    forall i | i in page ensures i <= page[|page| - 1] {
      var k :| 0 <= k < |page| && page[k] == i;
    }
  }

  lemma AckSane(b: Bus, x: string, upto: int, strict: bool)
    requires Sane(b)
    ensures Sane(Ack(b, x, upto, strict))
  {
    HighWaterBounds(b.messages, x);
  }

  lemma AckFields(b: Bus, x: string, upto: int, strict: bool, a: string)
    ensures var c, to, low := Ack(b, x, upto, strict), AckTarget(b, x, upto, strict), CurOf(b, x).last;
            && to >= low
            && c.messages == b.messages
            && c.read == b.read + UpTo(Mine(b.messages, x), to)
            && CurOf(c, x).last == to
            && (a != x ==> CurOf(c, a) == CurOf(b, a))
            && c.audit == b.audit + if to > low then [Row(x, low, to, AckMove, |Between(Mine(b.messages, x), low, to) - b.read|)]
                                    else []
  {
    hide UpTo, Mine, Between, HighWater;
  }

  lemma AckEffect(b: Bus, x: string, upto: int, strict: bool, a: string)
    requires Sane(b)
    ensures Booked(b, Ack(b, x, upto, strict), a, {})
  {
    var c, to := Ack(b, x, upto, strict), AckTarget(b, x, upto, strict);
    var more, low := UpTo(Mine(b.messages, x), to), CurOf(b, x).last;
    var r := Row(x, low, to, AckMove, |Between(Mine(b.messages, x), low, to) - b.read|);
    var rows := if to > low then [r] else [];
    SkipOfOne(r, a);
    AckFields(b, x, upto, strict, a);
    hide AckTarget, Booked, Mine, Ack, CurOf, SkipTotal, UpTo;
    if x == a {
      assert Passed(b, c, a) == Between(Mine(b.messages, a), low, to);
      assert Passed(b, c, a) - b.read - {} == Passed(b, c, a) - b.read;
      OwnEffect(b, c, more, {}, rows, a);
    } else {
      OtherEffect(b, c, x, more, rows, a);
    }
  }

  // ------------------------------------------------- remote delivery, replay

  lemma WaterLevelBounds(w: World, g: Gate, b: Bus, a: string, ids: set<int>)
    ensures WaterLevel(w, g, b, a, ids) <= |b.messages|
  {
    HighWaterBounds(b.messages, a);
    var left := Blocking(w, g, b, a) * (Mine(b.messages, a) - b.read) - ids;
    if left != {} {
      assert Least(left) in Mine(b.messages, a);
    }
  }

  lemma MarkFields(w: World, b: Bus, x: string, ids: seq<int>, g: Gate)
    requires g.Dev?
    ensures var c, good := MarkDelivered(w, g, b, x, ids), Positive(ids);
            && c.messages == b.messages
            && c.read == b.read + good * Mine(b.messages, x)
            && c.audit == b.audit + RowsFor(x, Sorted(good), RemoteDelivered)
            && (if good == {} then c.cursors == b.cursors
                else c.cursors == b.cursors[x := Cur(CurOf(b, x).last, WaterLevel(w, g, b, x, good))])
  {
    assert RefusedIds(w, g, b, x, Positive(ids)) == {};
    hide WaterLevel, Mine, Positive, CurOf, RefusedIds;
    assert Sorted({}) == [] && RowsFor(x, [], RemoteRefused) == [];
    assert Positive(ids) - {} == Positive(ids);
    assert b.audit + [] == b.audit;
  }

  lemma MarkSane(w: World, b: Bus, x: string, ids: seq<int>, g: Gate)
    requires Sane(b) && g.Dev?
    ensures Sane(MarkDelivered(w, g, b, x, ids))
  {
    hide MarkDelivered, WaterLevel, Positive, RowsFor, LeastOf;
    MarkFields(w, b, x, ids, g);
    WaterLevelBounds(w, g, b, x, Positive(ids));
    forall i | i in MarkDelivered(w, g, b, x, ids).read ensures 1 <= i <= |b.messages| {
      assert i in b.read || i in Mine(b.messages, x);
    }
  }

  lemma MarkEffect(w: World, b: Bus, x: string, ids: seq<int>, g: Gate, a: string)
    requires g.Dev?
    ensures Booked(b, MarkDelivered(w, g, b, x, ids), a, HandedBy(w, b, Marked(x, ids, g), a))
  {
    hide MarkDelivered, Mine, Positive, WaterLevel, RowsFor, Booked, Passed, SkipTotal, LeastOf;
    var c, good := MarkDelivered(w, g, b, x, ids), Positive(ids);
    MarkFields(w, b, x, ids, g);
    assert a != x ==> CurOf(c, a) == CurOf(b, a);
    NothingPassed(b, c, a);
    SkipTotalOfRows(x, Sorted(good), RemoteDelivered, a);
    MarkedEffect(b, c, x, good * Mine(b.messages, x), RowsFor(x, Sorted(good), RemoteDelivered), a);
  }

  lemma MarkedEffect(b: Bus, c: Bus, x: string, h: set<int>, r: seq<Row>, a: string)
    requires c.messages == b.messages && h <= Mine(b.messages, x) && c.read == b.read + h
    requires c.audit == b.audit + r && SkipTotal(r, a) == 0
    requires CurOf(c, a).last == CurOf(b, a).last && Passed(b, c, a) == {}
    requires a != x ==> CurOf(c, a) == CurOf(b, a)
    ensures Booked(b, c, a, if x == a then h else {})
  {
    hide Mine, Booked, Passed, SkipTotal, CurOf;
    if x == a {
      assert Passed(b, c, a) - b.read - h == {};
      OwnEffect(b, c, h, h, r, a);
    } else {
      OtherEffect(b, c, x, h, r, a);
    }
  }

  /** Only messages and rows without skips were added. */
  predicate OnlyAdds(b: Bus, c: Bus, a: string) {
    && b.messages <= c.messages && c.read == b.read && c.cursors == b.cursors
    && SkipTotal(c.audit, a) == SkipTotal(b.audit, a)
  }

  lemma AddingEffect(b: Bus, c: Bus, a: string)
    requires Sane(b) && OnlyAdds(b, c, a)
    ensures Sane(c) && Booked(b, c, a, {})
  {
    NothingPassed(b, c, a);
  }

  lemma ReplayOneAdds(w: World, g: Gate, b: Bus, x: string, id: int, a: string)
    requires 1 <= id <= |b.messages| && ReplayOne(w, g, b, x, id).Some?
    ensures OnlyAdds(b, ReplayOne(w, g, b, x, id).value, a)
  {
    hide Carries, SendFault, Copy, ReplayedFrom;
    SkipTotalOne(b.audit, Row(x, id, |b.messages| + 1, Replayed, 0), a);
  }

  lemma {:induction false} ReplayAllAdds(w: World, g: Gate, b: Bus, x: string, ids: seq<int>, a: string)
    ensures OnlyAdds(b, ReplayAll(w, g, b, x, ids), a)
    decreases |ids|
  {
    hide ReplayOne;
    if ids != [] && 1 <= ids[0] <= |b.messages| && ReplayOne(w, g, b, x, ids[0]).Some? {
      ReplayOneAdds(w, g, b, x, ids[0], a);
      ReplayAllAdds(w, g, ReplayOne(w, g, b, x, ids[0]).value, x, ids[1..], a);
    }
  }

  lemma StepEffect(w: World, b: Bus, e: Event, a: string)
    requires Sane(b) && DevEvent(e)
    ensures Sane(Step(w, b, e)) && Booked(b, Step(w, b, e), a, HandedBy(w, b, e, a))
  {
    hide Sane, Booked, Send, Recv, Ack, MarkDelivered, ReplayAll, Candidates, GateWorks, Passed, Mine;
    match e
    case Sent(m) =>
      SendEffect(w, b, m, a);
    case Peeked(_, _, _) =>
      NoEffect(b, a);
    case Received(x, limit, g) =>
      RecvEffect(w, b, x, limit, g, a);
      RecvSane(w, b, x, limit, g);
    case Acked(x, upto, strict) =>
      AckEffect(b, x, upto, strict, a);
      AckSane(b, x, upto, strict);
    case Marked(x, ids, g) =>
      MarkEffect(w, b, x, ids, g, a);
      MarkSane(w, b, x, ids, g);
    case Replays(x, limit, g) =>
      NoEffect(b, a);
      ReplayAllAdds(w, g, b, x, Candidates(b, x, limit), a);
      AddingEffect(b, ReplayAll(w, g, b, x, Candidates(b, x, limit)), a);
  }

  // ---------------------------------------------------------------- the theorem

  /** The accounts balance: what is handed out or passed is read, and nothing else. */
  predicate Balanced(b: Bus, a: string, handed: set<int>, inTime: set<int>, skipped: set<int>) {
    var mine := Mine(b.messages, a);
    && handed <= mine
    && b.read * mine == handed + UpTo(mine, CurOf(b, a).last)
    && inTime + skipped == UpTo(mine, CurOf(b, a).last)
    && inTime * skipped == {} && inTime <= handed
    && |skipped| == SkipTotal(b.audit, a)
  }

  /** The bookkeeping of one step, on sets alone: `below` was passed before, `p` is passed now. */
  lemma SetBalance(was: set<int>, now: set<int>, below: set<int>, p: set<int>, h: set<int>,
                   handed: set<int>, inTime: set<int>, skipped: set<int>)
    requires was == handed + below && p * below == {}
    requires inTime + skipped == below && inTime * skipped == {} && inTime <= handed
    requires was + h <= now && now <= was + h + (below + p) && p <= now
    ensures now == (handed + h) + (below + p)
    ensures (inTime + p * (handed + h)) + (skipped + (p - (handed + h))) == below + p
    ensures (inTime + p * (handed + h)) * (skipped + (p - (handed + h))) == {}
    ensures inTime + p * (handed + h) <= handed + h
    ensures |skipped + (p - (handed + h))| == |skipped| + |p - was - h|
  {
    PassedUnread(was, handed, below, p, h);
    forall i | i in p ensures i !in inTime && i !in skipped {
      assert i in inTime + skipped ==> i in p * below;
    }
    assert skipped * (p - (handed + h)) == {};
    Disjoint(skipped, p - (handed + h));
  }

  lemma SplitRange(mine: set<int>, low: int, top: int)
    requires low <= top
    ensures UpTo(mine, top) == UpTo(mine, low) + Between(mine, low, top)
    ensures Between(mine, low, top) * UpTo(mine, low) == {}
    ensures Between(mine, low, top) <= mine
  {
  }

  lemma WithinMine(p: set<int>, mine: set<int>, read: set<int>, now: set<int>, h: set<int>)
    requires p <= mine && p <= now
    ensures p <= now * mine && p - read - h == p - read * mine - h
  {
  }

  lemma BalanceKept(b: Bus, c: Bus, a: string, h: set<int>, handed: set<int>, inTime: set<int>, skipped: set<int>)
    requires Sane(b) && Booked(b, c, a, h)
    requires Balanced(b, a, handed, inTime, skipped)
    ensures var p := Passed(b, c, a);
            Balanced(c, a, handed + h, inTime + p * (handed + h), skipped + (p - (handed + h)))
  {
    hide Mine, CurOf, SkipTotal, Sane, UpTo, Between;
    OldAccounts(b, c, a);
    var mine, was, p := Mine(c.messages, a), Mine(b.messages, a), Passed(b, c, a);
    var below := UpTo(mine, CurOf(b, a).last);
    SplitRange(mine, CurOf(b, a).last, CurOf(c, a).last);
    WithinMine(p, mine, b.read, c.read, h);
    SetBalance(b.read * mine, c.read * mine, below, Passed(b, c, a), h, handed, inTime, skipped);
    assert handed + h <= mine;
  }

  /** New messages are numbered above everything read, handed out or passed so far. */
  lemma OldAccounts(b: Bus, c: Bus, a: string)
    requires Sane(b) && b.messages <= c.messages
    ensures var mine, was, low := Mine(c.messages, a), Mine(b.messages, a), CurOf(b, a).last;
            was <= mine && b.read * mine == b.read * was && UpTo(was, low) == UpTo(mine, low)
  {
    MineOfPrefix(b.messages, c.messages, a);
    assert 0 <= CurOf(b, a).last <= |b.messages|;
  }

  lemma Disjoint(x: set<int>, y: set<int>)
    requires x * y == {}
    ensures |x + y| == |x| + |y|
  {
  }

  lemma PassedUnread(read: set<int>, handed: set<int>, below: set<int>, p: set<int>, h: set<int>)
    requires read == handed + below && p * below == {}
    ensures p - read - h == p - (handed + h)
  {
    forall i | i in p ensures i !in below {
      assert i in below ==> i in p * below;
    }
  }

  /**
    In every state of a dev-mode run, the agent's mail up to its cursor splits into
    what was handed out by the time the cursor passed it and what was skipped; all of
    it is read; and the log's skip numbers sum to the number of skipped messages.
  */
  lemma {:induction false} SkipsAreConserved(w: World, events: seq<Event>, a: string)
    requires DevRun(events)
    ensures Sane(Run(w, events))
    ensures Balanced(Run(w, events), a, Handed(w, events, a), InTime(w, events, a), Skipped(w, events, a))
  {
    if events != [] {
      var init, e := events[..|events| - 1], events[|events| - 1];
      SkipsAreConserved(w, init, a);
      var b, c := Run(w, init), Run(w, events);
      StepEffect(w, b, e, a);
      hide Sane, Booked, Step, Passed, Mine, HandedBy, Balanced;
      BalanceKept(b, c, a, HandedBy(w, b, e, a), Handed(w, init, a), InTime(w, init, a), Skipped(w, init, a));
    } else {
      assert Mine([], a) == {};
    }
  }
}
