/** The bus as the program keeps it: tables that the operations of agent_bus.py change in place. */
module AgentBus {
  import opened Wrappers
  import opened CanonicalJson
  import opened IntSets
  import opened BusState
  import opened Enforce
  import opened BusOps

  lemma {:induction false} RaisedStays(w: World, g: Gate, b: Bus, a: string, ids: seq<int>, n: nat, record: bool)
    requires g.Product? && InTable(b, ids)
    requires n <= |ids| && Sift(w, g, b, a, ids[..n], record).Raised?
    ensures Sift(w, g, b, a, ids, record).Raised?
    decreases |ids|
  {
    if n == |ids| {
      assert ids[..n] == ids;
    } else {
      var init := ids[..|ids| - 1];
      assert init[..n] == ids[..n];
      RaisedStays(w, g, b, a, init, n, record);
    }
  }

  lemma SignedCopy(g: Gate, m: Msg, id: nat)
    requires g.Product? && m.sig != ""
    ensures Copy(g, m, id) == m
  {
  }

  lemma EmptySifts(w: World, g: Gate, b: Bus, a: string, record: bool)
    requires g.Product?
    ensures Sift(w, g, b, a, [], record) == Sifted([], [], b.seen)
  {
  }

  /** The rows that may still come out, oldest first. */
  function KeepBlocking(w: World, g: Gate, ms: seq<Msg>, ids: seq<int>): seq<int>
    requires forall i | 0 <= i < |ids| :: 1 <= ids[i] <= |ms|
  {
    if ids == [] then []
    else
      var so := KeepBlocking(w, g, ms, ids[..|ids| - 1]);
      if Blocks(w, g, ms[ids[|ids| - 1] - 1]) then so + [ids[|ids| - 1]] else so
  }

  lemma {:induction false} KeepBlockingIs(w: World, g: Gate, ms: seq<Msg>, ids: seq<int>)
    requires forall i | 0 <= i < |ids| :: 1 <= ids[i] <= |ms|
    requires forall i, j | 0 <= i < j < |ids| :: ids[i] < ids[j]
    ensures var out := KeepBlocking(w, g, ms, ids);
            && (forall i, j | 0 <= i < j < |out| :: out[i] < out[j])
            && (forall n :: n in out <==> n in ids && Blocks(w, g, ms[n - 1]))
  {
    hide Blocks;
    if ids != [] {
      var init, last := ids[..|ids| - 1], ids[|ids| - 1];
      KeepBlockingIs(w, g, ms, init);
      var so := KeepBlocking(w, g, ms, init);
      assert ids == init + [last];
      assert KeepBlocking(w, g, ms, ids) == if Blocks(w, g, ms[last - 1]) then so + [last] else so;
      hide KeepBlocking;
      assert forall i | 0 <= i < |so| :: so[i] in so;
      assert forall i | 0 <= i < |init| :: init[i] < last;
    }
  }

  lemma PendingRising(b: Bus, a: string)
    ensures forall i, j | 0 <= i < j < |Pending(b, a)| :: Pending(b, a)[i] < Pending(b, a)[j]
    ensures forall i | 0 <= i < |Pending(b, a)| :: 1 <= Pending(b, a)[i] <= |b.messages|
  {
    var ids := IdsAfter(b.messages, a, CurOf(b, a).last);
    assert forall i | 0 <= i < |ids| :: ids[i] in ids;
    var all, p := Letters(b.messages, ids), Pending(b, a);
    assert p == all[..|p|];
    forall i | 0 <= i < |p| ensures 1 <= p[i] <= |b.messages| {
      assert all[i] in all;
    }
  }

  lemma BlockingFrame(w: World, g: Gate, b: Bus, c: Bus, a: string)
    requires b.messages == c.messages && b.cursors == c.cursors
    ensures Blocking(w, g, b, a) == Blocking(w, g, c, a)
  {
    hide Blocks, Letters, IdsAfter;
    assert Pending(b, a) == Pending(c, a);
  }

  lemma LevelFrame(w: World, g: Gate, b: Bus, c: Bus, a: string, ids: set<int>)
    requires b.messages == c.messages && b.cursors == c.cursors && b.read == c.read
    ensures WaterLevel(w, g, b, a, ids) == WaterLevel(w, g, c, a, ids)
  {
    hide Blocking, Mine, HighWater, LeastOf;
    BlockingFrame(w, g, b, c, a);
  }

  lemma LevelIs(w: World, g: Gate, b: Bus, a: string, good: set<int>, pend: set<int>, left: set<int>)
    requires pend == Blocking(w, g, b, a)
    requires left == pend * (Mine(b.messages, a) - (b.read + good * Mine(b.messages, a))) - good
    ensures WaterLevel(w, g, b, a, good) == if left == {} then HighWater(b.messages, a) else Least(left) - 1
  {
    hide Blocking, Mine;
    assert left == Blocking(w, g, b, a) * (Mine(b.messages, a) - b.read) - good;
  }

  /** The open rejections among the first n rows. */
  function OpenBelow(rows: seq<Row>, a: string, n: nat): set<int> {
    set i | 0 <= i < |rows| && i < n && Open(rows, a, i) :: rows[i].from
  }

  lemma OpenBelowStep(rows: seq<Row>, a: string, n: nat)
    requires n < |rows|
    ensures OpenBelow(rows, a, n + 1) == OpenBelow(rows, a, n) + if Open(rows, a, n) then {rows[n].from} else {}
  {
    hide Open;
  }

  class BusStore {
    const w: World
    var messages: seq<Msg>
    var read: set<int>
    var cursors: map<string, Cur>
    var audit: seq<Row>
    var seen: set<(string, string)>

    function State(): Bus
      reads this
    {
      Bus(messages, read, cursors, audit, seen)
    }

    constructor (w: World)
      ensures this.w == w && State() == EMPTY
    {
      this.w := w;
      messages, read, cursors, audit, seen := [], {}, map[], [], {};
    }

    method AppendAudit(a: string, from: int, to: int, op: Op, skipped: nat)
      modifies this`audit
      ensures audit == old(audit) + [Row(a, from, to, op, skipped)]
    {
      audit := audit + [Row(a, from, to, op, skipped)];
    }

    method AppendAll(a: string, ids: seq<int>, op: Op)
      modifies this`audit
      ensures audit == old(audit) + RowsFor(a, ids, op)
    {
      for i := 0 to |ids|
        invariant audit == old(audit) + RowsFor(a, ids[..i], op)
      {
        assert ids[..i + 1][..i] == ids[..i];
        AppendAudit(a, ids[i], ids[i], op, 0);
      }
      assert ids[..|ids|] == ids;
    }

    method Send(m: Msg) returns (r: Result<int>)
      modifies this`messages
      ensures (State(), r) == BusState.Send(w, old(State()), m)
    {
      hide SendFault;
      var fault := SendFault(w, m);
      match fault
      case Some(why) =>
        r := Err(why);
      case None =>
        var id := |messages| + 1;
        messages := messages + [m];
        if m.thread == "" {
          messages := messages[id - 1 := m.(thread := Digits(id))];
          assert messages == old(messages) + [m.(thread := Digits(id))];
        }
        r := Ok(id);
    }

    /** The rows of the page, judged one by one against the store as it grows. */
    method SiftRows(a: string, page: seq<int>, record: bool, g: Gate) returns (r: Sifted)
      requires g.Product? && InTable(State(), page)
      modifies this`seen
      ensures r == Sift(w, g, old(State()), a, page, record)
      ensures r.Sifted? ==> seen == r.seen
    {
      hide Check;
      var kept: seq<int>, rejected: seq<(int, string)> := [], [];
      ghost var b := State();
      for i := 0 to |page|
        invariant Sift(w, g, b, a, page[..i], record) == Sifted(kept, rejected, seen)
      {
        assert page[..i + 1][..i] == page[..i];
        var (v, store) := Check(w, g, seen, a, messages[page[i] - 1], record);
        if v.Raise? {
          RaisedStays(w, g, b, a, page, i + 1, record);
          return Raised;
        }
        seen := store;
        if v.Pass? {
          kept := kept + [page[i]];
        } else {
          rejected := rejected + [(page[i], v.why)];
        }
      }
      assert page[..|page|] == page;
      r := Sifted(kept, rejected, seen);
    }

    method NameRejects(a: string, rejected: seq<(int, string)>)
      modifies this`audit
      ensures audit == NewRejects(old(audit), a, rejected)
    {
      for i := 0 to |rejected|
        invariant audit == NewRejects(old(audit), a, rejected[..i])
      {
        assert rejected[..i + 1][..i] == rejected[..i];
        if !HasReject(audit, a, rejected[i].0) {
          AppendAudit(a, rejected[i].0, rejected[i].0, EnforceReject(rejected[i].1), 1);
        }
      }
      assert rejected[..|rejected|] == rejected;
    }

    method AppendRejects(a: string, rejected: seq<(int, string)>)
      modifies this`audit
      ensures audit == old(audit) + RejectRows(a, rejected)
    {
      for i := 0 to |rejected|
        invariant audit == old(audit) + RejectRows(a, rejected[..i])
      {
        assert rejected[..i + 1][..i] == rejected[..i];
        AppendAudit(a, rejected[i].0, rejected[i].0, EnforceReject(rejected[i].1), 1);
      }
      assert rejected[..|rejected|] == rejected;
    }

    method PeekPage(a: string, limit: int, g: Gate) returns (ids: seq<int>)
      modifies this`audit, this`seen
      ensures (State(), ids) == Peek(w, g, old(State()), a, limit)
    {
      hide Sift, NewRejects;
      PageInRange(State(), a, limit);
      var page := Page(State(), a, limit);
      if g.Dev? {
        return page;
      }
      var saved := seen;
      var s := SiftRows(a, page, false, g);
      seen := saved;
      if s.Raised? {
        return [];
      }
      NameRejects(a, s.rejected);
      ids := s.kept;
    }

    method Consume(a: string, limit: int, g: Gate) returns (ids: seq<int>)
      modifies this
      ensures (State(), ids) == Recv(w, g, old(State()), a, limit)
    {
      hide Sift, UpTo, Mine;
      PageInRange(State(), a, limit);
      var cur, page := CurOf(State(), a), Page(State(), a, limit);
      if g.Dev? {
        if page != [] {
          var top := page[|page| - 1];
          cursors := cursors[a := Cur(top, if cur.delivered > top then cur.delivered else top)];
          read := read + UpTo(Mine(messages, a), top);
          AppendAudit(a, cur.last, top, RecvMark, 0);
        }
        return page;
      }
      var saved := seen;
      var s := SiftRows(a, page, true, g);
      if s.Raised? {
        seen := saved;
        return [];
      }
      ids := s.kept;
      if page == [] {
        EmptySifts(w, g, old(State()), a, true);
        return;
      }
      var top := page[|page| - 1];
      var acc := if ids == [] then 0 else ids[|ids| - 1];
      cursors := cursors[a := Cur(top, if cur.delivered > acc then cur.delivered else acc)];
      read := read + (set i | i in ids);
      AppendRejects(a, s.rejected);
      AppendAudit(a, cur.last, top, RecvMark, |s.rejected|);
    }

    /** How far an ack may go: to the delivered mail under strict, else to the existing mail. */
    function AckLimit(a: string, strict: bool): int
      reads this
    {
      if strict then CurOf(State(), a).delivered else HighWater(messages, a)
    }

    /**
      The cursor now, and where an ack will put it: never back, and no further than asked
      for and allowed, but as far as that.
    */
    method AckPreview(a: string, upto: int, strict: bool) returns (base: int, to: int)
      ensures base == CurOf(State(), a).last <= to
      ensures to > base ==> to <= upto && to <= AckLimit(a, strict)
      ensures upto <= to || AckLimit(a, strict) <= to
      ensures CurOf(Ack(State(), a, upto, strict), a).last == to
    {
      hide HighWater, Mine, UpTo, Between;
      base := CurOf(State(), a).last;
      to := AckLimit(a, strict);
      if upto < to {
        to := upto;
      }
      if to < base {
        to := base;
      }
    }

    method Acknowledge(a: string, upto: int, strict: bool)
      modifies this
      ensures State() == Ack(old(State()), a, upto, strict)
    {
      var base, to := AckPreview(a, upto, strict);
      if to > base {
        var skipped := |Between(Mine(messages, a), base, to) - read|;
        AppendAudit(a, base, to, AckMove, skipped);
      }
      cursors := cursors[a := Cur(to, CurOf(State(), a).delivered)];
      read := read + UpTo(Mine(messages, a), to);
    }

    /** Rows above the cursor that may still come out, oldest first. */
    method PendingBlockingIds(a: string, g: Gate) returns (out: seq<int>)
      ensures forall n :: n in out <==> n in Blocking(w, g, State(), a)
      ensures forall i, j | 0 <= i < j < |out| :: out[i] < out[j]
    {
      hide Blocks, Pending;
      PendingRising(State(), a);
      var rows := Pending(State(), a);
      out := [];
      for i := 0 to |rows|
        invariant out == KeepBlocking(w, g, messages, rows[..i])
      {
        assert rows[..i + 1][..i] == rows[..i];
        if Blocks(w, g, messages[rows[i] - 1]) {
          out := out + [rows[i]];
        }
      }
      assert rows[..|rows|] == rows;
      KeepBlockingIs(w, g, messages, rows);
    }

    /** The water level once the given ids are read. */
    method Level(a: string, good: set<int>, g: Gate) returns (level: int)
      ensures level == WaterLevel(w, g, State(), a, good)
    {
      hide Mine, Blocking, HighWater, LeastOf;
      var pend := PendingBlockingIds(a, g);
      var blocking := set i | i in pend;
      var unread := Mine(messages, a) - (read + good * Mine(messages, a));
      var left := blocking * unread - good;
      assert forall n :: n in blocking <==> n in Blocking(w, g, State(), a);
      LevelIs(w, g, State(), a, good, blocking, left);
      level := if left == {} then HighWater(messages, a) else Least(left) - 1;
    }

    /** Read marks, water level and one row per id, in one transaction. */
    method MarkGood(a: string, good: set<int>, g: Gate)
      modifies this
      ensures var b := old(State());
              State() == b.(read := b.read + good * Mine(b.messages, a),
                            cursors := b.cursors[a := Cur(CurOf(b, a).last, WaterLevel(w, g, b, a, good))],
                            audit := b.audit + RowsFor(a, Sorted(good), RemoteDelivered))
    {
      hide WaterLevel, RowsFor, Mine, Sorted;
      var level := Level(a, good, g);
      read := read + good * Mine(messages, a);
      cursors := cursors[a := Cur(CurOf(State(), a).last, level)];
      AppendAll(a, Sorted(good), RemoteDelivered);
    }

    method MarkAsDelivered(a: string, ids: seq<int>, g: Gate)
      modifies this
      ensures State() == MarkDelivered(w, g, old(State()), a, ids)
    {
      hide RefusedIds, RowsFor, WaterLevel, Mine, Positive, Sorted;
      var given := Positive(ids);
      var refused := RefusedIds(w, g, State(), a, given);
      var good := given - refused;
      AppendAll(a, Sorted(refused), RemoteRefused);
      if good != {} {
        ghost var b := State();
        MarkGood(a, good, g);
        LevelFrame(w, g, old(State()), b, a, good);
      }
    }

    /** The lifeboat's list: what the cursor passed undelivered, and what enforcement still holds back. */
    method Reconcile(a: string) returns (out: seq<int>)
      ensures out == Sorted(Lost(State(), a))
    {
      hide Covers, Answered;
      var extra: set<int> := {};
      for i := 0 to |audit|
        invariant extra == OpenBelow(audit, a, i)
      {
        OpenBelowStep(audit, a, i);
        if IsReject(audit, a, i) {
          var closed := false;
          for j := i + 1 to |audit|
            invariant closed <==> exists k :: i < k < j && Covers(audit, a, k, audit[i].from)
          {
            if Covers(audit, a, j, audit[i].from) {
              closed := true;
            }
          }
          assert closed <==> !Open(audit, a, i);
          if !closed {
            extra := extra + {audit[i].from};
          }
        }
      }
      assert extra == OpenRejects(audit, a);
      var cur := CurOf(State(), a);
      var have := set i | i in Mine(messages, a) && messages[i - 1].kind != "replay" && i !in Answered(messages)
                          && cur.delivered < i <= cur.last;
      var more := set i | i in extra - have - Answered(messages) && i in Mine(messages, a)
                          && messages[i - 1].kind != "replay";
      assert have + more == Lost(State(), a);
      out := Sorted(have + more);
    }

    /** One candidate of a committed replay; false where `send` refuses the wrapped copy. */
    method ReplayCandidate(a: string, id: int, g: Gate) returns (ok: bool)
      requires 1 <= id <= |messages|
      modifies this`messages, this`audit
      ensures match ReplayOne(w, g, old(State()), a, id)
              case Some(b) => ok && State() == b
              case None => !ok && State() == old(State())
    {
      hide Carries, SendFault, ReplayedFrom, Copy;
      var m := messages[id - 1];
      ok := true;
      if Carries(w, g, m) {
        if g.Product? && m.sig != "" {
          if !ReplayedFrom(audit, a, id) {
            var copy := |messages| + 1;
            messages := messages + [if m.thread == "" then m.(thread := Digits(copy)) else m];
            SignedCopy(g, m, id);
            AppendAudit(a, id, copy, Replayed, 0);
          }
        } else {
          StampIsNoFault(w, g, State(), m, id);
          var r := Send(Stamped(w, g, State(), m, id));
          if r.Err? {
            return false;
          }
          AppendAudit(a, id, r.value, Replayed, 0);
        }
      }
    }

    /** The loop of a committed replay; it stops where `send` refuses a wrapped copy. */
    method ReplayLost(a: string, limit: int, g: Gate)
      modifies this
      ensures State() == Replay(w, g, old(State()), a, limit)
    {
      hide Lost, KeepFree, ReplayOne, GateWorks, Involved;
      var lost := Reconcile(a);
      var ids := KeepFree(Take(lost, limit), Involved(audit, a));
      if !GateWorks(w, g, State(), ids) {
        return;
      }
      for i := 0 to |ids|
        invariant ReplayAll(w, g, old(State()), a, ids) == ReplayAll(w, g, State(), a, ids[i..])
      {
        assert ids[i..][0] == ids[i] && ids[i..][1..] == ids[i + 1..];
        if !(1 <= ids[i] <= |messages|) {
          return;
        }
        var ok := ReplayCandidate(a, ids[i], g);
        if !ok {
          return;
        }
      }
    }
  }
}
