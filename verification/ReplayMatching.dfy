/**
  Committed replays over whole runs (agent_bus.py): each original is carried again
  at most once, and no copy is ever carried again.
*/
module ReplayMatching {
  import opened Wrappers
  import opened IntSets
  import opened BusState
  import opened Enforce
  import opened BusOps

  predicate IsReplay(rows: seq<Row>, i: int) { 0 <= i < |rows| && rows[i].op == Replayed }

  /** A copy is the signed original unchanged, or a wrapped message that answers it. */
  predicate CopyOf(m: Msg, copy: Msg, id: int) {
    && copy.recipient == m.recipient
    && ((copy.(thread := m.thread) == m && m.sig != "")
        || (copy.sender == "system" && copy.kind == "replay" && copy.inReplyTo == Some(id)))
  }

  /** The row joins an earlier message of the agent to a later copy of it. */
  predicate Joins(b: Bus, r: Row) {
    && 1 <= r.from < r.to <= |b.messages|
    && b.messages[r.from - 1].recipient == r.agent
    && CopyOf(b.messages[r.from - 1], b.messages[r.to - 1], r.from)
  }

  /** Two replay rows share no message. */
  predicate Apart(r: Row, q: Row) { r.from != q.from && r.from != q.to && r.to != q.from && r.to != q.to }

  /** The replay rows are a matching of originals to copies. */
  predicate Matching(b: Bus) {
    && (forall i | 0 <= i < |b.audit| && IsReplay(b.audit, i) :: Joins(b, b.audit[i]))
    && (forall i, j | 0 <= i < j < |b.audit| && IsReplay(b.audit, i) && IsReplay(b.audit, j) ::
          Apart(b.audit[i], b.audit[j]))
  }

  // ------------------------------------------------------------- other operations

  /** Steps that add messages, and rows that are not replays. */
  predicate NoReplayAdded(b: Bus, c: Bus) {
    && b.messages <= c.messages && b.audit <= c.audit
    && forall i | |b.audit| <= i < |c.audit| :: !IsReplay(c.audit, i)
  }

  lemma MatchingStays(b: Bus, c: Bus)
    requires Matching(b) && NoReplayAdded(b, c)
    ensures Matching(c)
  {
    hide CopyOf, Apart;
    forall i | 0 <= i < |c.audit| && IsReplay(c.audit, i) ensures i < |b.audit| && Joins(c, c.audit[i]) {
      assert IsReplay(b.audit, i);
      assert Joins(b, b.audit[i]);
    }
    forall i, j | 0 <= i < j < |c.audit| && IsReplay(c.audit, i) && IsReplay(c.audit, j)
      ensures Apart(c.audit[i], c.audit[j]) {
      assert IsReplay(b.audit, i) && IsReplay(b.audit, j);
    }
  }

  predicate Plain(rows: seq<Row>) { forall i | 0 <= i < |rows| :: rows[i].op != Replayed }

  lemma PlainAdded(b: Bus, c: Bus, rows: seq<Row>)
    requires b.messages <= c.messages && c.audit == b.audit + rows && Plain(rows)
    ensures NoReplayAdded(b, c)
  {
  }

  lemma {:induction false} PeekRows(b: Bus, a: string, rejected: seq<(int, string)>)
    ensures NoReplayAdded(b, b.(audit := NewRejects(b.audit, a, rejected)))
  {
    hide HasReject;
    if rejected != [] {
      var so := NewRejects(b.audit, a, rejected[..|rejected| - 1]);
      PeekRows(b, a, rejected[..|rejected| - 1]);
      var r := rejected[|rejected| - 1];
      var next := NewRejects(b.audit, a, rejected);
      assert next == so || next == so + [Row(a, r.0, r.0, EnforceReject(r.1), 1)];
      assert forall i | 0 <= i < |so| :: IsReplay(next, i) <==> IsReplay(so, i);
    }
  }

  lemma RecvAdds(w: World, b: Bus, a: string, limit: int, g: Gate)
    ensures NoReplayAdded(b, Recv(w, g, b, a, limit).0)
  {
    hide Page, UpTo, Mine, SiftPage, CurOf;
    var c := Recv(w, g, b, a, limit).0;
    if c != b {
      var page := Page(b, a, limit);
      var top := page[|page| - 1];
      if g.Dev? {
        PlainAdded(b, c, [Row(a, CurOf(b, a).last, top, RecvMark, 0)]);
      } else {
        var rejected := SiftPage(w, g, b, a, limit, true).rejected;
        var rows := RejectRows(a, rejected);
        var r := Row(a, CurOf(b, a).last, top, RecvMark, |rejected|);
        assert b.audit + rows + [r] == b.audit + (rows + [r]);
        PlainAdded(b, c, rows + [r]);
      }
    }
  }

  lemma AckAdds(b: Bus, a: string, upto: int, strict: bool)
    ensures NoReplayAdded(b, Ack(b, a, upto, strict))
  {
    hide AckTarget, UpTo, Between, Mine, CurOf;
  }

  lemma PlainRows(a: string, ids: seq<int>, op: Op)
    requires op != Replayed
    ensures Plain(RowsFor(a, ids, op))
  {
  }

  /** The rows a delivery report adds. */
  function MarkRows(w: World, g: Gate, b: Bus, a: string, ids: seq<int>): seq<Row> {
    var refused := RefusedIds(w, g, b, a, Positive(ids));
    var x := RowsFor(a, Sorted(refused), RemoteRefused);
    if Positive(ids) - refused == {} then x else x + RowsFor(a, Sorted(Positive(ids) - refused), RemoteDelivered)
  }

  lemma MarkFieldsAdded(w: World, b: Bus, a: string, ids: seq<int>, g: Gate)
    ensures MarkDelivered(w, g, b, a, ids).messages == b.messages
    ensures MarkDelivered(w, g, b, a, ids).audit == b.audit + MarkRows(w, g, b, a, ids)
  {
    hide RefusedIds, WaterLevel, Mine, CurOf, Positive, RowsFor, Sorted;
    var refused := RefusedIds(w, g, b, a, Positive(ids));
    Assoc(b.audit, RowsFor(a, Sorted(refused), RemoteRefused), RowsFor(a, Sorted(Positive(ids) - refused), RemoteDelivered));
  }

  lemma Assoc(x: seq<Row>, y: seq<Row>, z: seq<Row>)
    ensures x + y + z == x + (y + z)
  {
  }

  lemma MarkRowsPlain(w: World, b: Bus, a: string, ids: seq<int>, g: Gate)
    ensures Plain(MarkRows(w, g, b, a, ids))
  {
    hide RefusedIds, Positive, RowsFor, Sorted;
    var refused := RefusedIds(w, g, b, a, Positive(ids));
    PlainRows(a, Sorted(refused), RemoteRefused);
    PlainRows(a, Sorted(Positive(ids) - refused), RemoteDelivered);
  }

  lemma MarkAdds(w: World, b: Bus, a: string, ids: seq<int>, g: Gate)
    ensures NoReplayAdded(b, MarkDelivered(w, g, b, a, ids))
  {
    hide MarkDelivered, MarkRows, Plain;
    MarkFieldsAdded(w, b, a, ids, g);
    MarkRowsPlain(w, b, a, ids, g);
    PlainAdded(b, MarkDelivered(w, g, b, a, ids), MarkRows(w, g, b, a, ids));
  }

  lemma OtherStepsAdd(w: World, b: Bus, e: Event)
    requires !e.Replays?
    ensures NoReplayAdded(b, Step(w, b, e))
  {
    hide SendFault, Recv, Ack, MarkDelivered, SiftPage;
    match e
    case Sent(m) =>
    case Peeked(a, limit, g) =>
      if g.Product? && SiftPage(w, g, b, a, limit, false).Sifted? {
        PeekRows(b, a, SiftPage(w, g, b, a, limit, false).rejected);
      }
    case Received(a, limit, g) =>
      RecvAdds(w, b, a, limit, g);
    case Acked(a, upto, strict) =>
      AckAdds(b, a, upto, strict);
    case Marked(a, ids, g) =>
      MarkAdds(w, b, a, ids, g);
  }

  // --------------------------------------------------------------------- replays

  /** No replay row mentions the message. */
  predicate Clear(rows: seq<Row>, id: int) {
    forall i | 0 <= i < |rows| && IsReplay(rows, i) :: rows[i].from != id && rows[i].to != id
  }

  lemma FreeIsClear(b: Bus, a: string, id: int)
    requires Matching(b) && id in Mine(b.messages, a) && id !in Involved(b.audit, a)
    ensures Clear(b.audit, id)
  {
    forall i | 0 <= i < |b.audit| && IsReplay(b.audit, i) ensures b.audit[i].from != id && b.audit[i].to != id {
      var r := b.audit[i];
      assert Joins(b, r);
      assert r.agent == a ==> r.from in Involved(b.audit, a) && r.to in Involved(b.audit, a);
    }
  }

  lemma ReplayOneJoins(w: World, g: Gate, b: Bus, a: string, id: int)
    requires Matching(b) && id in Mine(b.messages, a) && Clear(b.audit, id)
    requires ReplayOne(w, g, b, a, id).Some?
    ensures var c := ReplayOne(w, g, b, a, id).value;
            && Matching(c) && b.messages <= c.messages
            && (c == b || c.audit == b.audit + [Row(a, id, |b.messages| + 1, Replayed, 0)])
  {
    var c := ReplayOne(w, g, b, a, id).value;
    if c != b {
      var m, r := b.messages[id - 1], Row(a, id, |b.messages| + 1, Replayed, 0);
      assert c.messages[|b.messages|].(thread := m.thread) == Stamped(w, g, b, m, id).(thread := m.thread);
      assert CopyOf(m, c.messages[|b.messages|], id);
      assert c.audit == b.audit + [r];
      hide Carries, SendFault, ReplayedFrom, ReplayOne, CopyOf, Copy;
      JoinMore(b, c, r);
    }
  }

  lemma JoinMore(b: Bus, c: Bus, r: Row)
    requires Matching(b) && b.messages <= c.messages && c.audit == b.audit + [r]
    requires r.op == Replayed && Joins(c, r) && r.to == |b.messages| + 1 && Clear(b.audit, r.from)
    ensures Matching(c)
  {
    hide CopyOf;
    forall i | 0 <= i < |b.audit| && IsReplay(b.audit, i) ensures Joins(c, b.audit[i]) && Apart(b.audit[i], r) {
      assert Joins(b, b.audit[i]);
    }
    assert forall i | 0 <= i < |b.audit| :: c.audit[i] == b.audit[i] && (IsReplay(c.audit, i) <==> IsReplay(b.audit, i));
    assert c.audit[|b.audit|] == r;
  }

  predicate Rising(ids: seq<int>) { forall i, j | 0 <= i < j < |ids| :: ids[i] < ids[j] }

  lemma {:induction false} ReplayAllJoins(w: World, g: Gate, b: Bus, a: string, ids: seq<int>)
    requires Matching(b) && Rising(ids)
    requires forall k | 0 <= k < |ids| :: ids[k] in Mine(b.messages, a) && Clear(b.audit, ids[k])
    ensures Matching(ReplayAll(w, g, b, a, ids))
    decreases |ids|
  {
    hide Matching, ReplayOne;
    if ids != [] && ReplayOne(w, g, b, a, ids[0]).Some? {
      ReplayOneJoins(w, g, b, a, ids[0]);
      var c := ReplayOne(w, g, b, a, ids[0]).value;
      forall k | 0 <= k < |ids[1..]| ensures ids[1..][k] in Mine(c.messages, a) && Clear(c.audit, ids[1..][k]) {
        assert ids[1..][k] == ids[k + 1];
        StillClear(b, c, a, ids[0], ids[k + 1]);
      }
      ReplayAllJoins(w, g, c, a, ids[1..]);
    }
  }

  lemma StillClear(b: Bus, c: Bus, a: string, first: int, id: int)
    requires b.messages <= c.messages
    requires c == b || c.audit == b.audit + [Row(a, first, |b.messages| + 1, Replayed, 0)]
    requires id in Mine(b.messages, a) && Clear(b.audit, id) && first < id
    ensures id in Mine(c.messages, a) && Clear(c.audit, id)
  {
    assert IsFor(c.messages, id, a);
    if c != b {
      assert forall i | 0 <= i < |b.audit| :: c.audit[i] == b.audit[i] && (IsReplay(c.audit, i) <==> IsReplay(b.audit, i));
    }
  }

  lemma {:induction false} KeepFreeIs(ids: seq<int>, gone: set<int>)
    requires Rising(ids)
    ensures Rising(KeepFree(ids, gone))
    ensures forall n :: n in KeepFree(ids, gone) <==> n in ids && n !in gone
  {
    if ids != [] {
      var init := ids[..|ids| - 1];
      KeepFreeIs(init, gone);
      assert ids == init + [ids[|ids| - 1]];
      var so := KeepFree(init, gone);
      assert forall i | 0 <= i < |so| :: so[i] in so;
    }
  }

  lemma CandidatesAre(b: Bus, a: string, limit: int)
    ensures Rising(Candidates(b, a, limit))
    ensures forall n | n in Candidates(b, a, limit) :: n in Lost(b, a) && n !in Involved(b.audit, a)
    ensures limit >= |Lost(b, a)| ==>
              forall n | n in Lost(b, a) && n !in Involved(b.audit, a) :: n in Candidates(b, a, limit)
  {
    hide Lost, Involved;
    var all := Sorted(Lost(b, a));
    var some := Take(all, limit);
    assert some == all[..|some|];
    KeepFreeIs(some, Involved(b.audit, a));
    forall n | n in some ensures n in Lost(b, a) {
      assert n in all;
    }
  }

  lemma ReplayKeepsMatching(w: World, g: Gate, b: Bus, a: string, limit: int)
    requires Matching(b)
    ensures Matching(Replay(w, g, b, a, limit))
  {
    hide Matching, Candidates, ReplayAll, GateWorks;
    CandidatesAre(b, a, limit);
    var ids := Candidates(b, a, limit);
    forall k | 0 <= k < |ids| ensures ids[k] in Mine(b.messages, a) && Clear(b.audit, ids[k]) {
      assert ids[k] in ids;
      FreeIsClear(b, a, ids[k]);
    }
    ReplayAllJoins(w, g, b, a, ids);
  }

  /**
    In every state of a run the replay rows match originals to copies one to one:
    no original is carried twice, and no copy is ever an original.
  */
  lemma {:induction false} ReplaysAreAMatching(w: World, events: seq<Event>)
    ensures Matching(Run(w, events))
  {
    hide Matching, Step, Replay;
    if events == [] {
      NoRowsMatch();
    } else {
      var init, e := events[..|events| - 1], events[|events| - 1];
      ReplaysAreAMatching(w, init);
      StepKeepsMatching(w, Run(w, init), e);
    }
  }

  lemma NoRowsMatch()
    ensures Matching(EMPTY)
  {
  }

  lemma StepKeepsMatching(w: World, b: Bus, e: Event)
    requires Matching(b)
    ensures Matching(Step(w, b, e))
  {
    hide Matching, Replay, Send, Recv, Peek, Ack, MarkDelivered;
    if e.Replays? {
      ReplayKeepsMatching(w, e.g, b, e.a, e.limit);
    } else {
      OtherStepsAdd(w, b, e);
      MatchingStays(b, Step(w, b, e));
    }
  }

  // ----------------------------------------------------------------- completeness

  /**
    A dev-mode replay of the whole list carries every lost message that no earlier
    replay involved, as long as `send` accepts the wrapped copies.
  */
  lemma ReplayCarriesAllLost(w: World, g: Gate, b: Bus, a: string, limit: int)
    requires g.Dev? && limit >= |Lost(b, a)|
    requires forall i | i in Lost(b, a) :: SendFault(w, Copy(g, b.messages[i - 1], i)).None?
    ensures forall i | i in Lost(b, a) && i !in Involved(b.audit, a) ::
              ReplayedFrom(Replay(w, g, b, a, limit).audit, a, i)
  {
    hide Lost, Involved, ReplayAll, SendFault, Copy;
    CandidatesAre(b, a, limit);
    var ids := Candidates(b, a, limit);
    hide Candidates;
    forall k | 0 <= k < |ids|
      ensures 1 <= ids[k] <= |b.messages| && SendFault(w, Copy(g, b.messages[ids[k] - 1], ids[k])).None? {
      assert ids[k] in ids;
      LostInTable(b, a, ids[k]);
    }
    AllCarried(w, g, b, a, ids);
    forall i | i in Lost(b, a) && i !in Involved(b.audit, a)
      ensures ReplayedFrom(Replay(w, g, b, a, limit).audit, a, i) {
      var k :| 0 <= k < |ids| && ids[k] == i;
    }
  }

  lemma LostInTable(b: Bus, a: string, id: int)
    requires id in Lost(b, a)
    ensures 1 <= id <= |b.messages|
  {
  }

  lemma {:induction false} AllCarried(w: World, g: Gate, b: Bus, a: string, ids: seq<int>)
    requires g.Dev?
    requires forall k | 0 <= k < |ids| ::
               1 <= ids[k] <= |b.messages| && SendFault(w, Copy(g, b.messages[ids[k] - 1], ids[k])).None?
    ensures b.audit <= ReplayAll(w, g, b, a, ids).audit
    ensures forall k | 0 <= k < |ids| :: ReplayedFrom(ReplayAll(w, g, b, a, ids).audit, a, ids[k])
    decreases |ids|
  {
    hide SendFault, Copy;
    if ids != [] {
      var c := ReplayOne(w, g, b, a, ids[0]).value;
      assert b.messages <= c.messages;
      forall k | 0 <= k < |ids[1..]|
        ensures 1 <= ids[1..][k] <= |c.messages|
             && SendFault(w, Copy(g, c.messages[ids[1..][k] - 1], ids[1..][k])).None? {
        assert ids[1..][k] == ids[k + 1];
        assert c.messages[ids[k + 1] - 1] == b.messages[ids[k + 1] - 1];
      }
      AllCarried(w, g, c, a, ids[1..]);
      var d := ReplayAll(w, g, b, a, ids);
      assert c.audit[|b.audit|] == Row(a, ids[0], |b.messages| + 1, Replayed, 0);
      assert d.audit[|b.audit|] == c.audit[|b.audit|];
      forall k | 0 <= k < |ids| ensures ReplayedFrom(d.audit, a, ids[k]) {
        if k > 0 {
          assert ids[1..][k - 1] == ids[k];
        }
      }
    }
  }
}
