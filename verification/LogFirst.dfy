/**
  Whatever fails in a round, nothing takes effect unlogged (bus_ssh_exchange.py):
  each insert and each move of the cursor directly follows its own log entry, and
  replies leave only behind a `delivered` entry for each of them.
*/
module LogFirst {
  import opened Wrappers
  import opened CanonicalJson
  import opened NotaryLog
  import opened BusState
  import opened Enforce
  import opened BusOps
  import opened Exchange

  /** The entry states the line: who, for whom, what, and the hash of the envelope. */
  predicate States(h: Host, q: Request, e: Entry, l: Line) {
    && e.sender == q.identity && e.recipient == l.recipient && e.kind == l.kind && e.decision == l.decision
    && e.envSha == EnvelopeSha(h.c, l.env)
    && (l.kind != "pickup" && l.kind != "round_close" ==>
          e.cursor == if l.cursor.Some? then Some(Obj(l.cursor.value)) else None)
  }

  /** An accepted entry for exactly this message, addressed and typed as the inserted row. */
  predicate ReceiptOf(h: Host, q: Request, e: Entry, m: Json, row: Msg) {
    && e.sender == q.identity && e.decision == "accepted" && e.recipient == row.recipient && e.kind == row.kind
    && e.envSha == EnvelopeSha(h.c, m)
  }

  predicate AckOf(q: Request, e: Entry, from: int, to: int) {
    && e.kind == "ack" && e.decision == "accepted" && e.recipient == q.identity
    && Field(CursorOf(e), "from") == Int(from) && Field(CursorOf(e), "to") == Int(to)
  }

  predicate DeliveryOf(h: Host, q: Request, e: Entry, reply: Json) {
    && e.kind == "pickup" && e.decision == "delivered" && e.recipient == q.identity
    && e.envSha == EnvelopeSha(h.c, reply)
  }

  /** From position k on, the trace logs the delivery of each reply. */
  predicate BlockAt(h: Host, q: Request, trace: seq<Effect>, k: nat, replies: seq<Json>) {
    k + |replies| <= |trace|
    && forall i | k <= i < k + |replies| :: trace[i].Logged? && DeliveryOf(h, q, trace[i].e, replies[i - k])
  }

  predicate Backed(h: Host, q: Request, trace: seq<Effect>, i: nat)
    requires i < |trace|
  {
    match trace[i]
    case Logged(_) => true
    case Inserted(m, row) => i > 0 && trace[i - 1].Logged? && ReceiptOf(h, q, trace[i - 1].e, m, row)
    case Moved(from, to) => i > 0 && trace[i - 1].Logged? && AckOf(q, trace[i - 1].e, from, to)
    case Left(replies) => exists k :: 0 <= k <= i && BlockAt(h, q, trace[..i], k, replies)
  }

  /** Every effect is backed by what the trace holds before it: so it is in every prefix. */
  predicate AllBacked(h: Host, q: Request, trace: seq<Effect>) { forall i | 0 <= i < |trace| :: Backed(h, q, trace, i) }

  lemma BackedMore(h: Host, q: Request, trace: seq<Effect>, x: Effect)
    requires AllBacked(h, q, trace) && Backed(h, q, trace + [x], |trace|)
    ensures AllBacked(h, q, trace + [x])
  {
    hide ReceiptOf, AckOf, BlockAt;
    var t := trace + [x];
    forall i | 0 <= i < |trace| ensures Backed(h, q, t, i) {
      assert Backed(h, q, trace, i);
      assert t[..i] == trace[..i];
      assert i > 0 ==> t[i - 1] == trace[i - 1];
    }
  }

  // ---------------------------------------------------------------- one note

  /** A note adds its entry, unless it fails; then it adds at most that, and the round stops. */
  predicate Wrote(h: Host, q: Request, k: Work, k1: Work, l: Line) {
    && k1.bus == k.bus && k1.accepted == k.accepted && k1.replies == k.replies && k1.rejected == k.rejected
    && (k1.trace == k.trace
        || (|k1.trace| == |k.trace| + 1 && k1.trace[..|k.trace|] == k.trace && k1.trace[|k.trace|].Logged?
            && States(h, q, k1.trace[|k.trace|].e, l)))
    && (k1.trace == k.trace ==> k1.stopped)
  }

  lemma WriteLogs(h: Host, q: Request, k: Work, l: Line)
    ensures Wrote(h, q, k, Write(h, q, k, l), l)
  {
    hide EntryHash, MakeCkpt, TailOf, EnvelopeSha;
    if !k.stopped && !q.f.note(k.notes) {
      var n := NoteOf(q, k.notes, l);
      var e := Sealed(h.c, TailOf(k.file), n);
      if e.Ok? {
        assert Write(h, q, k, l).trace == k.trace + [Logged(e.value)];
      }
    }
  }

  lemma WriteKeepsBacked(h: Host, q: Request, k: Work, l: Line)
    requires AllBacked(h, q, k.trace)
    ensures AllBacked(h, q, Write(h, q, k, l).trace)
  {
    WriteLogs(h, q, k, l);
    hide Write, AllBacked, States;
    var k1 := Write(h, q, k, l);
    if k1.trace != k.trace {
      assert k1.trace == k.trace + [k1.trace[|k.trace|]];
      BackedMore(h, q, k.trace, k1.trace[|k.trace|]);
    }
  }

  // ---------------------------------------------------------------- the parts

  lemma AckBacked(h: Host, q: Request, k: Work)
    requires AllBacked(h, q, k.trace)
    ensures AllBacked(h, q, AckPart(h, q, k).trace)
  {
    hide AllBacked, Write, AckTarget, Ack, Wrote, AckLine, AckFailedLine;
    if !k.stopped && q.ack > 0 {
      var from, to := CurOf(k.bus, q.identity).last, AckTarget(k.bus, q.identity, q.ack, q.strict);
      var k1 := Write(h, q, k, AckLine(q, from, to));
      WriteKeepsBacked(h, q, k, AckLine(q, from, to));
      WriteKeepsBacked(h, q, k1, AckFailedLine(q, from, to));
      WriteLogs(h, q, k, AckLine(q, from, to));
      if !k1.stopped {
        MoveBacked(h, q, k, k1, from, to);
      }
    }
  }

  lemma AckLineReads(h: Host, q: Request, e: Entry, from: int, to: int)
    requires States(h, q, e, AckLine(q, from, to))
    ensures AckOf(q, e, from, to)
  {
    hide EnvelopeSha;
    var m := map["from" := Int(from), "to" := Int(to), "ack" := Int(q.ack)];
    assert |"from"| == 4 && |"to"| == 2 && |"ack"| == 3;
    assert m["from"] == Int(from) && m["to"] == Int(to);
    assert e.cursor == Some(Obj(m));
  }

  lemma MoveBacked(h: Host, q: Request, k: Work, k1: Work, from: int, to: int)
    requires Wrote(h, q, k, k1, AckLine(q, from, to)) && !k1.stopped && AllBacked(h, q, k1.trace)
    ensures AllBacked(h, q, k1.trace + [Moved(from, to)])
  {
    hide AllBacked, States, AckOf, AckLine;
    var e := k1.trace[|k.trace|].e;
    AckLineReads(h, q, e, from, to);
    BackedMore(h, q, k1.trace, Moved(from, to));
  }

  lemma MessageBacked(h: Host, q: Request, k: Work, i: nat, m: Json)
    requires AllBacked(h, q, k.trace)
    ensures AllBacked(h, q, MessageStep(h, q, k, i, m).trace)
  {
    hide AllBacked, Write, SendFault, Wrote, MessageLine, MalformedLine, RowOf;
    WriteKeepsBacked(h, q, k.(rejected := k.rejected + [i]), MalformedLine(h, m));
    WriteKeepsBacked(h, q, k.(rejected := k.rejected + [i]), MessageLine(h, m, "rejected", "unsigned-pinned"));
    var k1 := Write(h, q, k, MessageLine(h, m, "accepted", ""));
    WriteKeepsBacked(h, q, k, MessageLine(h, m, "accepted", ""));
    WriteLogs(h, q, k, MessageLine(h, m, "accepted", ""));
    WriteKeepsBacked(h, q, k1.(rejected := k1.rejected + [i]), MessageLine(h, m, "rejected", "send_failed"));
    if !k.stopped && !k1.stopped && Shaped(m) {
      InsertBacked(h, q, k, k1, i, m);
    }
  }

  lemma InsertBacked(h: Host, q: Request, k: Work, k1: Work, i: nat, m: Json)
    requires Wrote(h, q, k, k1, MessageLine(h, m, "accepted", "")) && !k1.stopped && AllBacked(h, q, k1.trace)
    ensures AllBacked(h, q, k1.trace + [Inserted(m, RowOf(h, q, i, m))])
  {
    hide AllBacked, EnvelopeSha, TextField, Field;
    var e := k1.trace[|k.trace|].e;
    assert ReceiptOf(h, q, e, m, RowOf(h, q, i, m));
    BackedMore(h, q, k1.trace, Inserted(m, RowOf(h, q, i, m)));
  }

  lemma {:induction false} MessagesBacked(h: Host, q: Request, k: Work, n: nat)
    requires n <= |q.messages| && AllBacked(h, q, k.trace)
    ensures AllBacked(h, q, MessagesPart(h, q, k, n).trace)
  {
    hide AllBacked, MessageStep;
    if n > 0 {
      MessagesBacked(h, q, k, n - 1);
      MessageBacked(h, q, MessagesPart(h, q, k, n - 1), n - 1, q.messages[n - 1]);
    }
  }

  /** One entry per reply, in order, unless the round stopped. */
  lemma {:induction false} DeliveredBlock(h: Host, q: Request, k: Work, replies: seq<Json>)
    requires AllBacked(h, q, k.trace)
    ensures var k1 := DeliveredPart(h, q, k, replies);
            && k.trace <= k1.trace && AllBacked(h, q, k1.trace)
            && (!k1.stopped ==> BlockAt(h, q, k1.trace, |k.trace|, replies) && |k1.trace| == |k.trace| + |replies|)
  {
    hide AllBacked, Write, EnvelopeSha;
    if replies != [] {
      var init, last := replies[..|replies| - 1], replies[|replies| - 1];
      var so := DeliveredPart(h, q, k, init);
      DeliveredBlock(h, q, k, init);
      WriteKeepsBacked(h, q, so, DeliveredLine(q, last));
      WriteLogs(h, q, so, DeliveredLine(q, last));
      var k1 := DeliveredPart(h, q, k, replies);
      if !k1.stopped {
        StoppedStays(h, q, so, DeliveredLine(q, last));
        assert !so.stopped;
        var e := k1.trace[|so.trace|].e;
        DeliveredStates(h, q, e, last);
        assert k1.trace == so.trace + [Logged(e)];
        hide DeliveredPart, States, Wrote;
        BlockGrows(h, q, so.trace, |k.trace|, init, e, last);
        assert init + [last] == replies;
      }
    }
  }

  lemma BlockGrows(h: Host, q: Request, trace: seq<Effect>, k: nat, replies: seq<Json>, e: Entry, last: Json)
    requires BlockAt(h, q, trace, k, replies) && |trace| == k + |replies| && DeliveryOf(h, q, e, last)
    ensures BlockAt(h, q, trace + [Logged(e)], k, replies + [last])
  {
    hide DeliveryOf;
  }

  lemma BlockLonger(h: Host, q: Request, trace: seq<Effect>, longer: seq<Effect>, k: nat, replies: seq<Json>)
    requires BlockAt(h, q, trace, k, replies) && trace <= longer
    ensures BlockAt(h, q, longer, k, replies)
  {
    hide DeliveryOf;
  }

  lemma DeliveredStates(h: Host, q: Request, e: Entry, reply: Json)
    requires States(h, q, e, DeliveredLine(q, reply))
    ensures DeliveryOf(h, q, e, reply)
  {
    hide EnvelopeSha;
  }

  lemma StoppedStays(h: Host, q: Request, k: Work, l: Line)
    ensures k.stopped ==> Write(h, q, k, l) == k
  {
  }

  /** Steps that only add log entries. */
  predicate Extends(k: Work, k1: Work) {
    k.trace <= k1.trace && forall i | |k.trace| <= i < |k1.trace| :: k1.trace[i].Logged?
  }

  lemma MarkExtends(h: Host, q: Request, k: Work, ids: seq<int>)
    requires AllBacked(h, q, k.trace)
    ensures Extends(k, MarkPart(h, q, k, ids)) && AllBacked(h, q, MarkPart(h, q, k, ids).trace)
    ensures k.stopped ==> MarkPart(h, q, k, ids).stopped
  {
    hide AllBacked, Write, MarkDelivered, States;
    WriteLogs(h, q, k, MarkFailedLine(q));
    WriteKeepsBacked(h, q, k, MarkFailedLine(q));
  }

  lemma CloseExtends(h: Host, q: Request, k: Work, replies: nat, round: int)
    requires AllBacked(h, q, k.trace)
    ensures Extends(k, ClosePart(h, q, k, replies, round)) && AllBacked(h, q, ClosePart(h, q, k, replies, round).trace)
    ensures k.stopped ==> ClosePart(h, q, k, replies, round).stopped
  {
    hide AllBacked, Write, States, CloseLine;
    var l := CloseLine(q, CurOf(k.bus, q.identity).last, replies, round);
    WriteLogs(h, q, k, l);
    WriteKeepsBacked(h, q, k, l);
  }

  lemma HandOutBacked(h: Host, q: Request, k: Work, ids: seq<int>, u: Queue)
    requires AllBacked(h, q, k.trace) && !k.stopped
    ensures AllBacked(h, q, HandOut(h, q, k, ids, u).trace)
  {
    hide AllBacked, Write, DeliveredPart, MarkPart, ClosePart, RoundLine, RepliesOf, LastRoundCursor, TailOf, Entries;
    var at, replies := CurOf(k.bus, q.identity).last, RepliesOf(q, k.bus, ids);
    var logged := replies != [] || at != LastRoundCursor(Entries(k.file), q.identity);
    WriteKeepsBacked(h, q, k, RoundLine(h, q, at, replies, u));
    var k1 := if logged then Write(h, q, k, RoundLine(h, q, at, replies, u)) else k;
    var k2 := DeliveredPart(h, q, k1, replies);
    DeliveredBlock(h, q, k1, replies);
    var k3 := MarkPart(h, q, k2, ids);
    MarkExtends(h, q, k2, ids);
    CloseExtends(h, q, k3, |replies|, TailOf(k1.file).seqNo);
    var k4 := if logged then ClosePart(h, q, k3, |replies|, TailOf(k1.file).seqNo) else k3;
    if !k4.stopped {
      assert !k3.stopped && !k2.stopped;
      BlockLonger(h, q, k2.trace, k4.trace, |k1.trace|, replies);
      LeaveBacked(h, q, k4.trace, |k1.trace|, replies);
    }
  }

  lemma LeaveBacked(h: Host, q: Request, trace: seq<Effect>, k: nat, replies: seq<Json>)
    requires AllBacked(h, q, trace) && BlockAt(h, q, trace, k, replies)
    ensures AllBacked(h, q, trace + [Left(replies)])
  {
    hide AllBacked, DeliveryOf;
    var t := trace + [Left(replies)];
    assert t[..|trace|] == trace;
    BackedMore(h, q, trace, Left(replies));
  }

  /** In every round, every effect of the trace is backed by what was logged before it. */
  lemma RoundIsLogFirst(h: Host, q: Request, bus: Bus, file: seq<Record>)
    ensures AllBacked(h, q, Round(h, q, bus, file).trace)
  {
    hide AckPart, MessagesPart, HandOut, Peek, Shown, QueueOf;
    var k0 := Work(bus, file, [], 0, false, [], [], [], false);
    AckBacked(h, q, k0);
    var k1 := MessagesPart(h, q, AckPart(h, q, k0), |q.messages|);
    MessagesBacked(h, q, AckPart(h, q, k0), |q.messages|);
    hide AllBacked;
    if !k1.stopped && !q.f.peek {
      var (bus1, rows) := Peek(h.w, q.gate, k1.bus, q.identity, MAX_REPLIES);
      var ids := Shown(q, bus1, rows);
      if q.f.pend {
        HandOutBacked(h, q, k1.(bus := bus1), ids, Unmeasured);
      } else {
        var (bus2, more) := Peek(h.w, q.gate, bus1, q.identity, PEND_LIMIT + 1);
        HandOutBacked(h, q, k1.(bus := bus2), ids, QueueOf(q, ids, Shown(q, bus2, more)));
      }
    }
  }

  // ------------------------------------------- the trace is what really happened

  function EntriesIn(trace: seq<Effect>): seq<Entry> {
    if trace == [] then []
    else
      var x := trace[|trace| - 1];
      if x.Logged? then EntriesIn(trace[..|trace| - 1]) + [x.e] else EntriesIn(trace[..|trace| - 1])
  }

  function MessagesAfter(ms: seq<Msg>, trace: seq<Effect>): seq<Msg> {
    if trace == [] then ms
    else
      var so, x := MessagesAfter(ms, trace[..|trace| - 1]), trace[|trace| - 1];
      if x.Inserted? then so + [if x.row.thread == "" then x.row.(thread := Digits(|so| + 1)) else x.row] else so
  }

  function CursorAfter(at: int, trace: seq<Effect>): int {
    if trace == [] then at
    else if trace[|trace| - 1].Moved? then trace[|trace| - 1].to
    else CursorAfter(at, trace[..|trace| - 1])
  }

  /** The log grew by the trace's entries, the table by its rows, and the cursor stands where its last move put it. */
  predicate Tells(q: Request, b: Bus, file: seq<Record>, k: Work) {
    && Entries(k.file) == Entries(file) + EntriesIn(k.trace)
    && k.bus.messages == MessagesAfter(b.messages, k.trace)
    && CurOf(k.bus, q.identity).last == CursorAfter(CurOf(b, q.identity).last, k.trace)
  }

  lemma Unroll(trace: seq<Effect>, x: Effect, ms: seq<Msg>, at: int)
    ensures EntriesIn(trace + [x]) == if x.Logged? then EntriesIn(trace) + [x.e] else EntriesIn(trace)
    ensures !x.Inserted? ==> MessagesAfter(ms, trace + [x]) == MessagesAfter(ms, trace)
    ensures x.Inserted? ==>
              MessagesAfter(ms, trace + [x]) == Insert(EMPTY.(messages := MessagesAfter(ms, trace)), x.row).messages
    ensures CursorAfter(at, trace + [x]) == if x.Moved? then x.to else CursorAfter(at, trace)
  {
    assert (trace + [x])[..|trace|] == trace;
  }

  lemma RecordEntries(c: Crypto, pub: string, every: nat, file: seq<Record>, n: Note)
    ensures var e := Sealed(c, TailOf(file), n);
            Entries(RecordStep(c, pub, every, file, n).1) == if e.Ok? then Entries(file) + [e.value] else Entries(file)
  {
    hide MakeCkpt, TailOf, Sealed, Entries;
    var t, e := TailOf(file), Sealed(c, TailOf(file), n);
    if e.Ok? {
      EntriesAppend(file, EntryRec(e.value));
      var k := MakeCkpt(c, pub, t.seqNo + 1, e.value.entryHash, n.ckptNow);
      if k.Ok? {
        EntriesAppend(file + [EntryRec(e.value)], CkptRec(k.value));
      }
    }
  }

  lemma WriteTells(h: Host, q: Request, b: Bus, file: seq<Record>, k: Work, l: Line)
    requires Tells(q, b, file, k)
    ensures Tells(q, b, file, Write(h, q, k, l))
  {
    hide RecordStep, TailOf, Sealed, CurOf, NoteOf, Entries;
    if !k.stopped && !q.f.note(k.notes) {
      var n := NoteOf(q, k.notes, l);
      var e := Sealed(h.c, TailOf(k.file), n);
      RecordEntries(h.c, h.pub, h.every, k.file, n);
      if e.Ok? {
        Unroll(k.trace, Logged(e.value), b.messages, CurOf(b, q.identity).last);
      }
    }
  }

  /** The same log and trace, the same messages, the same cursor. */
  lemma QuietTells(q: Request, b: Bus, file: seq<Record>, k: Work, k1: Work)
    requires Tells(q, b, file, k)
    requires k1.file == k.file && k1.trace == k.trace && k1.bus.messages == k.bus.messages
    requires CurOf(k1.bus, q.identity).last == CurOf(k.bus, q.identity).last
    ensures Tells(q, b, file, k1)
  {
  }

  lemma AckTells(h: Host, q: Request, b: Bus, file: seq<Record>, k: Work)
    requires Tells(q, b, file, k)
    ensures Tells(q, b, file, AckPart(h, q, k))
  {
    hide Write, Tells, AckLine, AckFailedLine;
    if !k.stopped && q.ack > 0 {
      var from, to := CurOf(k.bus, q.identity).last, AckTarget(k.bus, q.identity, q.ack, q.strict);
      var k1 := Write(h, q, k, AckLine(q, from, to));
      WriteTells(h, q, b, file, k, AckLine(q, from, to));
      WriteTells(h, q, b, file, k1, AckFailedLine(q, from, to));
      assert k1.bus == k.bus by {
        WriteLogs(h, q, k, AckLine(q, from, to));
      }
      MoveTells(q, b, file, k1, from, to);
    }
  }

  lemma MoveTells(q: Request, b: Bus, file: seq<Record>, k: Work, from: int, to: int)
    requires Tells(q, b, file, k)
    requires from == CurOf(k.bus, q.identity).last && to == AckTarget(k.bus, q.identity, q.ack, q.strict)
    ensures Tells(q, b, file, k.(bus := Ack(k.bus, q.identity, q.ack, q.strict),
                                 trace := if to > from then k.trace + [Moved(from, to)] else k.trace))
  {
    hide HighWater, Mine, UpTo, Between;
    Unroll(k.trace, Moved(from, to), b.messages, CurOf(b, q.identity).last);
  }

  lemma MessageTells(h: Host, q: Request, b: Bus, file: seq<Record>, k: Work, i: nat, m: Json)
    requires Tells(q, b, file, k)
    ensures Tells(q, b, file, MessageStep(h, q, k, i, m))
  {
    hide Tells, Write, MessageLine, MalformedLine, RowOf, SendFault;
    var kr := k.(rejected := k.rejected + [i]);
    QuietTells(q, b, file, k, kr);
    WriteTells(h, q, b, file, kr, MalformedLine(h, m));
    WriteTells(h, q, b, file, kr, MessageLine(h, m, "rejected", "unsigned-pinned"));
    var k1 := Write(h, q, k, MessageLine(h, m, "accepted", ""));
    WriteTells(h, q, b, file, k, MessageLine(h, m, "accepted", ""));
    var k1r := k1.(rejected := k1.rejected + [i]);
    QuietTells(q, b, file, k1, k1r);
    WriteTells(h, q, b, file, k1r, MessageLine(h, m, "rejected", "send_failed"));
    InsertTells(q, b, file, k1, m, RowOf(h, q, i, m));
  }

  lemma InsertTells(q: Request, b: Bus, file: seq<Record>, k: Work, m: Json, row: Msg)
    requires Tells(q, b, file, k)
    ensures Tells(q, b, file, k.(bus := Insert(k.bus, row), trace := k.trace + [Inserted(m, row)],
                                 accepted := k.accepted + [|k.bus.messages| + 1]))
  {
    Unroll(k.trace, Inserted(m, row), b.messages, CurOf(b, q.identity).last);
  }

  lemma {:induction false} MessagesTell(h: Host, q: Request, b: Bus, file: seq<Record>, k: Work, n: nat)
    requires n <= |q.messages| && Tells(q, b, file, k)
    ensures Tells(q, b, file, MessagesPart(h, q, k, n))
  {
    hide Tells, MessageStep;
    if n > 0 {
      MessagesTell(h, q, b, file, k, n - 1);
      MessageTells(h, q, b, file, MessagesPart(h, q, k, n - 1), n - 1, q.messages[n - 1]);
    }
  }

  lemma {:induction false} DeliveredTells(h: Host, q: Request, b: Bus, file: seq<Record>, k: Work, replies: seq<Json>)
    requires Tells(q, b, file, k)
    ensures Tells(q, b, file, DeliveredPart(h, q, k, replies))
  {
    hide Tells, Write;
    if replies != [] {
      DeliveredTells(h, q, b, file, k, replies[..|replies| - 1]);
      WriteTells(h, q, b, file, DeliveredPart(h, q, k, replies[..|replies| - 1]), DeliveredLine(q, replies[|replies| - 1]));
    }
  }

  lemma MarkStays(w: World, g: Gate, b: Bus, a: string, ids: seq<int>)
    ensures MarkDelivered(w, g, b, a, ids).messages == b.messages
    ensures forall x :: CurOf(MarkDelivered(w, g, b, a, ids), x).last == CurOf(b, x).last
  {
    hide WaterLevel, RefusedIds, Positive, RowsFor;
  }

  lemma MarkTells(h: Host, q: Request, b: Bus, file: seq<Record>, k: Work, ids: seq<int>)
    requires Tells(q, b, file, k)
    ensures Tells(q, b, file, MarkPart(h, q, k, ids))
  {
    hide Tells, Write, MarkDelivered, MarkFailedLine;
    WriteTells(h, q, b, file, k, MarkFailedLine(q));
    MarkStays(h.w, q.gate, k.bus, q.identity, ids);
    QuietTells(q, b, file, k, k.(bus := MarkDelivered(h.w, q.gate, k.bus, q.identity, ids)));
  }

  lemma CloseTells(h: Host, q: Request, b: Bus, file: seq<Record>, k: Work, replies: nat, round: int)
    requires Tells(q, b, file, k)
    ensures Tells(q, b, file, ClosePart(h, q, k, replies, round))
  {
    hide Tells, Write, CloseLine;
    var l := CloseLine(q, CurOf(k.bus, q.identity).last, replies, round);
    var k1 := Write(h, q, k, l);
    WriteTells(h, q, b, file, k, l);
    QuietTells(q, b, file, k1, k1.(stopped := false, closeFailed := k1.stopped));
  }

  lemma HandOutTells(h: Host, q: Request, b: Bus, file: seq<Record>, k: Work, ids: seq<int>, u: Queue)
    requires Tells(q, b, file, k)
    ensures Tells(q, b, file, HandOut(h, q, k, ids, u))
  {
    hide Tells, Write, DeliveredPart, MarkPart, ClosePart, RoundLine, RepliesOf, LastRoundCursor, TailOf, Entries;
    var at, replies := CurOf(k.bus, q.identity).last, RepliesOf(q, k.bus, ids);
    var logged := replies != [] || at != LastRoundCursor(Entries(k.file), q.identity);
    WriteTells(h, q, b, file, k, RoundLine(h, q, at, replies, u));
    var k1 := if logged then Write(h, q, k, RoundLine(h, q, at, replies, u)) else k;
    DeliveredTells(h, q, b, file, k1, replies);
    var k2 := DeliveredPart(h, q, k1, replies);
    MarkTells(h, q, b, file, k2, ids);
    var k3 := MarkPart(h, q, k2, ids);
    CloseTells(h, q, b, file, k3, |replies|, TailOf(k1.file).seqNo);
    var k4 := if logged then ClosePart(h, q, k3, |replies|, TailOf(k1.file).seqNo) else k3;
    LeaveTells(q, b, file, k4, replies);
  }

  lemma LeaveTells(q: Request, b: Bus, file: seq<Record>, k: Work, replies: seq<Json>)
    requires Tells(q, b, file, k)
    ensures Tells(q, b, file, k.(replies := replies, trace := k.trace + [Left(replies)]))
  {
    Unroll(k.trace, Left(replies), b.messages, CurOf(b, q.identity).last);
  }

  lemma PeekStays(w: World, g: Gate, b: Bus, a: string, limit: int)
    ensures Peek(w, g, b, a, limit).0.messages == b.messages && Peek(w, g, b, a, limit).0.cursors == b.cursors
    ensures Peek(w, g, b, a, limit).0.read == b.read
  {
    hide SiftPage, NewRejects;
  }

  /** The trace leaves nothing out: log, messages and cursor after the round are what its effects make of them. */
  lemma TraceIsTheRound(h: Host, q: Request, bus: Bus, file: seq<Record>)
    ensures Tells(q, bus, file, Round(h, q, bus, file))
  {
    var k0 := Work(bus, file, [], 0, false, [], [], [], false);
    assert Entries(file) + [] == Entries(file);
    assert Tells(q, bus, file, k0);
    hide AckPart, MessagesPart, HandOut, Peek, Shown, QueueOf, Tells;
    AckTells(h, q, bus, file, k0);
    var k1 := MessagesPart(h, q, AckPart(h, q, k0), |q.messages|);
    MessagesTell(h, q, bus, file, AckPart(h, q, k0), |q.messages|);
    QuietTells(q, bus, file, k1, k1.(stopped := true));
    if !k1.stopped && !q.f.peek {
      var (bus1, rows) := Peek(h.w, q.gate, k1.bus, q.identity, MAX_REPLIES);
      PeekStays(h.w, q.gate, k1.bus, q.identity, MAX_REPLIES);
      var ids := Shown(q, bus1, rows);
      QuietTells(q, bus, file, k1, k1.(bus := bus1));
      HandOutTells(h, q, bus, file, k1.(bus := bus1), ids, Unmeasured);
      var (bus2, more) := Peek(h.w, q.gate, bus1, q.identity, PEND_LIMIT + 1);
      PeekStays(h.w, q.gate, bus1, q.identity, PEND_LIMIT + 1);
      QuietTells(q, bus, file, k1, k1.(bus := bus2));
      HandOutTells(h, q, bus, file, k1.(bus := bus2), ids, QueueOf(q, ids, Shown(q, bus2, more)));
    }
  }

  lemma WriteKeepsReplies(h: Host, q: Request, k: Work, l: Line)
    ensures Write(h, q, k, l).replies == k.replies
  {
    hide States;
    WriteLogs(h, q, k, l);
  }

  lemma MessageKeepsReplies(h: Host, q: Request, k: Work, i: nat, m: Json)
    ensures MessageStep(h, q, k, i, m).replies == k.replies
  {
    hide Write, SendFault, MessageLine, RowOf, MalformedLine;
    WriteKeepsReplies(h, q, k.(rejected := k.rejected + [i]), MalformedLine(h, m));
    WriteKeepsReplies(h, q, k.(rejected := k.rejected + [i]), MessageLine(h, m, "rejected", "unsigned-pinned"));
    var k1 := Write(h, q, k, MessageLine(h, m, "accepted", ""));
    WriteKeepsReplies(h, q, k, MessageLine(h, m, "accepted", ""));
    WriteKeepsReplies(h, q, k1.(rejected := k1.rejected + [i]), MessageLine(h, m, "rejected", "send_failed"));
  }

  lemma {:induction false} NoRepliesYet(h: Host, q: Request, k: Work, n: nat)
    requires n <= |q.messages|
    ensures MessagesPart(h, q, k, n).replies == k.replies
  {
    hide MessageStep;
    if n > 0 {
      NoRepliesYet(h, q, k, n - 1);
      MessageKeepsReplies(h, q, MessagesPart(h, q, k, n - 1), n - 1, q.messages[n - 1]);
    }
  }

  lemma {:induction false} NoRepliesInBlock(h: Host, q: Request, k: Work, replies: seq<Json>)
    ensures DeliveredPart(h, q, k, replies).replies == k.replies
  {
    hide Write;
    if replies != [] {
      NoRepliesInBlock(h, q, k, replies[..|replies| - 1]);
      WriteLogs(h, q, DeliveredPart(h, q, k, replies[..|replies| - 1]), DeliveredLine(q, replies[|replies| - 1]));
    }
  }

  lemma {:induction false} DeliveredKeepsBus(h: Host, q: Request, k: Work, replies: seq<Json>)
    ensures DeliveredPart(h, q, k, replies).bus == k.bus
    ensures k.stopped ==> DeliveredPart(h, q, k, replies).stopped
  {
    hide Write, States;
    if replies != [] {
      var so := DeliveredPart(h, q, k, replies[..|replies| - 1]);
      DeliveredKeepsBus(h, q, k, replies[..|replies| - 1]);
      WriteLogs(h, q, so, DeliveredLine(q, replies[|replies| - 1]));
      StoppedStays(h, q, so, DeliveredLine(q, replies[|replies| - 1]));
    }
  }

  lemma StoppedMessage(h: Host, q: Request, k: Work, i: nat, m: Json)
    requires k.stopped
    ensures MessageStep(h, q, k, i, m) == k
  {
    hide Write, SendFault, MessageLine, RowOf, MalformedLine, Send;
  }

  lemma NoRepliesFromAck(h: Host, q: Request, bus: Bus, file: seq<Record>)
    ensures AckPart(h, q, Work(bus, file, [], 0, false, [], [], [], false)).replies == []
  {
    hide Write, Ack, AckTarget, AckLine, AckFailedLine, States;
    var k := Work(bus, file, [], 0, false, [], [], [], false);
    var from, to := CurOf(k.bus, q.identity).last, AckTarget(k.bus, q.identity, q.ack, q.strict);
    WriteLogs(h, q, k, AckLine(q, from, to));
    WriteLogs(h, q, Write(h, q, k, AckLine(q, from, to)), AckFailedLine(q, from, to));
  }

  lemma HandOutLeavesLast(h: Host, q: Request, k: Work, ids: seq<int>, u: Queue)
    requires k.replies == []
    ensures var r := HandOut(h, q, k, ids, u);
            if r.stopped then r.replies == [] else r.trace != [] && r.trace[|r.trace| - 1] == Left(r.replies)
  {
    hide Write, RoundLine, CloseLine, MarkDelivered, RepliesOf, LastRoundCursor, TailOf, Entries, DeliveredPart;
    var at, replies := CurOf(k.bus, q.identity).last, RepliesOf(q, k.bus, ids);
    var logged := replies != [] || at != LastRoundCursor(Entries(k.file), q.identity);
    WriteLogs(h, q, k, RoundLine(h, q, at, replies, u));
    var k1 := if logged then Write(h, q, k, RoundLine(h, q, at, replies, u)) else k;
    NoRepliesInBlock(h, q, k1, replies);
    var k2 := DeliveredPart(h, q, k1, replies);
    WriteLogs(h, q, k2, MarkFailedLine(q));
    var k3 := MarkPart(h, q, k2, ids);
    WriteLogs(h, q, k3, CloseLine(q, CurOf(k3.bus, q.identity).last, |replies|, TailOf(k1.file).seqNo));
  }

  /** A stopped round hands out nothing; otherwise handing out the replies is its last effect. */
  lemma RepliesLeaveLast(h: Host, q: Request, bus: Bus, file: seq<Record>)
    ensures var k := Round(h, q, bus, file);
            if k.stopped then k.replies == [] else k.trace != [] && k.trace[|k.trace| - 1] == Left(k.replies)
  {
    hide HandOut, Peek, Shown, QueueOf, MessagesPart, AckPart;
    var k0 := Work(bus, file, [], 0, false, [], [], [], false);
    NoRepliesFromAck(h, q, bus, file);
    NoRepliesYet(h, q, AckPart(h, q, k0), |q.messages|);
    var k1 := MessagesPart(h, q, AckPart(h, q, k0), |q.messages|);
    assert k1.replies == [];
    if !k1.stopped && !q.f.peek {
      var (bus1, rows) := Peek(h.w, q.gate, k1.bus, q.identity, MAX_REPLIES);
      var ids := Shown(q, bus1, rows);
      HandOutLeavesLast(h, q, k1.(bus := bus1), ids, Unmeasured);
      var (bus2, more) := Peek(h.w, q.gate, bus1, q.identity, PEND_LIMIT + 1);
      HandOutLeavesLast(h, q, k1.(bus := bus2), ids, QueueOf(q, ids, Shown(q, bus2, more)));
    }
  }
}
