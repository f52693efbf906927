/** What every note of a round keeps, the round keeps: one pass over the parts of an exchange round. */
module RoundPass {
  import opened CanonicalJson
  import opened NotaryLog
  import opened BusState
  import opened BusOps
  import opened Exchange

  /** Writing an allowed line keeps the property. */
  ghost predicate NotesKeep(h: Host, q: Request, p: seq<Record> -> bool, ok: Line -> bool) {
    forall f: seq<Record>, n: nat, l: Line ::
      p(f) && ok(l) ==> p(RecordStep(h.c, h.pub, h.every, f, NoteOf(q, n, l)).1)
  }

  /** Every line this round can write apart from those for its messages is allowed. */
  ghost predicate FrameAllowed(h: Host, q: Request, ok: Line -> bool) {
    && (forall from, to :: ok(AckLine(q, from, to)))
    && (q.f.ack ==> forall from, to :: ok(AckFailedLine(q, from, to)))
    && (forall at, replies, u :: ok(RoundLine(h, q, at, replies, u)))
    && (forall reply :: ok(DeliveredLine(q, reply)))
    && ok(MarkFailedLine(q))
    && (forall at, n, round :: ok(CloseLine(q, at, n, round)))
  }

  /** The lines a message can bring about: one if it is no message, else one of refusal or receipt, and one of failure. */
  ghost predicate MessageAllowed(h: Host, m: Json, ok: Line -> bool) {
    && (!Shaped(m) ==> ok(MalformedLine(h, m)))
    && (Shaped(m) ==>
          && ok(MessageLine(h, m, "rejected", "unsigned-pinned"))
          && ok(MessageLine(h, m, "accepted", ""))
          && ok(MessageLine(h, m, "rejected", "send_failed")))
  }

  ghost predicate MessagesAllowed(h: Host, q: Request, ok: Line -> bool) {
    forall i | 0 <= i < |q.messages| :: MessageAllowed(h, q.messages[i], ok)
  }

  lemma WritePasses(h: Host, q: Request, k: Work, l: Line, p: seq<Record> -> bool, ok: Line -> bool)
    requires NotesKeep(h, q, p, ok) && ok(l) && p(k.file)
    ensures p(Write(h, q, k, l).file)
  {
    hide Sealed, TailOf, RecordStep, NoteOf;
    assert p(RecordStep(h.c, h.pub, h.every, k.file, NoteOf(q, k.notes, l)).1);
  }

  lemma AckPasses(h: Host, q: Request, k: Work, p: seq<Record> -> bool, ok: Line -> bool)
    requires NotesKeep(h, q, p, ok) && FrameAllowed(h, q, ok) && p(k.file)
    ensures p(AckPart(h, q, k).file)
  {
    hide Write, Ack, AckTarget, AckLine, AckFailedLine, NotesKeep, CloseLine, RoundLine, DeliveredLine;
    var from, to := CurOf(k.bus, q.identity).last, AckTarget(k.bus, q.identity, q.ack, q.strict);
    WritePasses(h, q, k, AckLine(q, from, to), p, ok);
    if q.f.ack {
      WritePasses(h, q, Write(h, q, k, AckLine(q, from, to)), AckFailedLine(q, from, to), p, ok);
    }
  }

  lemma MessagePasses(h: Host, q: Request, k: Work, i: nat, m: Json, p: seq<Record> -> bool, ok: Line -> bool)
    requires NotesKeep(h, q, p, ok) && MessageAllowed(h, m, ok) && p(k.file)
    ensures p(MessageStep(h, q, k, i, m).file)
  {
    hide Write, SendFault, MessageLine, RowOf, MalformedLine, NotesKeep;
    var kr := k.(rejected := k.rejected + [i]);
    if !Shaped(m) {
      WritePasses(h, q, kr, MalformedLine(h, m), p, ok);
    } else {
      WritePasses(h, q, kr, MessageLine(h, m, "rejected", "unsigned-pinned"), p, ok);
      var k1 := Write(h, q, k, MessageLine(h, m, "accepted", ""));
      WritePasses(h, q, k, MessageLine(h, m, "accepted", ""), p, ok);
      WritePasses(h, q, k1.(rejected := k1.rejected + [i]), MessageLine(h, m, "rejected", "send_failed"), p, ok);
    }
  }

  lemma {:induction false} MessagesPass(h: Host, q: Request, k: Work, n: nat, p: seq<Record> -> bool, ok: Line -> bool)
    requires n <= |q.messages| && NotesKeep(h, q, p, ok) && MessagesAllowed(h, q, ok) && p(k.file)
    ensures p(MessagesPart(h, q, k, n).file)
  {
    hide MessageStep, NotesKeep, MessageAllowed;
    if n > 0 {
      MessagesPass(h, q, k, n - 1, p, ok);
      MessagePasses(h, q, MessagesPart(h, q, k, n - 1), n - 1, q.messages[n - 1], p, ok);
    }
  }

  lemma {:induction false} DeliveredPasses(h: Host, q: Request, k: Work, replies: seq<Json>, p: seq<Record> -> bool,
                                           ok: Line -> bool)
    requires NotesKeep(h, q, p, ok) && FrameAllowed(h, q, ok) && p(k.file)
    ensures p(DeliveredPart(h, q, k, replies).file)
  {
    hide Write, NotesKeep, AckLine, AckFailedLine, CloseLine, RoundLine, DeliveredLine;
    if replies != [] {
      var so, last := DeliveredPart(h, q, k, replies[..|replies| - 1]), replies[|replies| - 1];
      DeliveredPasses(h, q, k, replies[..|replies| - 1], p, ok);
      WritePasses(h, q, so, DeliveredLine(q, last), p, ok);
    }
  }

  lemma HandOutPasses(h: Host, q: Request, k: Work, ids: seq<int>, u: Queue, p: seq<Record> -> bool, ok: Line -> bool)
    requires NotesKeep(h, q, p, ok) && FrameAllowed(h, q, ok) && p(k.file)
    ensures p(HandOut(h, q, k, ids, u).file)
  {
    hide Write, NotesKeep, AckLine, AckFailedLine, CloseLine, RoundLine, DeliveredLine, DeliveredPart, MarkDelivered,
      RepliesOf, LastRoundCursor, TailOf, Entries;
    var at, replies := CurOf(k.bus, q.identity).last, RepliesOf(q, k.bus, ids);
    var logged := replies != [] || at != LastRoundCursor(Entries(k.file), q.identity);
    WritePasses(h, q, k, RoundLine(h, q, at, replies, u), p, ok);
    var k1 := if logged then Write(h, q, k, RoundLine(h, q, at, replies, u)) else k;
    DeliveredPasses(h, q, k1, replies, p, ok);
    var k2 := DeliveredPart(h, q, k1, replies);
    WritePasses(h, q, k2, MarkFailedLine(q), p, ok);
    var k3 := MarkPart(h, q, k2, ids);
    WritePasses(h, q, k3, CloseLine(q, CurOf(k3.bus, q.identity).last, |replies|, TailOf(k1.file).seqNo), p, ok);
  }

  lemma RepliesPass(h: Host, q: Request, k: Work, p: seq<Record> -> bool, ok: Line -> bool)
    requires NotesKeep(h, q, p, ok) && FrameAllowed(h, q, ok) && p(k.file)
    ensures p(RepliesPart(h, q, k).file)
  {
    hide HandOut, Peek, Shown, QueueOf, NotesKeep, FrameAllowed;
    if !k.stopped && !q.f.peek {
      var (bus1, rows) := Peek(h.w, q.gate, k.bus, q.identity, MAX_REPLIES);
      var ids := Shown(q, bus1, rows);
      HandOutPasses(h, q, k.(bus := bus1), ids, Unmeasured, p, ok);
      var (bus2, more) := Peek(h.w, q.gate, bus1, q.identity, PEND_LIMIT + 1);
      HandOutPasses(h, q, k.(bus := bus2), ids, QueueOf(q, ids, Shown(q, bus2, more)), p, ok);
    }
  }

  /** A property of the log that every line of the round keeps holds after the round, wherever it stops. */
  lemma RoundPreserves(h: Host, q: Request, bus: Bus, file: seq<Record>, p: seq<Record> -> bool, ok: Line -> bool)
    requires NotesKeep(h, q, p, ok) && FrameAllowed(h, q, ok) && MessagesAllowed(h, q, ok) && p(file)
    ensures p(Round(h, q, bus, file).file)
  {
    hide RepliesPart, MessagesPart, AckPart, NotesKeep, FrameAllowed, MessagesAllowed;
    var k0 := Work(bus, file, [], 0, false, [], [], [], false);
    AckPasses(h, q, k0, p, ok);
    MessagesPass(h, q, AckPart(h, q, k0), |q.messages|, p, ok);
    RepliesPass(h, q, MessagesPart(h, q, AckPart(h, q, k0), |q.messages|), p, ok);
  }
}
