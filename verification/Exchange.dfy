/**
  One exchange round at the bus machine (bus_ssh_exchange.py): the ack, the
  messages, the page of replies. Every note can fail, and so can every effect;
  the trace lists what was logged and what took effect, in order.
*/
module Exchange {
  import opened Wrappers
  import opened CanonicalJson
  import opened NotaryLog
  import opened Reasons
  import opened IntSets
  import opened BusState
  import opened Enforce
  import opened BusOps

  const MAX_REPLIES := 200
  const PEND_LIMIT := 200 * 50

  /** The machine: its validators, its notary, and Python's `str`, `int` and claimed time of a JSON value. */
  datatype Host = Host(w: World, c: Crypto, pub: string, every: nat, text: Json -> string, number: Json -> Option<int>,
                       claimed: Json -> Option<int>)

  /** What goes wrong: by number for notes and messages, at most once for the rest. */
  datatype Faults = Faults(note: nat -> bool, send: nat -> bool, ack: bool, peek: bool, pend: bool, mark: bool)

  /** The strict-ack escape hatch as a round entry states it. */
  datatype Clamp = Quiet | ClampOff | ClampUnknown

  /** A request under the identity its key is bound to, with the clocks and switches it meets. */
  datatype Request = Request(
    identity: string, ack: int, messages: seq<Json>, strict: bool, pinned: bool, gate: Gate, clamp: Clamp,
    envelope: Msg -> string, sentAt: nat -> int, now: nat -> int, ckptNow: nat -> int,
    head: nat -> Option<(nat, string)>, f: Faults)

  datatype Effect = Logged(e: Entry) | Inserted(m: Json, row: Msg) | Moved(from: int, to: int) | Left(replies: seq<Json>)

  datatype Work = Work(bus: Bus, file: seq<Record>, trace: seq<Effect>, notes: nat, stopped: bool,
                       accepted: seq<int>, rejected: seq<nat>, replies: seq<Json>, closeFailed: bool)

  /** What one call of `note` supplies. */
  datatype Line = Line(env: Json, recipient: string, kind: string, decision: string, reason: string,
                       claimed: Option<int>, cursor: Option<map<string, Json>>)

  function NoteOf(q: Request, n: nat, l: Line): Note {
    Note(l.env, q.identity, "ssh-key", l.recipient, l.kind, l.decision, l.reason, l.claimed, l.cursor,
         q.now(n), q.head(n), q.ckptNow(n))
  }

  /** `note`: an entry, or the round stops here with what was written so far. */
  function Write(h: Host, q: Request, k: Work, l: Line): Work {
    if k.stopped then k
    else if q.f.note(k.notes) then k.(notes := k.notes + 1, stopped := true)
    else
      var n := NoteOf(q, k.notes, l);
      var (r, file) := RecordStep(h.c, h.pub, h.every, k.file, n);
      var e := Sealed(h.c, TailOf(k.file), n);
      k.(file := file, notes := k.notes + 1, stopped := r.Err?,
         trace := if e.Ok? then k.trace + [Logged(e.value)] else k.trace)
  }

  // -------------------------------------------------------------------- the ack

  function AckLine(q: Request, from: int, to: int): Line {
    Line(Obj(map["ack" := Int(q.ack), "cursor_from" := Int(from), "cursor_to" := Int(to)]), q.identity, "ack", "accepted",
         AckReason(from, to, q.ack), None, Some(map["from" := Int(from), "to" := Int(to), "ack" := Int(q.ack)]))
  }

  function AckFailedLine(q: Request, from: int, to: int): Line {
    Line(Obj(map["ack" := Int(q.ack), "cursor_from" := Int(from), "cursor_to" := Int(to)]), q.identity, "ack", "rejected",
         "ack_failed", None, None)
  }

  /** The cursor's step goes into the log before the cursor moves. */
  function AckPart(h: Host, q: Request, k: Work): Work {
    if k.stopped || q.ack <= 0 then k
    else
      var from, to := CurOf(k.bus, q.identity).last, AckTarget(k.bus, q.identity, q.ack, q.strict);
      var k1 := Write(h, q, k, AckLine(q, from, to));
      if k1.stopped then k1
      else if q.f.ack then Write(h, q, k1, AckFailedLine(q, from, to))
      else k1.(bus := Ack(k1.bus, q.identity, q.ack, q.strict),
               trace := if to > from then k1.trace + [Moved(from, to)] else k1.trace)
  }

  // --------------------------------------------------------------- the messages

  function Field(m: Json, key: string): Json { if m.Obj? && key in m.m then m.m[key] else Null }

  predicate Shaped(m: Json) { m.Obj? && Field(m, "to").Str? && Field(m, "body").Str? }

  function TextField(h: Host, v: Json): string { if v == Null then "" else if v.Str? then v.s else h.text(v) }

  function MessageKind(h: Host, m: Json): string { TextField(h, Field(m, "kind")) }

  /** What `send` makes of `in_reply_to`; a value that is no number is refused like one out of range. */
  function AnswersTo(h: Host, v: Json): Option<int> {
    if v == Null then None
    else if v.Int? then Some(v.n)
    else if h.number(v).Some? then h.number(v)
    else Some(-1)
  }

  /** The row `send` builds; the sender is always the pinned identity. */
  function RowOf(h: Host, q: Request, i: nat, m: Json): Msg {
    var signed := Field(m, "sig") != Null || Field(m, "pubkey") != Null;
    Msg(if signed && Field(m, "ts").Int? then Field(m, "ts").n else q.sentAt(i),
        q.identity, TextField(h, Field(m, "to")), TextField(h, Field(m, "topic")), MessageKind(h, m),
        TextField(h, Field(m, "thread_id")),
        AnswersTo(h, Field(m, "in_reply_to")),
        TextField(h, Field(m, "body")), TextField(h, Field(m, "sig")), TextField(h, Field(m, "pubkey")))
  }

  function MessageLine(h: Host, m: Json, decision: string, reason: string): Line {
    Line(m, TextField(h, Field(m, "to")), MessageKind(h, m), decision, reason, h.claimed(m), None)
  }

  function MalformedLine(h: Host, m: Json): Line {
    Line(m, TextField(h, Field(m, "to")), "msg", "rejected", "malformed", None, None)
  }

  /** Product mode takes no unsigned row under a name whose key is pinned. */
  predicate LacksSignature(q: Request, m: Json) {
    q.gate.Product? && q.pinned && Field(m, "sig") == Null && Field(m, "pubkey") == Null
  }

  /** The insert fails: by itself, or because a list or dict cannot be a column. */
  predicate InsertFails(q: Request, i: nat, m: Json) {
    q.f.send(i) || Field(m, "thread_id").Arr? || Field(m, "thread_id").Obj?
  }

  /** One message: logged as received before the bus inserts it; a failed insert is logged as well. */
  function MessageStep(h: Host, q: Request, k: Work, i: nat, m: Json): Work {
    if k.stopped then k
    else if !Shaped(m) then Write(h, q, k.(rejected := k.rejected + [i]), MalformedLine(h, m))
    else if LacksSignature(q, m) then
      Write(h, q, k.(rejected := k.rejected + [i]), MessageLine(h, m, "rejected", "unsigned-pinned"))
    else
      var k1 := Write(h, q, k, MessageLine(h, m, "accepted", ""));
      var row := RowOf(h, q, i, m);
      var (bus, r) := Send(h.w, k1.bus, row);
      if k1.stopped then k1
      else if InsertFails(q, i, m) || r.Err? then
        Write(h, q, k1.(rejected := k1.rejected + [i]), MessageLine(h, m, "rejected", "send_failed"))
      else k1.(bus := bus, trace := k1.trace + [Inserted(m, row)], accepted := k1.accepted + [r.value])
  }

  function MessagesPart(h: Host, q: Request, k: Work, n: nat): Work
    requires n <= |q.messages|
  {
    if n == 0 then k else MessageStep(h, q, MessagesPart(h, q, k, n - 1), n - 1, q.messages[n - 1])
  }

  // ---------------------------------------------------------------- the replies

  /** A reply as it leaves: the row's public fields, and the label of an envelope. */
  function ReplyJson(q: Request, id: int, m: Msg): Json {
    var fields := map[
      "id" := Int(id), "ts" := Int(m.ts), "sender" := Str(m.sender), "topic" := Str(m.topic), "kind" := Str(m.kind),
      "thread_id" := Str(m.thread), "in_reply_to" := if m.inReplyTo.Some? then Int(m.inReplyTo.value) else Null,
      "body" := Str(m.body)];
    Obj(if m.kind == "sds-envelope" then fields["sds" := Str(q.envelope(m))] else fields)
  }

  /** Product mode hands out envelopes only when they verify. */
  function Shown(q: Request, b: Bus, ids: seq<int>): seq<int> {
    if ids == [] then []
    else
      var so, id := Shown(q, b, ids[..|ids| - 1]), ids[|ids| - 1];
      if q.gate.Product? && 1 <= id <= |b.messages| && b.messages[id - 1].kind == "sds-envelope"
         && q.envelope(b.messages[id - 1]) != "valid" then so
      else so + [id]
  }

  function RepliesOf(q: Request, b: Bus, ids: seq<int>): seq<Json> {
    if ids == [] then []
    else
      var so, id := RepliesOf(q, b, ids[..|ids| - 1]), ids[|ids| - 1];
      if 1 <= id <= |b.messages| then so + [ReplyJson(q, id, b.messages[id - 1])] else so
  }

  /** Where the cursor stood in the last logged round of the identity: its structured field if it has one, else its text. */
  function LastRoundCursor(es: seq<Entry>, identity: string): int {
    if es == [] then 0
    else
      var e := es[|es| - 1];
      if e.kind == "pickup" && e.decision == "accepted" && e.recipient == identity
         && (Field(CursorOf(e), "at").Int? || ParseRound(e.reason).Some?) then
        if Field(CursorOf(e), "at").Int? then Field(CursorOf(e), "at").n else ParseRound(e.reason).value.0
      else LastRoundCursor(es[..|es| - 1], identity)
  }

  function ClampMark(c: Clamp): map<string, Json> {
    match c
    case Quiet => map[]
    case ClampOff => map["strict_ack" := Int(0)]
    case ClampUnknown => map["strict_ack_unknown" := Int(1)]
  }

  /** The measured queue: how many rows wait, the first one not handed out, and whether the measure was cut. */
  datatype Queue = Queue(pending: nat, next: int) | Unmeasured

  function RoundCursor(at: int, replies: nat, u: Queue, c: Clamp): map<string, Json> {
    var base := map["at" := Int(at), "replies" := Int(replies)];
    match u
    case Unmeasured => base["pending_unknown" := Int(1)] + ClampMark(c)
    case Queue(pending, next) =>
      var full := base["pending" := Int(pending)]["next_id" := Int(next)];
      (if pending > PEND_LIMIT then full["pending_truncated" := Int(1)] else full) + ClampMark(c)
  }

  function Hashes(c: Crypto, replies: seq<Json>): seq<Json> {
    if replies == [] then []
    else Hashes(c, replies[..|replies| - 1]) + [Str(EnvelopeHash(c, replies[|replies| - 1]))]
  }

  function RoundLine(h: Host, q: Request, at: int, replies: seq<Json>, u: Queue): Line {
    Line(Obj(map["identity" := Str(q.identity), "cursor" := Int(at), "reply_sha256" := Arr(Hashes(h.c, replies))]),
         q.identity, "pickup", "accepted", RoundReason(at, |replies|), None, Some(RoundCursor(at, |replies|, u, q.clamp)))
  }

  function DeliveredLine(q: Request, reply: Json): Line {
    var id := Field(reply, "id");
    Line(reply, q.identity, "pickup", "delivered", "id=" + (if id.Int? then Decimal(id.n) else "None"), None,
         if id.Int? && id.n >= 0 then Some(map["id" := id]) else None)
  }

  function DeliveredPart(h: Host, q: Request, k: Work, replies: seq<Json>): Work {
    if replies == [] then k
    else Write(h, q, DeliveredPart(h, q, k, replies[..|replies| - 1]), DeliveredLine(q, replies[|replies| - 1]))
  }

  function MarkFailedLine(q: Request): Line {
    Line(Obj(map["identity" := Str(q.identity), "mark_delivered" := Str("failed")]), q.identity, "pickup", "rejected",
         "mark_delivered_failed", None, None)
  }

  function MarkPart(h: Host, q: Request, k: Work, ids: seq<int>): Work {
    if k.stopped || ids == [] then k
    else if q.f.mark then Write(h, q, k, MarkFailedLine(q))
    else k.(bus := MarkDelivered(h.w, q.gate, k.bus, q.identity, ids))
  }

  function CloseLine(q: Request, at: int, replies: nat, round: int): Line {
    Line(Obj(map["identity" := Str(q.identity), "round_close" := Int(1), "cursor" := Int(at)]), q.identity, "round_close",
         "accepted", "close replies=" + Digits(replies), None,
         Some(map["at" := Int(at), "replies" := Int(replies), "round_seq" := Int(round)]))
  }

  /** The closing entry names its round; it is written last, and its failure is only reported. */
  function ClosePart(h: Host, q: Request, k: Work, replies: nat, round: int): Work {
    if k.stopped then k
    else
      var k1 := Write(h, q, k, CloseLine(q, CurOf(k.bus, q.identity).last, replies, round));
      k1.(stopped := false, closeFailed := k1.stopped)
  }

  function QueueOf(q: Request, ids: seq<int>, waiting: seq<int>): Queue {
    var left := (set i | i in waiting) - (set i | i in ids);
    Queue(|waiting|, if left == {} then 0 else Least(left))
  }

  /** The round entry and one entry per reply, then the delivery mark, then the close; only then the replies leave. */
  function HandOut(h: Host, q: Request, k: Work, ids: seq<int>, u: Queue): Work {
    var at, replies := CurOf(k.bus, q.identity).last, RepliesOf(q, k.bus, ids);
    var logged := replies != [] || at != LastRoundCursor(Entries(k.file), q.identity);
    var k1 := if logged then Write(h, q, k, RoundLine(h, q, at, replies, u)) else k;
    var k3 := MarkPart(h, q, DeliveredPart(h, q, k1, replies), ids);
    var k4 := if logged then ClosePart(h, q, k3, |replies|, TailOf(k1.file).seqNo) else k3;
    if k4.stopped then k4 else k4.(replies := replies, trace := k4.trace + [Left(replies)])
  }

  function RepliesPart(h: Host, q: Request, k: Work): Work {
    if k.stopped || q.f.peek then k.(stopped := true)
    else
      var (bus1, rows) := Peek(h.w, q.gate, k.bus, q.identity, MAX_REPLIES);
      var ids := Shown(q, bus1, rows);
      if q.f.pend then HandOut(h, q, k.(bus := bus1), ids, Unmeasured)
      else
        var (bus2, more) := Peek(h.w, q.gate, bus1, q.identity, PEND_LIMIT + 1);
        HandOut(h, q, k.(bus := bus2), ids, QueueOf(q, ids, Shown(q, bus2, more)))
  }

  /** The whole round, from the tables and the log as it finds them. */
  function Round(h: Host, q: Request, bus: Bus, file: seq<Record>): Work {
    RepliesPart(h, q, MessagesPart(h, q, AckPart(h, q, Work(bus, file, [], 0, false, [], [], [], false)), |q.messages|))
  }
}
