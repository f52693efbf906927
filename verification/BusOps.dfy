/** The operations of the bus (agent_bus.py), each as one step from table state to table state. */
module BusOps {
  import opened Wrappers
  import opened CanonicalJson
  import opened IntSets
  import opened BusState
  import opened Enforce

  // ------------------------------------------------------------------ receiving

  /** `recv(mark=True)` in dev mode: the page is handed out and consumed. */
  function RecvDev(b: Bus, a: string, limit: int): (Bus, seq<int>) {
    var page := Page(b, a, limit);
    if page == [] then (b, page)
    else
      var top := page[|page| - 1];
      var cur := CurOf(b, a);
      (b.(cursors := b.cursors[a := Cur(top, if cur.delivered > top then cur.delivered else top)],
          read := b.read + UpTo(Mine(b.messages, a), top),
          audit := b.audit + [Row(a, cur.last, top, RecvMark, 0)]),
       page)
  }

  /** What enforcement makes of a page: the rows it lets through, those it rejects, and the store afterwards. */
  datatype Sifted = Sifted(kept: seq<int>, rejected: seq<(int, string)>, seen: set<(string, string)>) | Raised

  /** The ids of messages in the table. */
  predicate InTable(b: Bus, ids: seq<int>) { forall i | 0 <= i < |ids| :: 1 <= ids[i] <= |b.messages| }

  function Sift(w: World, g: Gate, b: Bus, a: string, ids: seq<int>, record: bool): Sifted
    requires g.Product? && InTable(b, ids)
  {
    if ids == [] then Sifted([], [], b.seen)
    else
      var s := Sift(w, g, b, a, ids[..|ids| - 1], record);
      if s.Raised? then s
      else
        var id := ids[|ids| - 1];
        var (v, seen) := Check(w, g, s.seen, a, b.messages[id - 1], record);
        match v
        case Pass => Sifted(s.kept + [id], s.rejected, seen)
        case Reject(why) => Sifted(s.kept, s.rejected + [(id, why)], seen)
        case Raise => Raised
  }

  function RejectRows(a: string, rejected: seq<(int, string)>): (rows: seq<Row>)
    ensures |rows| == |rejected|
    ensures forall i | 0 <= i < |rows| :: rows[i] == Row(a, rejected[i].0, rejected[i].0, EnforceReject(rejected[i].1), 1)
  {
    if rejected == [] then []
    else
      var r := rejected[|rejected| - 1];
      RejectRows(a, rejected[..|rejected| - 1]) + [Row(a, r.0, r.0, EnforceReject(r.1), 1)]
  }

  lemma PageInRange(b: Bus, a: string, limit: int)
    ensures InTable(b, Page(b, a, limit))
  {
    PageIsPrefix(b, a, limit);
    var p := Page(b, a, limit);
    forall i | 0 <= i < |p| ensures 1 <= p[i] <= |b.messages| {
      assert p[i] in p;
    }
  }

  function SiftPage(w: World, g: Gate, b: Bus, a: string, limit: int, record: bool): Sifted
    requires g.Product?
  {
    PageInRange(b, a, limit);
    Sift(w, g, b, a, Page(b, a, limit), record)
  }

  /** `recv(mark=True)` in product mode: rejected rows stay unread, and an enforcement error changes nothing. */
  function RecvEnforced(w: World, g: Gate, b: Bus, a: string, limit: int): (Bus, seq<int>)
    requires g.Product?
  {
    var page, s := Page(b, a, limit), SiftPage(w, g, b, a, limit, true);
    if s.Raised? || page == [] then (b, [])
    else
      var top, cur := page[|page| - 1], CurOf(b, a);
      var acc := if s.kept == [] then 0 else s.kept[|s.kept| - 1];
      (b.(cursors := b.cursors[a := Cur(top, if cur.delivered > acc then cur.delivered else acc)],
          read := b.read + (set i | i in s.kept),
          audit := b.audit + RejectRows(a, s.rejected) + [Row(a, cur.last, top, RecvMark, |s.rejected|)],
          seen := s.seen),
       s.kept)
  }

  predicate HasReject(rows: seq<Row>, a: string, id: int) {
    exists i :: 0 <= i < |rows| && rows[i].agent == a && rows[i].from == id && rows[i].op.EnforceReject?
  }

  /** The rejections a peek adds: one per row not named before. */
  function NewRejects(rows: seq<Row>, a: string, rejected: seq<(int, string)>): seq<Row> {
    if rejected == [] then rows
    else
      var so := NewRejects(rows, a, rejected[..|rejected| - 1]);
      var r := rejected[|rejected| - 1];
      if HasReject(so, a, r.0) then so else so + [Row(a, r.0, r.0, EnforceReject(r.1), 1)]
  }

  /** `recv(mark=False)`: nothing is consumed; product mode names what it rejects. */
  function Peek(w: World, g: Gate, b: Bus, a: string, limit: int): (Bus, seq<int>) {
    if g.Dev? then (b, Page(b, a, limit))
    else
      var s := SiftPage(w, g, b, a, limit, false);
      if s.Raised? then (b, []) else (b.(audit := NewRejects(b.audit, a, s.rejected)), s.kept)
  }

  function Recv(w: World, g: Gate, b: Bus, a: string, limit: int): (Bus, seq<int>) {
    if g.Dev? then RecvDev(b, a, limit) else RecvEnforced(w, g, b, a, limit)
  }

  // -------------------------------------------------------------- acknowledging

  /** Forward only, and never beyond the delivered (strict) or the existing messages. */
  function AckTarget(b: Bus, a: string, upto: int, strict: bool): int {
    var cap := if strict then CurOf(b, a).delivered else HighWater(b.messages, a);
    var to := if upto < cap then upto else cap;
    if to > CurOf(b, a).last then to else CurOf(b, a).last
  }

  function Ack(b: Bus, a: string, upto: int, strict: bool): Bus {
    var cur, to, mine := CurOf(b, a), AckTarget(b, a, upto, strict), Mine(b.messages, a);
    b.(cursors := b.cursors[a := Cur(to, cur.delivered)],
       read := b.read + UpTo(mine, to),
       audit := if to > cur.last then b.audit + [Row(a, cur.last, to, AckMove, |Between(mine, cur.last, to) - b.read|)]
                else b.audit)
  }

  // ---------------------------------------------------------- remote delivery

  /** The ids of messages that are not themselves replays. */
  function Letters(ms: seq<Msg>, ids: seq<int>): (out: seq<int>)
    requires forall i | 0 <= i < |ids| :: 1 <= ids[i] <= |ms|
    requires forall i, j | 0 <= i < j < |ids| :: ids[i] < ids[j]
    ensures forall i, j | 0 <= i < j < |out| :: out[i] < out[j]
    ensures forall n :: n in out <==> n in ids && ms[n - 1].kind != "replay"
  {
    if ids == [] then []
    else
      var so := Letters(ms, ids[..|ids| - 1]);
      assert forall i | 0 <= i < |so| :: so[i] in so;
      assert ids == ids[..|ids| - 1] + [ids[|ids| - 1]];
      if ms[ids[|ids| - 1] - 1].kind != "replay" then so + [ids[|ids| - 1]] else so
  }

  function Pending(b: Bus, a: string): seq<int> {
    var ids := IdsAfter(b.messages, a, CurOf(b, a).last);
    assert forall i | 0 <= i < |ids| :: ids[i] in ids;
    Take(Letters(b.messages, ids), RECV_LIMIT)
  }

  /** `pending_blocking_ids`. */
  function Blocking(w: World, g: Gate, b: Bus, a: string): set<int> {
    set i | i in Pending(b, a) && 1 <= i <= |b.messages| && Blocks(w, g, b.messages[i - 1])
  }

  function Positive(ids: seq<int>): set<int> { set i | i in ids && i > 0 }

  function RefusedIds(w: World, g: Gate, b: Bus, a: string, ids: set<int>): set<int> {
    set i | i in ids && i in Mine(b.messages, a) && Refused(w, g, b.messages[i - 1])
  }

  function RowsFor(a: string, ids: seq<int>, op: Op): (rows: seq<Row>)
    ensures |rows| == |ids| && forall i | 0 <= i < |rows| :: rows[i] == Row(a, ids[i], ids[i], op, 0)
  {
    if ids == [] then [] else RowsFor(a, ids[..|ids| - 1], op) + [Row(a, ids[|ids| - 1], ids[|ids| - 1], op, 0)]
  }

  /** The top of the delivered prefix once `ids` are read: just below the first row still to come. */
  function WaterLevel(w: World, g: Gate, b: Bus, a: string, ids: set<int>): int {
    var left := Blocking(w, g, b, a) * (Mine(b.messages, a) - b.read) - ids;
    if left == {} then HighWater(b.messages, a) else Least(left) - 1
  }

  function MarkDelivered(w: World, g: Gate, b: Bus, a: string, ids: seq<int>): Bus {
    var refused := RefusedIds(w, g, b, a, Positive(ids));
    var good := Positive(ids) - refused;
    var b1 := b.(audit := b.audit + RowsFor(a, Sorted(refused), RemoteRefused));
    if good == {} then b1
    else
      b1.(read := b.read + good * Mine(b.messages, a),
          cursors := b.cursors[a := Cur(CurOf(b, a).last, WaterLevel(w, g, b, a, good))],
          audit := b1.audit + RowsFor(a, Sorted(good), RemoteDelivered))
  }

  // ------------------------------------------------------------- the lifeboat

  /** Originals a wrapped replay answers to. */
  function Answered(ms: seq<Msg>): set<int> {
    set i | 0 <= i < |ms| && ms[i].kind == "replay" && ms[i].inReplyTo.Some? :: ms[i].inReplyTo.value
  }

  predicate IsReject(rows: seq<Row>, a: string, i: int) {
    0 <= i < |rows| && rows[i].agent == a && rows[i].op.EnforceReject?
  }

  predicate Covers(rows: seq<Row>, a: string, j: int, id: int) {
    0 <= j < |rows| && rows[j].agent == a && rows[j].op == RemoteDelivered && rows[j].from <= id <= rows[j].to
  }

  /** The row's rejection is not followed by a delivery of the same id. */
  predicate Open(rows: seq<Row>, a: string, i: int) {
    IsReject(rows, a, i) && forall j | i < j < |rows| :: !Covers(rows, a, j, rows[i].from)
  }

  function OpenRejects(rows: seq<Row>, a: string): set<int> {
    set i | 0 <= i < |rows| && Open(rows, a, i) :: rows[i].from
  }

  /** `reconcile`: mail the cursor passed undelivered, and rejected mail never delivered since. */
  function Lost(b: Bus, a: string): set<int> {
    set i | i in Mine(b.messages, a) && b.messages[i - 1].kind != "replay" && i !in Answered(b.messages)
            && (CurOf(b, a).delivered < i <= CurOf(b, a).last || i in OpenRejects(b.audit, a))
  }

  /** Both ends of the agent's replay rows: neither the original nor the copy is replayed again. */
  function Involved(rows: seq<Row>, a: string): set<int> {
    (set i | 0 <= i < |rows| && rows[i].agent == a && rows[i].op == Replayed :: rows[i].from)
    + (set i | 0 <= i < |rows| && rows[i].agent == a && rows[i].op == Replayed :: rows[i].to)
  }

  /** Rows a replay may carry again: in product mode only those that pass now or may pass later. */
  predicate Carries(w: World, g: Gate, m: Msg) {
    g.Dev? || Judge(w, g, m) == Pass || Judge(w, g, m) == Reject("future-ts")
  }

  function KeepFree(ids: seq<int>, gone: set<int>): seq<int> {
    if ids == [] then []
    else
      var so := KeepFree(ids[..|ids| - 1], gone);
      if ids[|ids| - 1] in gone then so else so + [ids[|ids| - 1]]
  }

  function Candidates(b: Bus, a: string, limit: int): seq<int> {
    KeepFree(Take(Sorted(Lost(b, a)), limit), Involved(b.audit, a))
  }

  /** The wrapped copy names its original; a signed row is carried over unchanged. */
  function Copy(g: Gate, m: Msg, id: nat): Msg {
    if g.Product? && m.sig != "" then m
    else Msg(m.ts, "system", m.recipient, m.topic, "replay", m.thread, Some(id),
             "[replay #" + Digits(id) + " \U{2190} " + m.sender + "] " + m.body, "", "")
  }

  /** `send` stamps a wrapped copy; a signed row keeps its stamp. */
  function Stamped(w: World, g: Gate, b: Bus, m: Msg, id: nat): Msg {
    if g.Product? && m.sig != "" then m else Copy(g, m, id).(ts := w.clock(|b.messages| + 1))
  }

  lemma StampIsNoFault(w: World, g: Gate, b: Bus, m: Msg, id: nat)
    ensures !(g.Product? && m.sig != "") ==> SendFault(w, Stamped(w, g, b, m, id)) == SendFault(w, Copy(g, m, id))
  {
  }

  /** Did the agent's log already record a replay of this original? */
  predicate ReplayedFrom(rows: seq<Row>, a: string, id: int) {
    exists i :: 0 <= i < |rows| && rows[i].agent == a && rows[i].op == Replayed && rows[i].from == id
  }

  /** One candidate: the new message and its row in the log; None if the wrapped copy does not pass `send`. */
  function ReplayOne(w: World, g: Gate, b: Bus, a: string, id: int): Option<Bus>
    requires 1 <= id <= |b.messages|
  {
    var m := b.messages[id - 1];
    var signed := g.Product? && m.sig != "";
    if !Carries(w, g, m) || (signed && ReplayedFrom(b.audit, a, id)) then Some(b)
    else if !signed && SendFault(w, Copy(g, m, id)).Some? then None
    else Some(Insert(b, Stamped(w, g, b, m, id)).(audit := b.audit + [Row(a, id, |b.messages| + 1, Replayed, 0)]))
  }

  /** The loop over the candidates; a refused copy ends it, and what was done stays done. */
  function ReplayAll(w: World, g: Gate, b: Bus, a: string, ids: seq<int>): Bus
    decreases |ids|
  {
    if ids == [] || !(1 <= ids[0] <= |b.messages|) then b
    else
      match ReplayOne(w, g, b, a, ids[0])
      case None => b
      case Some(b1) => ReplayAll(w, g, b1, a, ids[1..])
  }

  /** In product mode an error of the gate stops the replay before it writes anything. */
  predicate GateWorks(w: World, g: Gate, b: Bus, ids: seq<int>) {
    g.Dev? || forall i | 0 <= i < |ids| && 1 <= ids[i] <= |b.messages| :: Judge(w, g, b.messages[ids[i] - 1]) != Raise
  }

  function Replay(w: World, g: Gate, b: Bus, a: string, limit: int): Bus {
    var ids := Candidates(b, a, limit);
    if GateWorks(w, g, b, ids) then ReplayAll(w, g, b, a, ids) else b
  }

  // ------------------------------------------------------------------------ runs

  datatype Event =
    | Sent(m: Msg)
    | Peeked(a: string, limit: int, g: Gate)
    | Received(a: string, limit: int, g: Gate)
    | Acked(a: string, upto: int, strict: bool)
    | Marked(a: string, ids: seq<int>, g: Gate)
    | Replays(a: string, limit: int, g: Gate)

  function Step(w: World, b: Bus, e: Event): Bus {
    match e
    case Sent(m) => Send(w, b, m).0
    case Peeked(a, limit, g) => Peek(w, g, b, a, limit).0
    case Received(a, limit, g) => Recv(w, g, b, a, limit).0
    case Acked(a, upto, strict) => Ack(b, a, upto, strict)
    case Marked(a, ids, g) => MarkDelivered(w, g, b, a, ids)
    case Replays(a, limit, g) => Replay(w, g, b, a, limit)
  }

  function Run(w: World, events: seq<Event>): Bus {
    if events == [] then EMPTY else Step(w, Run(w, events[..|events| - 1]), events[|events| - 1])
  }
}
