/**
  The one pass of `reconcile` (bus_notary.py) over the acks, rounds and
  deliveries of one identity: it follows the cursor from entry to entry and
  collects what does not fit.
*/
module CursorFold {
  import opened Wrappers
  import opened CanonicalJson
  import opened NotaryLog
  import opened Reasons

  datatype Kind =
    | UnparsableCursor | ReasonMismatch | TargetExceedsAck | MovedWithoutAck | SkipsUndelivered
    | RepliesMismatch | NextIdContradicts | DeliveredWithoutRound
    | RepliesOutcomeUnknown | PendingUnknown | MovedWithoutRound

  datatype Item = Item(kind: Kind, at: SeqVal)

  /** Rounds not yet acknowledged, merged: the sums, and the strictest bounds. */
  datatype Rounds = Rounds(pending: nat, replies: nat, maxId: Option<nat>, nextId: Option<nat>, unknown: bool, at: SeqVal)

  /** The round whose deliveries are being counted. */
  datatype Open = Open(at: SeqVal, replies: nat, delivered: nat, pending: nat, maxId: Option<nat>, nextId: Option<nat>,
                       unknown: bool, zeroConflict: bool)

  datatype FState = FState(
    disc: seq<Item>, unresolved: seq<Item>, acks: seq<nat>, expected: int, ackFrom: Option<nat>,
    roundOpen: bool, round: Option<Open>, last: Option<Rounds>, anyRound: bool)

  /** Whose log, where its cursor started, and how hard `reconcile` judges. */
  datatype Setting = Setting(identity: string, start: int, strict: bool, presumed: bool)

  function Fresh(start: int): FState {
    FState([], [], [], start, None, false, None, None, false)
  }

  // ---------------------------------------------------- reading an entry

  /** `_ints`: the named cursor field as a non-negative int, if it is one. */
  function NatAt(c: Json, key: string): Option<nat> {
    if c.Obj? && key in c.m && c.m[key].Int? && c.m[key].n >= 0 then Some(c.m[key].n) else None
  }

  predicate Truthy(c: Json, key: string) {
    c.Obj? && key in c.m &&
    match c.m[key]
    case Null => false
    case Bool(b) => b
    case Int(n) => n != 0
    case Float(r) => r != 0.0
    case Str(s) => s != ""
    case Arr(xs) => xs != []
    case Obj(m) => m != map[]
  }

  function StructuredAck(c: Json): Option<(nat, nat, nat)> {
    match (NatAt(c, "from"), NatAt(c, "to"), NatAt(c, "ack"))
    case (Some(f), Some(t), Some(u)) => Some((f, t, u))
    case _ => None
  }

  function StructuredRound(c: Json): Option<(nat, nat)> {
    match (NatAt(c, "at"), NatAt(c, "replies"))
    case (Some(a), Some(r)) => Some((a, r))
    case _ => None
  }

  function AckNumbers(e: Entry): Option<(nat, nat, nat)> {
    if StructuredAck(CursorOf(e)).Some? then StructuredAck(CursorOf(e)) else ParseAck(e.reason)
  }

  function RoundNumbers(e: Entry): Option<(nat, nat)> {
    if StructuredRound(CursorOf(e)).Some? then StructuredRound(CursorOf(e)) else ParseRound(e.reason)
  }

  predicate IsAck(e: Entry) { e.kind == "ack" && e.decision == "accepted" }
  predicate IsAckRejected(e: Entry) { e.kind == "ack" && e.decision == "rejected" }
  predicate IsRound(e: Entry) { e.kind == "pickup" && e.decision == "accepted" }
  predicate IsDelivery(e: Entry) { e.kind == "pickup" && e.decision == "delivered" }

  // ------------------------------------------------------------ the steps

  function Note1(items: seq<Item>, bad: bool, kind: Kind, at: SeqVal): seq<Item> {
    if bad then items + [Item(kind, at)] else items
  }

  /** `flag`: hard under strict, otherwise unresolved. */
  function Flag(g: Setting, st: FState, bad: bool, kind: Kind, at: SeqVal): FState {
    if !bad then st
    else if g.strict then st.(disc := st.disc + [Item(kind, at)])
    else st.(unresolved := st.unresolved + [Item(kind, at)])
  }

  function MinPositive(a: Option<nat>, b: Option<nat>): Option<nat> {
    match (a, b)
    case (Some(x), Some(y)) => Some(if x < y then x else y)
    case (Some(x), None) => Some(x)
    case (None, y) => y
  }

  function MaxOf(a: Option<nat>, b: Option<nat>): Option<nat> {
    match (a, b)
    case (Some(x), Some(y)) => Some(if x > y then x else y)
    case (Some(x), None) => Some(x)
    case (None, y) => y
  }

  function Merge(last: Option<Rounds>, r: Open): Rounds {
    match last
    case None => Rounds(r.pending, r.replies, r.maxId, r.nextId, r.unknown, r.at)
    case Some(l) => Rounds(l.pending + r.pending, l.replies + r.replies, MaxOf(l.maxId, r.maxId),
                           MinPositive(l.nextId, r.nextId), l.unknown || r.unknown, l.at)
  }

  /** `close_round`: the reply count is bound, and the round joins those not yet acknowledged. */
  function CloseRound(g: Setting, st: FState): FState {
    match st.round
    case None => st
    case Some(r) =>
      var short := r.delivered != r.replies;
      var st1 := if short && g.presumed then st.(unresolved := st.unresolved + [Item(RepliesOutcomeUnknown, r.at)])
                 else Flag(g, st, short, RepliesMismatch, r.at);
      st1.(disc := Note1(st1.disc, r.zeroConflict, NextIdContradicts, r.at), last := Some(Merge(st1.last, r)))
  }

  /** The highest cursor a truncated set of rounds leaves free. */
  function Limit(l: Rounds, from: nat): int {
    match l.nextId
    case Some(n) => n - 1
    case None => match l.maxId
                 case Some(m) => m
                 case None => from
  }

  predicate Skips(last: Option<Rounds>, from: nat, to: nat) {
    last.Some? && last.value.pending > last.value.replies && to > Limit(last.value, from)
  }

  function AckDisc(st: FState, e: Entry, f: nat, t: nat, u: nat): seq<Item> {
    var parsed := ParseAck(e.reason);
    var d1 := Note1(st.disc, CursorOf(e) != Null && parsed.Some? && parsed != Some((f, t, u)), ReasonMismatch, e.seqNo);
    var d2 := Note1(d1, t > (if f > u then f else u), TargetExceedsAck, e.seqNo);
    var d3 := Note1(d2, f != st.expected, MovedWithoutAck, e.seqNo);
    Note1(d3, Skips(st.last, f, t), SkipsUndelivered, e.seqNo)
  }

  function AckUnresolved(st: FState, e: Entry, f: nat, t: nat): seq<Item> {
    var u1 := Note1(st.unresolved, st.last.Some? && st.last.value.unknown && t > f, PendingUnknown, e.seqNo);
    Note1(u1, !st.anyRound && t > f, MovedWithoutRound, e.seqNo)
  }

  function AckStep(g: Setting, st0: FState, e: Entry): FState {
    var st := CloseRound(g, st0).(roundOpen := false, round := None);
    match AckNumbers(e)
    case None => Flag(g, st, true, UnparsableCursor, e.seqNo)
    case Some((f, t, u)) =>
      st.(acks := st.acks + [u], disc := AckDisc(st, e, f, t, u), unresolved := AckUnresolved(st, e, f, t),
          last := None, anyRound := false, expected := t, ackFrom := Some(f))
  }

  function RejectedStep(g: Setting, st0: FState): FState {
    var st := if st0.ackFrom.Some? then st0.(expected := st0.ackFrom.value, ackFrom := None) else st0;
    CloseRound(g, st).(roundOpen := false, round := None)
  }

  /** What a round entry says about what it left behind; a missing field is a third state. */
  function Opened(e: Entry, replies: nat): Open {
    var c := CursorOf(e);
    var pending, declared, next := NatAt(c, "pending"), NatAt(c, "replies"), NatAt(c, "next_id");
    var truncated := pending.Some? && declared.Some? && pending.value > declared.value;
    Open(e.seqNo, replies, 0, if pending.Some? then pending.value else replies, None,
         if next.Some? && next.value > 0 then next else None,
         Truthy(c, "pending_unknown") || Truthy(c, "pending_truncated") || pending.None? || (truncated && next.None?),
         truncated && next == Some(0))
  }

  function RoundStep(g: Setting, st0: FState, e: Entry): FState {
    var st := CloseRound(g, st0);
    match RoundNumbers(e)
    case None => Flag(g, st, true, UnparsableCursor, e.seqNo).(roundOpen := false, round := None)
    case Some((at, replies)) =>
      var parsed := ParseRound(e.reason);
      var mismatch := StructuredRound(CursorOf(e)).Some? && parsed.Some? && parsed != Some((at, replies));
      var d1 := Note1(st.disc, mismatch, ReasonMismatch, e.seqNo);
      st.(disc := Note1(d1, at != st.expected, MovedWithoutAck, e.seqNo), expected := at,
          roundOpen := true, round := Some(Opened(e, replies)), anyRound := true)
  }

  function DeliveryStep(g: Setting, st: FState, e: Entry): FState {
    if !st.roundOpen || st.round.None? then Flag(g, st, true, DeliveredWithoutRound, e.seqNo)
    else
      var r := st.round.value;
      var id := NatAt(CursorOf(e), "id");
      st.(round := Some(r.(delivered := r.delivered + 1, maxId := MaxOf(r.maxId, id))))
  }

  function Step(g: Setting, st: FState, e: Entry): FState {
    if e.recipient != g.identity then st
    else if IsAck(e) then AckStep(g, st, e)
    else if IsAckRejected(e) then RejectedStep(g, st)
    else if IsRound(e) then RoundStep(g, st, e)
    else if IsDelivery(e) then DeliveryStep(g, st, e)
    else st
  }

  function Fold(g: Setting, es: seq<Entry>): FState {
    if es == [] then Fresh(g.start) else Step(g, Fold(g, es[..|es| - 1]), es[|es| - 1])
  }

  /** The fold, with the round still open at the end of the log closed. */
  function CursorReport(g: Setting, es: seq<Entry>): FState { CloseRound(g, Fold(g, es)) }

  /** The loop of `reconcile` over the log's entries. */
  method FollowCursor(g: Setting, es: seq<Entry>) returns (st: FState)
    ensures st == CursorReport(g, es)
  {
    hide AckStep, RejectedStep, RoundStep, DeliveryStep, CloseRound;
    st := Fresh(g.start);
    for i := 0 to |es|
      invariant st == Fold(g, es[..i])
    {
      assert es[..i + 1][..i] == es[..i];
      var e := es[i];
      if e.recipient != g.identity {
        continue;
      }
      if IsAck(e) {
        st := AckStep(g, st, e);
      } else if IsAckRejected(e) {
        st := RejectedStep(g, st);
      } else if IsRound(e) {
        st := RoundStep(g, st, e);
      } else if IsDelivery(e) {
        st := DeliveryStep(g, st, e);
      }
    }
    assert es[..|es|] == es;
    st := CloseRound(g, st);
  }
}
