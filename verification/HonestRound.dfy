/**
  What one complete round writes about its own identity (bus_ssh_exchange.py), seen
  through the two counters and the cursor fold of `reconcile` (bus_notary.py).
*/
module HonestRound {
  import opened Wrappers
  import opened CanonicalJson
  import opened NotaryLog
  import opened Reasons
  import opened BusState
  import opened BusOps
  import opened CursorFold
  import opened OwnEntries
  import opened Exchange
  import opened LogFirst
  import opened ReplyPage
  import opened Reconcile

  const ID_MAX := 0x7fff_ffff_ffff_ffff

  // -------------------------------------------------------------- what a note adds

  predicate IsAnchor(key: string) {
    key == "audit_seq" || key == "audit_hash" || key == "closes" || key == "audit_end_seq" || key == "audit_end_hash"
  }

  lemma PlainKeys()
    ensures !IsAnchor("from") && !IsAnchor("to") && !IsAnchor("ack") && !IsAnchor("at") && !IsAnchor("replies")
    ensures !IsAnchor("pending") && !IsAnchor("next_id") && !IsAnchor("pending_unknown")
    ensures !IsAnchor("pending_truncated") && !IsAnchor("id")
  {
    assert |"from"| == 4 && |"to"| == 2 && |"ack"| == 3 && |"at"| == 2 && |"id"| == 2;
    assert "replies"[0] == 'r' && "pending"[0] == 'p' && "next_id"[0] == 'n';
    assert "pending_unknown"[0] == 'p' && "pending_truncated"[0] == 'p';
  }

  /** The entry's cursor is the line's, apart from the notary's own anchors. */
  ghost predicate SameButAnchors(e: Entry, l: Line) {
    match l.cursor
    case None => e.cursor == None
    case Some(m) =>
      && e.cursor.Some? && e.cursor.value.Obj?
      && forall key | !IsAnchor(key) :: Field(e.cursor.value, key) == (if key in m then m[key] else Null)
  }

  predicate Made(h: Host, q: Request, e: Entry, l: Line) {
    && e.sender == q.identity && e.recipient == l.recipient && e.kind == l.kind && e.decision == l.decision
    && e.envSha == EnvelopeSha(h.c, l.env) && e.reason == Take200(l.reason)
  }

  lemma AnchoredKeepsRest(n: Note)
    requires n.cursor.Some?
    ensures Anchored(n).Some?
    ensures forall key | !IsAnchor(key) ::
              (key in Anchored(n).value <==> key in n.cursor.value)
              && (key in n.cursor.value ==> Anchored(n).value[key] == n.cursor.value[key])
  {
  }

  lemma SealedMade(h: Host, q: Request, t: Tail, n: nat, l: Line)
    requires Sealed(h.c, t, NoteOf(q, n, l)).Ok?
    ensures Made(h, q, Sealed(h.c, t, NoteOf(q, n, l)).value, l)
    ensures SameButAnchors(Sealed(h.c, t, NoteOf(q, n, l)).value, l)
  {
    hide EntryHash, EnvelopeSha, Take200;
    var note := NoteOf(q, n, l);
    if l.cursor.Some? {
      AnchoredKeepsRest(note);
      hide Anchored;
    }
  }

  /** A note that does not fail appends exactly its own entry. */
  lemma WriteAppends(h: Host, q: Request, k: Work, l: Line)
    ensures var k1 := Write(h, q, k, l);
            !k1.stopped ==>
              !k.stopped
              && exists e :: Entries(k1.file) == Entries(k.file) + [e] && Made(h, q, e, l) && SameButAnchors(e, l)
  {
    hide Sealed, TailOf, NoteOf, Entries, EnvelopeSha, Take200, SameButAnchors, Made;
    var k1 := Write(h, q, k, l);
    if !k1.stopped {
      var n := NoteOf(q, k.notes, l);
      RecordEntries(h.c, h.pub, h.every, k.file, n);
      RecordOk(h.c, h.pub, h.every, k.file, n);
      SealedMade(h, q, TailOf(k.file), k.notes, l);
    }
  }

  lemma RecordOk(c: Crypto, pub: string, every: nat, file: seq<Record>, n: Note)
    ensures RecordStep(c, pub, every, file, n).0.Ok? ==> Sealed(c, TailOf(file), n).Ok?
  {
    hide Sealed, TailOf, MakeCkpt;
  }

  // ------------------------------------------------------------------- the books

  /** What `reconcile` makes of the identity's own entries: the cursor fold and the two counters. */
  datatype Books = Books(fold: FState, sent: multiset<string>, delivered: multiset<string>)

  function BooksOf(g: Setting, es: seq<Entry>): Books {
    Books(OwnFold(g, es), LoggedSent(es, g.identity), LoggedDelivered(es, g.identity))
  }

  lemma BooksAppend(g: Setting, es: seq<Entry>, e: Entry)
    requires e.sender == g.identity
    ensures BooksOf(g, es + [e])
         == Books(CursorFold.Step(g, OwnFold(g, es), e),
                  LoggedSent(es, g.identity) + (if CountsAsSent(e, g.identity) then multiset{e.envSha} else multiset{}),
                  LoggedDelivered(es, g.identity)
                  + (if CountsAsDelivered(e, g.identity) then multiset{e.envSha} else multiset{}))
  {
    hide CursorFold.Step, CountsAsSent, CountsAsDelivered;
    assert (es + [e])[..|es|] == es;
  }

  /** Another identity's entry, and no delivery to this one. */
  predicate Foreign(e: Entry, id: string) { e.sender != id && !CountsAsDelivered(e, id) }

  lemma ForeignAddsNothing(g: Setting, es: seq<Entry>, e: Entry)
    requires Foreign(e, g.identity)
    ensures BooksOf(g, es + [e]) == BooksOf(g, es)
  {
    hide CursorFold.Step, CountsAsDelivered;
    assert (es + [e])[..|es|] == es;
  }

  /** Rounds not yet acknowledged: those that left mail behind name what is next, and it is out of reach. */
  predicate Fits(l: Rounds, reach: Option<int>) {
    && !l.unknown && (l.pending > l.replies ==> l.nextId.Some?)
    && (l.nextId.Some? ==> reach.Some? && reach.value < l.nextId.value)
  }

  /** Between the parts of a round: the fold stands at the cursor, and what was left behind is out of reach. */
  predicate Tidy(st: FState, cur: int, reach: Option<int>) {
    Settled(st) && st.expected == cur && (Merged(st).Some? ==> Fits(Merged(st).value, reach))
  }

  lemma TidyLater(st: FState, cur: int, reach: Option<int>, later: Option<int>)
    requires Tidy(st, cur, reach) && (reach.Some? ==> later == reach)
    ensures Tidy(st, cur, later)
  {
    hide Settled, Merged;
  }

  // --------------------------------------------------------------------- the ack

  function Pow10(k: nat): nat { if k == 0 then 1 else 10 * Pow10(k - 1) }

  lemma {:induction false} ShortDigits(n: nat, k: nat)
    requires k >= 1 && n < Pow10(k)
    ensures |Digits(n)| <= k
  {
    if n >= 10 {
      ShortDigits(n / 10, k - 1);
    }
  }

  lemma IdDigits(n: nat)
    requires n <= ID_MAX
    ensures |Digits(n)| <= 19
  {
    assert Pow10(5) == 100_000;
    assert Pow10(10) == 10_000_000_000;
    assert Pow10(15) == 1_000_000_000_000_000;
    assert Pow10(19) == 10_000_000_000_000_000_000;
    ShortDigits(n, 19);
  }

  lemma AckReasonWhole(from: nat, to: nat, ack: nat)
    requires from <= ID_MAX && to <= ID_MAX && ack <= ID_MAX
    ensures Take200(AckReason(from, to, ack)) == AckReason(from, to, ack)
  {
    IdDigits(from);
    IdDigits(to);
    IdDigits(ack);
  }

  lemma RoundReasonWhole(at: nat, replies: nat)
    requires at <= ID_MAX && replies <= ID_MAX
    ensures Take200(RoundReason(at, replies)) == RoundReason(at, replies)
  {
    IdDigits(at);
    IdDigits(replies);
  }

  lemma AckEntryFields(h: Host, q: Request, e: Entry, from: nat, to: nat)
    requires q.ack > 0 && SameButAnchors(e, AckLine(q, from, to))
    ensures StructuredAck(CursorOf(e)) == Some((from, to, q.ack))
  {
    PlainKeys();
    hide IsAnchor, AckReason;
    var c := e.cursor.value;
    assert Field(c, "from") == Int(from) && Field(c, "to") == Int(to) && Field(c, "ack") == Int(q.ack);
  }

  lemma AckEntryReads(h: Host, q: Request, e: Entry, from: nat, to: nat)
    requires q.ack > 0 && from <= ID_MAX && to <= ID_MAX && q.ack <= ID_MAX
    requires Made(h, q, e, AckLine(q, from, to)) && SameButAnchors(e, AckLine(q, from, to))
    ensures AckNumbers(e) == Some((from, to, q.ack)) && ParseAck(e.reason) == Some((from, to, q.ack))
    ensures e.sender == q.identity == e.recipient && IsAck(e)
    ensures !CountsAsSent(e, q.identity) && !CountsAsDelivered(e, q.identity)
  {
    AckEntryFields(h, q, e, from, to);
    AckReasonWhole(from, to, q.ack);
    AckReasonRoundTrip(from, to, q.ack);
    hide ParseAck, AckReason, Take200, EnvelopeSha, SameButAnchors, StructuredAck;
  }

  /** One more leap of the cursor, or none. */
  predicate LeapsBy(items: seq<Item>, more: seq<Item>, leap: bool) {
    if leap then |more| == |items| + 1 && items <= more && more[|items|].kind == MovedWithoutRound else more == items
  }

  /** An ack up to what is in reach raises no finding but a leap, and forgets the rounds before. */
  lemma AckStaysClean(g: Setting, st: FState, e: Entry, cur: nat, to: nat, stored: nat, reach: Option<int>, now: Option<int>)
    requires Tidy(st, cur, reach) && cur <= to && (to <= stored || to == cur) && (reach.Some? ==> to <= reach.value)
    requires AckNumbers(e) == Some((cur, to, stored)) && ParseAck(e.reason) == AckNumbers(e)
    ensures var t := AckStep(g, st, e);
            && Tidy(t, to, now) && t.acks == st.acks + [stored] && !t.anyRound
            && LeapsBy(st.unresolved, t.unresolved, to > cur && !st.anyRound)
  {
    hide AckNumbers, ParseAck;
    CloseSettled(g, st);
    hide CloseRound, Merge;
    assert !Skips(Merged(st), cur, to);
    hide Merged, Skips, Fits;
    AckLeaps(st, AckStep(g, st, e), e, cur, to, stored);
  }

  lemma AckLeaps(st: FState, t: FState, e: Entry, cur: nat, to: nat, stored: nat)
    requires Settled(st) && t.disc == [] && t.unresolved == st.unresolved + LeapOf(st, e, (cur, to, stored))
    requires t.round.None? && !t.roundOpen
    ensures Settled(t) && LeapsBy(st.unresolved, t.unresolved, to > cur && !st.anyRound)
  {
  }

  /** The whole ack of a round: an entry if anything is stored, and the cursor at its target. */
  lemma OwnAck(h: Host, q: Request, g: Setting, k: Work)
    requires g.identity == q.identity && !k.stopped && !q.f.ack && 0 <= q.ack <= ID_MAX
    requires 0 <= CurOf(k.bus, q.identity).last <= ID_MAX && InReach(k.bus, q.identity, q.ack)
    requires Tidy(BooksOf(g, Entries(k.file)).fold, CurOf(k.bus, q.identity).last, Reach(k.bus, q.identity))
    requires !AckPart(h, q, k).stopped
    ensures var k1, b, cur := AckPart(h, q, k), BooksOf(g, Entries(k.file)), CurOf(k.bus, q.identity).last;
            var b1, now := BooksOf(g, Entries(k1.file)), CurOf(k1.bus, q.identity).last;
            && now == AckTarget(k.bus, q.identity, q.ack, q.strict)
            && Tidy(b1.fold, now, Reach(k1.bus, q.identity))
            && b1.sent == b.sent && b1.delivered == b.delivered
            && b1.fold.acks == b.fold.acks + (if q.ack > 0 then [q.ack] else [])
            && b1.fold.anyRound == (q.ack == 0 && b.fold.anyRound)
            && LeapsBy(b.fold.unresolved, b1.fold.unresolved, now > cur && !b.fold.anyRound)
  {
    hide Write, AckStep, RoundStep, DeliveryStep, RejectedStep, HighWater, AckLine, AckFailedLine, Entries, Made, Reach,
      SameButAnchors, OwnFold, LoggedSent, LoggedDelivered, UpTo, Between, Mine, Tidy, LeapsBy;
    var cur, to := CurOf(k.bus, q.identity).last, AckTarget(k.bus, q.identity, q.ack, q.strict);
    ReachBounds(k.bus, q.identity);
    if q.ack > 0 {
      assert cur <= to && (to <= q.ack || to == cur) && (Reach(k.bus, q.identity).Some? ==> to <= Reach(k.bus, q.identity).value);
      var l := AckLine(q, cur, to);
      var w := Write(h, q, k, l);
      WriteAppends(h, q, k, l);
      var e :| Entries(w.file) == Entries(k.file) + [e] && Made(h, q, e, l) && SameButAnchors(e, l);
      AckEntryReads(h, q, e, cur, to);
      BooksAppend(g, Entries(k.file), e);
      WriteLogs(h, q, k, l);
      AckStaysClean(g, OwnFold(g, Entries(k.file)), e, cur, to, q.ack, Reach(k.bus, q.identity),
                    Reach(AckPart(h, q, k).bus, q.identity));
    } else {
      NoLeap(BooksOf(g, Entries(k.file)).fold.unresolved);
    }
  }

  lemma NoLeap(items: seq<Item>)
    ensures LeapsBy(items, items, false)
  {
  }

  // ---------------------------------------------------------------- the messages

  /** A dict whose kind is not one the log uses for its own entries. */
  predicate Countable(h: Host, m: Json) {
    m.Obj? && (Shaped(m) ==> MessageKind(h, m) != "ack" && MessageKind(h, m) != "pickup")
  }

  lemma OtherKindsPass(g: Setting, st: FState, e: Entry)
    requires e.kind != "ack" && e.kind != "pickup"
    ensures CursorFold.Step(g, st, e) == st && !CountsAsDelivered(e, g.identity)
  {
    hide AckStep, RejectedStep, RoundStep, DeliveryStep;
  }

  /** One more entry of another kind: it counts as sent unless it corrects an earlier one. */
  lemma MessageBooks(h: Host, q: Request, g: Setting, es: seq<Entry>, e: Entry, l: Line)
    requires g.identity == q.identity && Made(h, q, e, l) && l.kind != "ack" && l.kind != "pickup"
    requires l.env.Obj? && |l.reason| <= 200
    ensures var b, b1 := BooksOf(g, es), BooksOf(g, es + [e]);
            b1 == b.(sent := b.sent + if l.decision == "rejected" && l.reason in ["send_failed", "store_failed"] then multiset{}
                                      else multiset{EnvelopeHash(h.c, l.env)})
  {
    hide EnvelopeHash, OwnFold, LoggedSent, LoggedDelivered;
    OtherKindsPass(g, OwnFold(g, es), e);
    hide CursorFold.Step;
    BooksAppend(g, es, e);
    assert l.reason in ["send_failed", "store_failed"] <==> l.reason == "send_failed" || l.reason == "store_failed";
  }

  lemma WriteMessage(h: Host, q: Request, g: Setting, k: Work, l: Line)
    requires g.identity == q.identity && l.kind != "ack" && l.kind != "pickup" && l.env.Obj? && |l.reason| <= 200
    requires !Write(h, q, k, l).stopped
    ensures var b, b1 := BooksOf(g, Entries(k.file)), BooksOf(g, Entries(Write(h, q, k, l).file));
            b1 == b.(sent := b.sent + if l.decision == "rejected" && l.reason in ["send_failed", "store_failed"] then multiset{}
                                      else multiset{EnvelopeHash(h.c, l.env)})
  {
    hide Write, Entries, Made, SameButAnchors, BooksOf, EnvelopeHash;
    WriteAppends(h, q, k, l);
    var e :| Entries(Write(h, q, k, l).file) == Entries(k.file) + [e] && Made(h, q, e, l) && SameButAnchors(e, l);
    MessageBooks(h, q, g, Entries(k.file), e, l);
  }

  lemma OwnMessage(h: Host, q: Request, g: Setting, k: Work, i: nat, m: Json)
    requires g.identity == q.identity && !k.stopped && Countable(h, m) && !MessageStep(h, q, k, i, m).stopped
    ensures var b, b1 := BooksOf(g, Entries(k.file)), BooksOf(g, Entries(MessageStep(h, q, k, i, m).file));
            b1 == b.(sent := b.sent + multiset{EnvelopeHash(h.c, m)})
  {
    hide Write, SendFault, RowOf, Entries, BooksOf, EnvelopeHash, Shaped, MessageKind;
    var kr := k.(rejected := k.rejected + [i]);
    if !Shaped(m) {
      WriteMessage(h, q, g, kr, MalformedLine(h, m));
    } else if LacksSignature(q, m) {
      WriteMessage(h, q, g, kr, MessageLine(h, m, "rejected", "unsigned-pinned"));
    } else {
      var l, failed := MessageLine(h, m, "accepted", ""), MessageLine(h, m, "rejected", "send_failed");
      var k1 := Write(h, q, k, l);
      var k1r := k1.(rejected := k1.rejected + [i]);
      StoppedStays(h, q, k1r, failed);
      assert !k1.stopped;
      WriteMessage(h, q, g, k, l);
      if InsertFails(q, i, m) || Send(h.w, k1.bus, RowOf(h, q, i, m)).1.Err? {
        WriteMessage(h, q, g, k1r, failed);
      }
    }
  }

  lemma {:induction false} HashAllSteps(c: Crypto, ms: seq<Json>, n: nat)
    requires n < |ms|
    ensures HashAll(c, ms[..n + 1]) == HashAll(c, ms[..n]) + multiset{EnvelopeHash(c, ms[n])}
  {
    assert ms[..n + 1][..n] == ms[..n];
  }

  lemma {:induction false} OwnMessages(h: Host, q: Request, g: Setting, k: Work, n: nat)
    requires g.identity == q.identity && n <= |q.messages| && !MessagesPart(h, q, k, n).stopped
    requires forall i | 0 <= i < |q.messages| :: Countable(h, q.messages[i])
    ensures !k.stopped
    ensures var b, b1 := BooksOf(g, Entries(k.file)), BooksOf(g, Entries(MessagesPart(h, q, k, n).file));
            b1 == b.(sent := b.sent + HashAll(h.c, q.messages[..n]))
  {
    hide MessageStep, Entries, BooksOf, EnvelopeHash, Countable;
    if n == 0 {
      assert q.messages[..0] == [];
      assert BooksOf(g, Entries(k.file)).sent + multiset{} == BooksOf(g, Entries(k.file)).sent;
    } else {
      var so := MessagesPart(h, q, k, n - 1);
      assert !so.stopped by {
        if so.stopped {
          StoppedMessage(h, q, so, n - 1, q.messages[n - 1]);
        }
      }
      OwnMessages(h, q, g, k, n - 1);
      OwnMessage(h, q, g, so, n - 1, q.messages[n - 1]);
      HashAllSteps(h.c, q.messages, n - 1);
    }
  }

  // ------------------------------------------------------------- the round entry

  lemma RoundCursorFields(at: int, replies: nat, pending: nat, next: int, c: Clamp)
    requires pending <= PEND_LIMIT
    ensures var m := Exchange.RoundCursor(at, replies, Queue(pending, next), c);
            && "at" in m && m["at"] == Int(at) && "replies" in m && m["replies"] == Int(replies)
            && "pending" in m && m["pending"] == Int(pending) && "next_id" in m && m["next_id"] == Int(next)
            && "pending_unknown" !in m && "pending_truncated" !in m
  {
    assert |"strict_ack"| == 10 && |"strict_ack_unknown"| == 18 && |"pending_unknown"| == 15 && |"pending_truncated"| == 17;
    assert |"at"| == 2 && |"replies"| == 7 && |"pending"| == 7 && |"next_id"| == 7;
    assert "replies"[0] == 'r' && "pending"[0] == 'p' && "next_id"[0] == 'n';
  }

  lemma RoundEntryFields(h: Host, q: Request, e: Entry, at: int, replies: seq<Json>, pending: nat, next: int)
    requires pending <= PEND_LIMIT && SameButAnchors(e, RoundLine(h, q, at, replies, Queue(pending, next)))
    ensures e.cursor.Some? && e.cursor.value.Obj?
    ensures var c := e.cursor.value;
            && Field(c, "at") == Int(at) && Field(c, "replies") == Int(|replies|)
            && Field(c, "pending") == Int(pending) && Field(c, "next_id") == Int(next)
            && Field(c, "pending_unknown") == Null && Field(c, "pending_truncated") == Null
  {
    PlainKeys();
    RoundCursorFields(at, |replies|, pending, next, q.clamp);
    hide IsAnchor, Exchange.RoundCursor, RoundReason, Hashes;
  }

  lemma FieldIsNat(c: Json, key: string)
    ensures NatAt(c, key) == (if Field(c, key).Int? && Field(c, key).n >= 0 then Some(Field(c, key).n) else None)
    ensures Field(c, key) == Null ==> !Truthy(c, key)
  {
  }

  lemma RoundEntryReads(h: Host, q: Request, e: Entry, at: nat, replies: seq<Json>, pending: nat, next: nat)
    requires pending <= PEND_LIMIT && at <= ID_MAX && |replies| <= ID_MAX
    requires Made(h, q, e, RoundLine(h, q, at, replies, Queue(pending, next)))
    requires SameButAnchors(e, RoundLine(h, q, at, replies, Queue(pending, next)))
    ensures RoundNumbers(e) == Some((at, |replies|)) && ParseRound(e.reason) == Some((at, |replies|))
    ensures var r := Opened(e, |replies|);
            && r.replies == |replies| && r.delivered == 0 && r.pending == pending && r.maxId == None && !r.unknown
            && r.nextId == (if next > 0 then Some(next) else None)
            && (r.zeroConflict <==> pending > |replies| && next == 0)
    ensures e.sender == q.identity == e.recipient && IsRound(e)
    ensures !CountsAsSent(e, q.identity) && !CountsAsDelivered(e, q.identity)
  {
    RoundEntryFields(h, q, e, at, replies, pending, next);
    RoundReasonWhole(at, |replies|);
    RoundReasonRoundTrip(at, |replies|);
    var c := e.cursor.value;
    hide ParseRound, RoundReason, Take200, EnvelopeSha, SameButAnchors;
    assert CursorOf(e) == c;
    FieldIsNat(c, "at");
    FieldIsNat(c, "replies");
    FieldIsNat(c, "pending");
    FieldIsNat(c, "next_id");
    FieldIsNat(c, "pending_unknown");
    FieldIsNat(c, "pending_truncated");
    hide NatAt, Truthy, Field;
  }

  /** Inside a round: its entry is written, and n of its replies are delivered. */
  predicate Midway(st: FState, cur: int, replies: nat, pending: nat, next: nat, reach: Option<int>, soft: seq<Item>, n: nat) {
    && st.disc == [] && st.unresolved == soft && OnlyLeaps(soft) && st.expected == cur && st.anyRound && st.roundOpen
    && st.round.Some?
    && (var r := st.round.value;
        && r.replies == replies && r.delivered == n && r.pending == pending && !r.unknown && !r.zeroConflict
        && r.nextId == (if next > 0 then Some(next) else None))
    && (st.last.Some? ==> Fits(st.last.value, reach))
  }

  lemma RoundStaysClean(g: Setting, st: FState, e: Entry, cur: nat, replies: nat, pending: nat, next: nat, reach: Option<int>)
    requires Tidy(st, cur, reach)
    requires RoundNumbers(e) == Some((cur, replies)) && ParseRound(e.reason) == RoundNumbers(e)
    requires var r := Opened(e, replies);
             && r.replies == replies && r.delivered == 0 && r.pending == pending && !r.unknown && !r.zeroConflict
             && r.nextId == (if next > 0 then Some(next) else None)
    ensures Midway(RoundStep(g, st, e), cur, replies, pending, next, reach, st.unresolved, 0)
    ensures RoundStep(g, st, e).acks == st.acks
  {
    hide RoundNumbers, ParseRound, Opened, StructuredRound;
    CloseSettled(g, st);
    hide CloseRound, Merge, Fits, OnlyLeaps;
  }

  lemma DeliveryStaysClean(g: Setting, st: FState, e: Entry, cur: int, replies: nat, pending: nat, next: nat,
                           reach: Option<int>, soft: seq<Item>, n: nat)
    requires Midway(st, cur, replies, pending, next, reach, soft, n)
    ensures Midway(DeliveryStep(g, st, e), cur, replies, pending, next, reach, soft, n + 1)
    ensures DeliveryStep(g, st, e).acks == st.acks
  {
    hide Fits, OnlyLeaps;
  }

  /** A round counted out leaves the fold tidy: what it left behind is out of reach. */
  lemma MidwayEnds(st: FState, cur: nat, replies: nat, pending: nat, next: nat, reach: Option<int>, soft: seq<Item>)
    requires Midway(st, cur, replies, pending, next, reach, soft, replies)
    requires pending > replies ==> next > 0
    requires next > 0 ==> reach.Some? && reach.value < next
    ensures Tidy(st, cur, reach) && st.anyRound && st.unresolved == soft
  {
    hide OnlyLeaps;
  }

  lemma OwnRoundEntry(h: Host, q: Request, g: Setting, k: Work, at: nat, replies: seq<Json>, pending: nat, next: nat,
                      reach: Option<int>)
    requires g.identity == q.identity && at <= ID_MAX && |replies| <= ID_MAX && pending <= PEND_LIMIT
    requires pending > |replies| ==> next > 0
    requires Tidy(BooksOf(g, Entries(k.file)).fold, at, reach)
    requires !Write(h, q, k, RoundLine(h, q, at, replies, Queue(pending, next))).stopped
    ensures var b := BooksOf(g, Entries(k.file));
            var b1 := BooksOf(g, Entries(Write(h, q, k, RoundLine(h, q, at, replies, Queue(pending, next))).file));
            && Midway(b1.fold, at, |replies|, pending, next, reach, b.fold.unresolved, 0)
            && b1.sent == b.sent && b1.delivered == b.delivered && b1.fold.acks == b.fold.acks
  {
    hide Write, AckStep, RoundStep, DeliveryStep, RejectedStep, RoundLine, Entries, Made, SameButAnchors, OwnFold, LoggedSent,
      LoggedDelivered, Opened, RoundNumbers, ParseRound, Tidy, Midway;
    var l := RoundLine(h, q, at, replies, Queue(pending, next));
    WriteAppends(h, q, k, l);
    var e :| Entries(Write(h, q, k, l).file) == Entries(k.file) + [e] && Made(h, q, e, l) && SameButAnchors(e, l);
    RoundEntryReads(h, q, e, at, replies, pending, next);
    BooksAppend(g, Entries(k.file), e);
    RoundStaysClean(g, OwnFold(g, Entries(k.file)), e, at, |replies|, pending, next, reach);
  }

  lemma DeliveryEntryReads(h: Host, q: Request, e: Entry, reply: Json)
    requires Made(h, q, e, DeliveredLine(q, reply)) && reply.Obj?
    ensures e.sender == q.identity == e.recipient && IsDelivery(e) && !IsAck(e) && !IsAckRejected(e) && !IsRound(e)
    ensures !CountsAsSent(e, q.identity) && CountsAsDelivered(e, q.identity)
    ensures e.envSha == EnvelopeHash(h.c, reply)
  {
    hide EnvelopeHash;
  }

  lemma {:induction false} OwnDeliveries(h: Host, q: Request, g: Setting, k: Work, cur: nat, all: nat, pending: nat,
                                         next: nat, reach: Option<int>, soft: seq<Item>, replies: seq<Json>)
    requires g.identity == q.identity && forall i | 0 <= i < |replies| :: replies[i].Obj?
    requires Midway(BooksOf(g, Entries(k.file)).fold, cur, all, pending, next, reach, soft, 0)
    requires !DeliveredPart(h, q, k, replies).stopped
    ensures var b, b1 := BooksOf(g, Entries(k.file)), BooksOf(g, Entries(DeliveredPart(h, q, k, replies).file));
            && Midway(b1.fold, cur, all, pending, next, reach, soft, |replies|)
            && b1.sent == b.sent && b1.delivered == b.delivered + HashAll(h.c, replies) && b1.fold.acks == b.fold.acks
  {
    hide Write, AckStep, RoundStep, DeliveryStep, RejectedStep, DeliveredLine, Entries, Made, SameButAnchors, OwnFold, LoggedSent,
      LoggedDelivered, Midway, EnvelopeHash;
    if replies != [] {
      var init, reply := replies[..|replies| - 1], replies[|replies| - 1];
      var so, l := DeliveredPart(h, q, k, init), DeliveredLine(q, reply);
      StoppedStays(h, q, so, l);
      OwnDeliveries(h, q, g, k, cur, all, pending, next, reach, soft, init);
      WriteAppends(h, q, so, l);
      var e :| Entries(Write(h, q, so, l).file) == Entries(so.file) + [e] && Made(h, q, e, l) && SameButAnchors(e, l);
      DeliveryEntryReads(h, q, e, reply);
      BooksAppend(g, Entries(so.file), e);
      DeliveryStaysClean(g, OwnFold(g, Entries(so.file)), e, cur, all, pending, next, reach, soft, |init|);
    }
  }

  lemma OwnClose(h: Host, q: Request, g: Setting, k: Work, n: nat, round: int)
    requires g.identity == q.identity && n <= ID_MAX && !k.stopped && !ClosePart(h, q, k, n, round).closeFailed
    ensures var b, b1 := BooksOf(g, Entries(k.file)), BooksOf(g, Entries(ClosePart(h, q, k, n, round).file));
            b1.fold == b.fold && b1.delivered == b.delivered && b.sent <= b1.sent
  {
    hide Write, Entries, BooksOf, EnvelopeHash;
    IdDigits(n);
    WriteMessage(h, q, g, k, CloseLine(q, CurOf(k.bus, q.identity).last, n, round));
  }

  // ------------------------------------------------------------------ the replies

  lemma {:induction false} RepliesCount(q: Request, b: Bus, ids: seq<int>)
    requires InTable(b, ids)
    ensures |RepliesOf(q, b, ids)| == |ids| && forall i | 0 <= i < |ids| :: RepliesOf(q, b, ids)[i].Obj?
  {
    if ids != [] {
      RepliesCount(q, b, ids[..|ids| - 1]);
    }
  }

  /** A round entry is written if there are replies, or if the cursor is not where the last round left it. */
  predicate Announced(q: Request, k: Work, replies: seq<Json>) {
    replies != [] || CurOf(k.bus, q.identity).last != LastRoundCursor(Entries(k.file), q.identity)
  }

  /** A complete handing out: the page's mail is logged as delivered, and the fold stays tidy. */
  lemma OwnHandOut(h: Host, q: Request, g: Setting, k: Work, ids: seq<int>, pending: nat, next: nat, reach: Option<int>)
    requires g.identity == q.identity && !k.stopped && !q.f.mark && InTable(k.bus, ids) && |ids| <= ID_MAX
    requires pending <= PEND_LIMIT && 0 <= CurOf(k.bus, q.identity).last <= ID_MAX
    requires (pending > |ids| ==> next > 0) && (next > 0 ==> reach.Some? && reach.value < next)
    requires Tidy(BooksOf(g, Entries(k.file)).fold, CurOf(k.bus, q.identity).last, reach)
    requires var r := HandOut(h, q, k, ids, Queue(pending, next)); !r.stopped && !r.closeFailed
    ensures var b, r := BooksOf(g, Entries(k.file)), HandOut(h, q, k, ids, Queue(pending, next));
            var b1, replies := BooksOf(g, Entries(r.file)), RepliesOf(q, k.bus, ids);
            && Tidy(b1.fold, CurOf(k.bus, q.identity).last, reach)
            && b.sent <= b1.sent && b1.delivered == b.delivered + HashAll(h.c, replies)
            && b1.fold.acks == b.fold.acks && b1.fold.unresolved == b.fold.unresolved
            && b1.fold.anyRound == (b.fold.anyRound || Announced(q, k, replies))
  {
    hide Write, RoundLine, RepliesOf, LastRoundCursor, TailOf, Entries, DeliveredPart, MarkDelivered, CloseLine, BooksOf,
      Midway, Tidy;
    var at, replies := CurOf(k.bus, q.identity).last, RepliesOf(q, k.bus, ids);
    RepliesCount(q, k.bus, ids);
    if Announced(q, k, replies) {
      LoggedHandOut(h, q, g, k, ids, pending, next, reach, replies);
    } else {
      assert ids == [];
      NothingHandedOut(h, q, k, Queue(pending, next));
    }
  }

  lemma NothingHandedOut(h: Host, q: Request, k: Work, u: Queue)
    requires CurOf(k.bus, q.identity).last == LastRoundCursor(Entries(k.file), q.identity) && !k.stopped
    ensures HandOut(h, q, k, [], u).file == k.file && RepliesOf(q, k.bus, []) == []
  {
  }

  lemma LoggedHandOut(h: Host, q: Request, g: Setting, k: Work, ids: seq<int>, pending: nat, next: nat, reach: Option<int>,
                      replies: seq<Json>)
    requires g.identity == q.identity && !k.stopped && !q.f.mark && 0 <= CurOf(k.bus, q.identity).last <= ID_MAX
    requires replies == RepliesOf(q, k.bus, ids) && |replies| == |ids| <= ID_MAX && pending <= PEND_LIMIT
    requires forall i | 0 <= i < |replies| :: replies[i].Obj?
    requires (pending > |ids| ==> next > 0) && (next > 0 ==> reach.Some? && reach.value < next)
    requires Tidy(BooksOf(g, Entries(k.file)).fold, CurOf(k.bus, q.identity).last, reach) && Announced(q, k, replies)
    requires var r := HandOut(h, q, k, ids, Queue(pending, next)); !r.stopped && !r.closeFailed
    ensures var b, r := BooksOf(g, Entries(k.file)), HandOut(h, q, k, ids, Queue(pending, next));
            var b1 := BooksOf(g, Entries(r.file));
            && Tidy(b1.fold, CurOf(k.bus, q.identity).last, reach)
            && b.sent <= b1.sent && b1.delivered == b.delivered + HashAll(h.c, replies)
            && b1.fold.acks == b.fold.acks && b1.fold.unresolved == b.fold.unresolved && b1.fold.anyRound
  {
    hide Write, RoundLine, RepliesOf, LastRoundCursor, TailOf, Entries, DeliveredPart, MarkDelivered, BooksOf, Midway,
      Tidy, HashAll;
    var at := CurOf(k.bus, q.identity).last;
    var k1 := Write(h, q, k, RoundLine(h, q, at, replies, Queue(pending, next)));
    var k2 := DeliveredPart(h, q, k1, replies);
    var k3 := MarkPart(h, q, k2, ids);
    DeliveredKeepsBus(h, q, k1, replies);
    hide ClosePart;
    CloseKeepsStop(h, q, k3, |replies|, TailOf(k1.file).seqNo);
    assert !k3.stopped && !k2.stopped && !k1.stopped;
    var soft := BooksOf(g, Entries(k.file)).fold.unresolved;
    OwnRoundEntry(h, q, g, k, at, replies, pending, next, reach);
    OwnDeliveries(h, q, g, k1, at, |replies|, pending, next, reach, soft, replies);
    assert k3.file == k2.file;
    OwnClose(h, q, g, k3, |replies|, TailOf(k1.file).seqNo);
    MidwayEnds(BooksOf(g, Entries(k2.file)).fold, at, |replies|, pending, next, reach, soft);
  }

  lemma CloseKeepsStop(h: Host, q: Request, k: Work, n: nat, round: int)
    ensures k.stopped ==> ClosePart(h, q, k, n, round).stopped
  {
  }
}
