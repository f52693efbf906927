/**
  Honest runs: what complete rounds keep of the log, the tables and the client's
  receipts, whatever else happens on the bus and in the log (bus_ssh_exchange.py,
  bus_ssh_client.py).
*/
module HonestRun {
  import opened Wrappers
  import opened CanonicalJson
  import opened NotaryLog
  import opened Reasons
  import opened BusState
  import opened BusOps
  import opened StrictClamp
  import opened CursorFold
  import opened Exchange
  import opened LogFirst
  import opened RoundPass
  import opened RemoteClient
  import opened LossyLink
  import opened ReplyPage
  import opened Reconcile
  import opened HonestRound

  // ------------------------------------------------------------ receipts of full rounds

  /** Every round on record ended with a reply. */
  predicate Closed(rs: seq<Receipt>) {
    && (forall i | 0 <= i < |rs| && rs[i].RequestRow? :: OutcomeOf(rs, rs[i].round) == Some(Delivered))
    && (forall i | 0 <= i < |rs| && rs[i].OutcomeRow? :: rs[i].outcome == Delivered)
  }

  function AllSent(c: Crypto, rs: seq<Receipt>): multiset<string> {
    if rs == [] then multiset{}
    else
      var r := rs[|rs| - 1];
      AllSent(c, rs[..|rs| - 1]) + if r.RequestRow? then HashAll(c, r.sent) else multiset{}
  }

  function AllAcks(rs: seq<Receipt>): multiset<int> {
    if rs == [] then multiset{}
    else
      var r := rs[|rs| - 1];
      AllAcks(rs[..|rs| - 1]) + if r.RequestRow? && r.ack > 0 then multiset{r.ack} else multiset{}
  }

  lemma ClosedLevel(rs: seq<Receipt>, i: nat)
    requires Closed(rs) && i < |rs| && rs[i].RequestRow?
    ensures Level(rs, rs[i].round) == Delivered
  {
    hide OutcomeOf;
  }

  lemma {:induction false} ClosedCounts(c: Crypto, rs: seq<Receipt>, n: nat)
    requires n <= |rs| && Closed(rs)
    ensures SentMail(c, rs, n, true) == AllSent(c, rs[..n]) && SentMail(c, rs, n, false) == multiset{}
    ensures SentAcks(rs, n, true) == AllAcks(rs[..n]) && SentAcks(rs, n, false) == multiset{}
    ensures !PresumedAmong(rs, n)
  {
    if n > 0 {
      ClosedCounts(c, rs, n - 1);
      ClosedLevels(c, rs, n);
      PlainSteps(c, rs, n);
      hide SentMail, SentAcks, AllSent, AllAcks, PresumedAmong, Closed, HashAll;
    }
  }

  /** One more row of closed receipts, in the counts that look at its level. */
  lemma ClosedLevels(c: Crypto, rs: seq<Receipt>, n: nat)
    requires 0 < n <= |rs| && Closed(rs)
    ensures var r := rs[n - 1];
            var mail := if r.RequestRow? then HashAll(c, r.sent) else multiset{};
            var ack := if r.RequestRow? && r.ack > 0 then multiset{r.ack} else multiset{};
            && SentMail(c, rs, n, true) == SentMail(c, rs, n - 1, true) + mail
            && SentMail(c, rs, n, false) == SentMail(c, rs, n - 1, false)
            && SentAcks(rs, n, true) == SentAcks(rs, n - 1, true) + ack
            && SentAcks(rs, n, false) == SentAcks(rs, n - 1, false)
            && (PresumedAmong(rs, n) <==> PresumedAmong(rs, n - 1))
  {
    if rs[n - 1].RequestRow? {
      ClosedLevel(rs, n - 1);
    }
    hide Level, Closed, HashAll;
  }

  /** And in the plain ones. */
  lemma PlainSteps(c: Crypto, rs: seq<Receipt>, n: nat)
    requires 0 < n <= |rs|
    ensures var r := rs[n - 1];
            && AllSent(c, rs[..n]) == AllSent(c, rs[..n - 1]) + (if r.RequestRow? then HashAll(c, r.sent) else multiset{})
            && AllAcks(rs[..n])
               == AllAcks(rs[..n - 1]) + (if r.RequestRow? && r.ack > 0 then multiset{r.ack} else multiset{})
  {
    hide HashAll;
    assert rs[..n][..n - 1] == rs[..n - 1];
  }

  lemma {:induction false} FirstIsDelivered(rs: seq<Receipt>, round: nat)
    requires forall i | 0 <= i < |rs| && rs[i].OutcomeRow? :: rs[i].outcome == Delivered
    ensures OutcomeOf(rs, round).Some? ==> OutcomeOf(rs, round) == Some(Delivered)
  {
    if rs != [] {
      FirstIsDelivered(rs[..|rs| - 1], round);
    }
  }

  lemma NoConflicts(rs: seq<Receipt>)
    requires Closed(rs)
    ensures ConflictSet(rs) == {}
  {
    forall i | 0 <= i < |rs| ensures !Conflicts(rs, i) {
      if rs[i].OutcomeRow? {
        FirstIsDelivered(rs[..i], rs[i].round);
      }
    }
  }

  /** One more full round on record. */
  lemma ClosedRound(c: Crypto, rs: seq<Receipt>, round: nat, sent: seq<Json>, ack: int, received: seq<Json>)
    requires Closed(rs)
    ensures var rs1 := rs + [RequestRow(round, sent, ack), OutcomeRow(round, Delivered, received)];
            && Closed(rs1)
            && AllSent(c, rs1) == AllSent(c, rs) + HashAll(c, sent)
            && AllAcks(rs1) == AllAcks(rs) + (if ack > 0 then multiset{ack} else multiset{})
            && GotMail(c, rs1) == GotMail(c, rs) + HashAll(c, received)
  {
    var q, o := RequestRow(round, sent, ack), OutcomeRow(round, Delivered, received);
    assert rs + [q, o] == rs + [q] + [o];
    StillClosed(c, rs, q, o);
    hide HashAll, Closed, OutcomeOf, AllSent, AllAcks, GotMail;
    OneMore(c, rs, q);
    OneMore(c, rs + [q], o);
    assert GotMail(c, rs) + multiset{} == GotMail(c, rs);
  }

  lemma StillClosed(c: Crypto, rs: seq<Receipt>, q: Receipt, o: Receipt)
    requires Closed(rs) && q.RequestRow? && o.OutcomeRow? && o.outcome == Delivered && o.round == q.round
    ensures Closed(rs + [q] + [o])
  {
    var rs1 := rs + [q] + [o];
    forall n: nat ensures OutcomeOf(rs1, n) == if OutcomeOf(rs, n).Some? then OutcomeOf(rs, n)
                                               else if n == q.round then Some(Delivered) else None {
      OutcomeMore(rs, q, o, n);
    }
    FirstIsDelivered(rs, q.round);
    hide OutcomeOf;
  }

  lemma OutcomeMore(rs: seq<Receipt>, q: Receipt, o: Receipt, n: nat)
    requires q.RequestRow? && o.OutcomeRow? && o.outcome == Delivered && o.round == q.round
    ensures OutcomeOf(rs + [q] + [o], n)
         == if OutcomeOf(rs, n).Some? then OutcomeOf(rs, n) else if n == q.round then Some(Delivered) else None
  {
    assert (rs + [q])[..|rs|] == rs;
    assert (rs + [q] + [o])[..|rs| + 1] == rs + [q];
  }

  /** One more row, and what it adds to each count. */
  lemma OneMore(c: Crypto, rs: seq<Receipt>, r: Receipt)
    ensures AllSent(c, rs + [r]) == AllSent(c, rs) + (if r.RequestRow? then HashAll(c, r.sent) else multiset{})
    ensures AllAcks(rs + [r]) == AllAcks(rs) + (if r.RequestRow? && r.ack > 0 then multiset{r.ack} else multiset{})
    ensures GotMail(c, rs + [r]) == GotMail(c, rs) + (if r.OutcomeRow? then HashAll(c, r.received) else multiset{})
  {
    assert (rs + [r])[..|rs|] == rs;
  }

  // ------------------------------------------------------------------- honest runs

  /** One identity's complete rounds, among other activity on the bus and the rounds of other identities. */
  datatype Move = Aside(e: Event) | Own(q: Request, round: nat) | Theirs(q: Request)

  function MoveStep(h: Host, l: Local, s: System, mv: Move): System {
    match mv
    case Aside(e) => SystemStep(h, l, s, Elsewhere(e))
    case Own(q, round) => SystemStep(h, l, s, Exchanged(q, round, Through))
    case Theirs(q) => (var k := Round(h, q, s.bus, s.file); s.(bus := k.bus, file := k.file))
  }

  function StateAfter(h: Host, l: Local, s0: System, moves: seq<Move>): System {
    if moves == [] then s0
    else MoveStep(h, l, StateAfter(h, l, s0, moves[..|moves| - 1]), moves[|moves| - 1])
  }

  /** The round runs to its end, and everything in it succeeds. */
  predicate Completes(h: Host, q: Request, s: System) {
    var k := Round(h, Asked(q, s.cl), s.bus, s.file);
    !k.stopped && !k.closeFailed && !q.f.ack && !q.f.mark && !q.f.pend
  }

  /** The mail waiting when the replies are read: at most what the exchange can measure. */
  predicate QueueMeasured(h: Host, q: Request, s: System) {
    |Measured(h, Asked(q, s.cl), Served(h, Asked(q, s.cl), s.bus, s.file).bus)| <= PEND_LIMIT
  }

  /** In either mode: the identity's own complete rounds, anyone else's, and steps of the bus that move no cursor of its own. */
  predicate HonestMove(h: Host, id: string, s: System, mv: Move) {
    match mv
    case Aside(e) => !((e.Received? || e.Acked? || e.Marked?) && e.a == id)
    case Own(q, _) =>
      && q.identity == id && Completes(h, q, s) && QueueMeasured(h, q, s)
      && forall i | 0 <= i < |q.messages| :: Countable(h, q.messages[i])
    case Theirs(q) => q.identity != id
  }

  predicate HonestMoves(h: Host, l: Local, id: string, s0: System, moves: seq<Move>) {
    moves == [] ||
    (var init := moves[..|moves| - 1];
     && HonestMoves(h, l, id, s0, init)
     && HonestMove(h, id, StateAfter(h, l, s0, init), moves[|moves| - 1])
     && |StateAfter(h, l, s0, moves).bus.messages| <= ID_MAX)
  }

  /** The log and the receipts begin with the run; the client has stored nothing the cursor has not passed. */
  predicate HonestStart(id: string, s: System) {
    && s.file == [] && s.cl.receipts == []
    && 0 <= s.cl.storedMax <= CurOf(s.bus, id).last <= |s.bus.messages| <= ID_MAX
  }

  // ------------------------------------------------------------------ what is kept

  predicate LogSound(h: Host, file: seq<Record>) {
    WellBuilt(h.c, h.pub, file) && (Entries(file) == [] ==> file == [])
  }

  /** What is stored is mail of the identity, in reach of its cursor. */
  predicate BusFits(id: string, b: Bus, stored: int) {
    && 0 <= CurOf(b, id).last <= |b.messages| <= ID_MAX && 0 <= stored <= |b.messages| && InReach(b, id, stored)
    && (stored > CurOf(b, id).last ==> stored <= HighWater(b.messages, id))
  }

  predicate BooksFit(h: Host, g: Setting, s: System) {
    var b, rs := BooksOf(g, Entries(s.file)), s.cl.receipts;
    && Tidy(b.fold, CurOf(s.bus, g.identity).last, Reach(s.bus, g.identity))
    && Closed(rs) && AllSent(h.c, rs) <= b.sent && GotMail(h.c, rs) == b.delivered && AllAcks(rs) == AsInts(b.fold.acks)
  }

  predicate Kept(h: Host, g: Setting, s: System) {
    LogSound(h, s.file) && BusFits(g.identity, s.bus, s.cl.storedMax) && BooksFit(h, g, s)
  }

  lemma RecordKeepsSound(h: Host, n: Note, file: seq<Record>)
    requires LogSound(h, file)
    ensures LogSound(h, RecordStep(h.c, h.pub, h.every, file, n).1)
  {
    RecordKeeps(h.c, h.pub, h.every, file, n);
    RecordEntries(h.c, h.pub, h.every, file, n);
    hide WellBuilt, Sealed, TailOf, Entries, MakeCkpt;
  }

  /** Every round keeps the log sound, whatever fails in it. */
  lemma RoundKeepsSound(h: Host, q: Request, bus: Bus, file: seq<Record>)
    requires LogSound(h, file)
    ensures LogSound(h, Round(h, q, bus, file).file)
  {
    hide Round, LogSound, RecordStep;
    var p := (f: seq<Record>) => LogSound(h, f);
    var ok := (l: Line) => true;
    forall f: seq<Record>, n: nat, l: Line | p(f) && ok(l)
      ensures p(RecordStep(h.c, h.pub, h.every, f, NoteOf(q, n, l)).1) {
      RecordKeepsSound(h, NoteOf(q, n, l), f);
    }
    RoundPreserves(h, q, bus, file, p, ok);
  }

  // ---------------------------------------------------------- rounds of other identities

  predicate ForeignLine(id: string, l: Line) { !(l.recipient == id && l.kind == "pickup" && l.decision == "delivered") }

  lemma ForeignRecord(h: Host, q: Request, g: Setting, f: seq<Record>, n: nat, l: Line)
    requires q.identity != g.identity && ForeignLine(g.identity, l)
    ensures BooksOf(g, Entries(RecordStep(h.c, h.pub, h.every, f, NoteOf(q, n, l)).1)) == BooksOf(g, Entries(f))
  {
    var note := NoteOf(q, n, l);
    RecordEntries(h.c, h.pub, h.every, f, note);
    if Sealed(h.c, TailOf(f), note).Ok? {
      SealedMade(h, q, TailOf(f), n, l);
      hide Sealed, RecordStep, Entries, BooksOf, SameButAnchors, TailOf, EnvelopeSha;
      ForeignAddsNothing(g, Entries(f), Sealed(h.c, TailOf(f), note).value);
    }
  }

  lemma TheirLines(h: Host, q: Request, id: string, ok: Line -> bool)
    requires q.identity != id && forall l :: ok(l) <==> ForeignLine(id, l)
    ensures FrameAllowed(h, q, ok) && MessagesAllowed(h, q, ok)
  {
    hide AckReason, RoundReason, Exchange.RoundCursor, Hashes, Shaped, MessageKind, TextField;
  }

  /** Nothing another identity's round writes is on the books. */
  lemma TheirRoundBooks(h: Host, q: Request, g: Setting, bus: Bus, file: seq<Record>)
    requires q.identity != g.identity
    ensures BooksOf(g, Entries(Round(h, q, bus, file).file)) == BooksOf(g, Entries(file))
  {
    var b0 := BooksOf(g, Entries(file));
    var p := (f: seq<Record>) => BooksOf(g, Entries(f)) == b0;
    var ok := (l: Line) => ForeignLine(g.identity, l);
    forall f: seq<Record>, n: nat, l: Line | p(f) && ok(l)
      ensures p(RecordStep(h.c, h.pub, h.every, f, NoteOf(q, n, l)).1) {
      ForeignRecord(h, q, g, f, n, l);
    }
    TheirLines(h, q, g.identity, ok);
    hide Round, BooksOf, RecordStep, Entries, FrameAllowed, MessagesAllowed, ForeignLine;
    RoundPreserves(h, q, bus, file, p, ok);
  }

  // -------------------------------------------------------------- the client's own round

  lemma CompleteIsHandOut(h: Host, q: Request, bus: Bus, file: seq<Record>)
    requires !Round(h, q, bus, file).stopped && !q.f.pend
    ensures !Served(h, q, bus, file).stopped
    ensures var m := Served(h, q, bus, file);
            var u := QueueOf(q, PageOut(h, q, m.bus), Measured(h, q, m.bus));
            exists c :: Audited(m.bus, c) && Round(h, q, bus, file) == HandOut(h, q, m.(bus := c), PageOut(h, q, m.bus), u)
  {
    hide HandOut, QueueOf, MessagesPart, AckPart, PageOut, Measured;
    var m := Served(h, q, bus, file);
    assert !m.stopped && !q.f.peek by {
      hide Peek, Shown;
    }
    BothPeeks(h, q, m);
  }

  /** Up to the replies: the ack and the messages are on the books. */
  lemma OwnServedBooks(h: Host, q: Request, g: Setting, bus: Bus, file: seq<Record>)
    requires g.identity == q.identity && !q.f.ack && BusFits(q.identity, bus, q.ack)
    requires Tidy(BooksOf(g, Entries(file)).fold, CurOf(bus, q.identity).last, Reach(bus, q.identity))
    requires forall i | 0 <= i < |q.messages| :: Countable(h, q.messages[i])
    requires !Served(h, q, bus, file).stopped
    ensures var m, b, cur := Served(h, q, bus, file), BooksOf(g, Entries(file)), CurOf(bus, q.identity).last;
            var b1, now := BooksOf(g, Entries(m.file)), CurOf(m.bus, q.identity).last;
            && now == AckTarget(bus, q.identity, q.ack, q.strict)
            && Tidy(b1.fold, now, Reach(m.bus, q.identity))
            && b1.sent == b.sent + HashAll(h.c, q.messages) && b1.delivered == b.delivered
            && b1.fold.acks == b.fold.acks + (if q.ack > 0 then [q.ack] else [])
            && b1.fold.anyRound == (q.ack == 0 && b.fold.anyRound)
            && LeapsBy(b.fold.unresolved, b1.fold.unresolved, now > cur && !b.fold.anyRound)
  {
    hide AckPart, MessagesPart, BooksOf, Entries, Tidy, HighWater, Countable, HashAll, Reach, LeapsBy;
    var k0 := Work(bus, file, [], 0, false, [], [], [], false);
    var k1 := AckPart(h, q, k0);
    OwnMessages(h, q, g, k1, |q.messages|);
    OwnAck(h, q, g, k0);
    MessagesInsert(h, q, k1, |q.messages|);
    assert q.messages[..|q.messages|] == q.messages;
    var m := Served(h, q, bus, file);
    ReachStays(k1.bus, m.bus, q.identity);
    TidyLater(BooksOf(g, Entries(m.file)).fold, CurOf(m.bus, q.identity).last, Reach(k1.bus, q.identity),
              Reach(m.bus, q.identity));
  }

  /** A complete round, on the books. */
  lemma OwnRoundBooks(h: Host, q: Request, g: Setting, bus: Bus, file: seq<Record>)
    requires g.identity == q.identity && BusFits(q.identity, bus, q.ack)
    requires Tidy(BooksOf(g, Entries(file)).fold, CurOf(bus, q.identity).last, Reach(bus, q.identity))
    requires forall i | 0 <= i < |q.messages| :: Countable(h, q.messages[i])
    requires var k := Round(h, q, bus, file); !k.stopped && !k.closeFailed && !q.f.ack && !q.f.mark && !q.f.pend
    requires |Measured(h, q, Served(h, q, bus, file).bus)| <= PEND_LIMIT && |Served(h, q, bus, file).bus.messages| <= ID_MAX
    ensures var k, b, m := Round(h, q, bus, file), BooksOf(g, Entries(file)), Served(h, q, bus, file);
            var b1, now := BooksOf(g, Entries(k.file)), CurOf(m.bus, q.identity).last;
            && Tidy(b1.fold, now, Reach(m.bus, q.identity))
            && b.sent + HashAll(h.c, q.messages) <= b1.sent && b1.delivered == b.delivered + HashAll(h.c, k.replies)
            && b1.fold.acks == b.fold.acks + (if q.ack > 0 then [q.ack] else [])
            && b1.fold.anyRound == ((q.ack == 0 && b.fold.anyRound) || Announced(q, m, k.replies))
            && LeapsBy(b.fold.unresolved, b1.fold.unresolved, now > CurOf(bus, q.identity).last && !b.fold.anyRound)
  {
    hide Round, Served, HandOut, BooksOf, Entries, Tidy, HighWater, HashAll, QueueOf, RepliesOf, PageOut, Measured, Reach, LeapsBy,
      AckTarget;
    CompleteIsHandOut(h, q, bus, file);
    OwnServedBooks(h, q, g, bus, file);
    OwnReplies(h, q, bus, file);
    var m := Served(h, q, bus, file);
    var ids, more := PageOut(h, q, m.bus), Measured(h, q, m.bus);
    var c :| Audited(m.bus, c) && Round(h, q, bus, file) == HandOut(h, q, m.(bus := c), ids, QueueOf(q, ids, more));
    QueueFacts(h, q, m.bus);
    PageOutFacts(h, q, m.bus);
    PageOutSmall(h, q, m.bus);
    AuditedLeaves(m.bus, c, q.identity);
    CursorBounds(h, q, bus, file);
    var u := QueueOf(q, ids, more);
    OwnHandOut(h, q, g, m.(bus := c), ids, u.pending, u.next, Reach(m.bus, q.identity));
    ShownFrame(q, m.bus, c, ids);
  }

  lemma CursorBounds(h: Host, q: Request, bus: Bus, file: seq<Record>)
    requires BusFits(q.identity, bus, q.ack) && |Served(h, q, bus, file).bus.messages| <= ID_MAX
    ensures var m := Served(h, q, bus, file);
            CurOf(bus, q.identity).last <= CurOf(m.bus, q.identity).last <= |m.bus.messages|
  {
    ServedLeaves(h, q, bus, file);
    hide Served, HighWater, Reach;
  }

  /** What a complete round replies, and the tables it leaves. */
  lemma OwnReplies(h: Host, q: Request, bus: Bus, file: seq<Record>)
    requires !Round(h, q, bus, file).stopped && !q.f.pend
    ensures var k, m := Round(h, q, bus, file), Served(h, q, bus, file);
            && k.replies == RepliesOf(q, m.bus, PageOut(h, q, m.bus))
            && k.bus.messages == m.bus.messages && CurOf(k.bus, q.identity).last == CurOf(m.bus, q.identity).last
            && (k.replies == [] ==> CurOf(k.bus, q.identity) == CurOf(m.bus, q.identity))
  {
    CompleteIsHandOut(h, q, bus, file);
    ServedLeaves(h, q, bus, file);
    hide Round, Served, HandOut, QueueOf, RepliesOf, PageOut, Measured, AckTarget;
    var m := Served(h, q, bus, file);
    var ids := PageOut(h, q, m.bus);
    var u := QueueOf(q, ids, Measured(h, q, m.bus));
    var c :| Audited(m.bus, c) && Round(h, q, bus, file) == HandOut(h, q, m.(bus := c), ids, u);
    AuditedLeaves(m.bus, c, q.identity);
    HandOutResult(h, q, m.(bus := c), ids, u);
    HandOutLeaves(h, q, m.(bus := c), ids, u);
    ShownFrame(q, m.bus, c, ids);
    PageOutFacts(h, q, m.bus);
    RepliesCount(q, m.bus, ids);
  }

  /** How far some replies take the client. */
  function NowStored(stored: int, ids: seq<int>): int {
    if ids != [] && ids[|ids| - 1] > stored then ids[|ids| - 1] else stored
  }

  lemma OwnRoundBus(h: Host, q: Request, bus: Bus, file: seq<Record>)
    requires !q.f.ack && !q.f.pend && BusFits(q.identity, bus, q.ack) && !Round(h, q, bus, file).stopped
    requires |Round(h, q, bus, file).bus.messages| <= ID_MAX
    ensures var k, m := Round(h, q, bus, file), Served(h, q, bus, file);
            && k.bus.messages == m.bus.messages && Reach(k.bus, q.identity) == Reach(m.bus, q.identity)
            && CurOf(k.bus, q.identity).last == CurOf(m.bus, q.identity).last
            && BusFits(q.identity, k.bus, NowStored(q.ack, PageOut(h, q, m.bus)))
  {
    OwnReplies(h, q, bus, file);
    hide Round, Served, PageOut, RepliesOf, AckTarget, BusFits;
    var k, m := Round(h, q, bus, file), Served(h, q, bus, file);
    CursorBounds(h, q, bus, file);
    ServedLeaves(h, q, bus, file);
    PageOutFacts(h, q, m.bus);
    FitsAfter(q.identity, bus, m.bus, k.bus, q.ack, PageOut(h, q, m.bus));
  }

  /** What is handed out from the page above the cursor is in reach. */
  lemma FitsAfter(id: string, was: Bus, b: Bus, c: Bus, stored: int, ids: seq<int>)
    requires BusFits(id, was, stored) && was.messages <= b.messages && |b.messages| <= ID_MAX
    requires CurOf(was, id).last <= CurOf(b, id).last <= |b.messages|
    requires InTable(b, ids) && forall i | 0 <= i < |ids| :: ids[i] in Mine(b.messages, id) && InReach(b, id, ids[i])
    requires c.messages == b.messages && CurOf(c, id).last == CurOf(b, id).last
    ensures Reach(c, id) == Reach(b, id) && BusFits(id, c, NowStored(stored, ids))
  {
    InReachStays(was, b, id, stored);
    HighWaterGrows(was.messages, b.messages, id);
    HighWaterBounds(b.messages, id);
    assert Reach(c, id) == Reach(b, id);
    hide HighWater, Mine, Reach;
  }

  /** The client ends at the last reply, with the receipts it had. */
  lemma {:induction false} StoredTop(l: Local, q: Request, b: Bus, cl: Client, page: seq<int>)
    requires InTable(b, page) && forall i, j | 0 <= i < j < |page| :: page[i] < page[j]
    ensures var cl1 := StoreAll(l, cl, RepliesOf(q, b, page));
            && cl1.receipts == cl.receipts
            && cl1.storedMax == if page != [] && page[|page| - 1] > cl.storedMax then page[|page| - 1] else cl.storedMax
  {
    hide SendFault, LocalRow, ReplyJson;
    if page != [] {
      var init, id := page[..|page| - 1], page[|page| - 1];
      StoredTop(l, q, b, cl, init);
      var so, r := RepliesOf(q, b, init), ReplyJson(q, id, b.messages[id - 1]);
      assert (so + [r])[..|so|] == so;
      ReplyIsCopied(l, q, id, b.messages[id - 1]);
    }
  }

  lemma AsIntsAppend(ns: seq<nat>, n: nat)
    ensures AsInts(ns + [n]) == AsInts(ns) + multiset{n}
  {
    assert (ns + [n])[..|ns|] == ns;
  }

  /** The client's state after a complete round of its own. */
  lemma OwnClient(h: Host, l: Local, s: System, q: Request, round: nat)
    requires !Round(h, Asked(q, s.cl), s.bus, s.file).stopped && !q.f.pend
    ensures var k, m := Round(h, Asked(q, s.cl), s.bus, s.file), Served(h, Asked(q, s.cl), s.bus, s.file);
            var cl := MoveStep(h, l, s, Own(q, round)).cl;
            && cl.storedMax == NowStored(s.cl.storedMax, PageOut(h, Asked(q, s.cl), m.bus))
            && cl.receipts == s.cl.receipts + [RequestRow(round, q.messages, s.cl.storedMax), OutcomeRow(round, Delivered, k.replies)]
  {
    hide Round, Served, PageOut, RepliesOf, StoreAll, MoveStep;
    var asked := Asked(q, s.cl);
    var k, b := Round(h, asked, s.bus, s.file), Served(h, asked, s.bus, s.file).bus;
    OwnMoveStores(h, l, s, q, round);
    OwnReplies(h, asked, s.bus, s.file);
    PageOutFacts(h, asked, b);
    StoredTop(l, asked, b, s.cl.(receipts := s.cl.receipts + [RequestRow(round, q.messages, s.cl.storedMax),
                                                              OutcomeRow(round, Delivered, k.replies)]), PageOut(h, asked, b));
  }

  lemma OwnMoveStores(h: Host, l: Local, s: System, q: Request, round: nat)
    requires !Round(h, Asked(q, s.cl), s.bus, s.file).stopped
    ensures var k := Round(h, Asked(q, s.cl), s.bus, s.file);
            MoveStep(h, l, s, Own(q, round)).cl
            == StoreAll(l, s.cl.(receipts := s.cl.receipts + [RequestRow(round, q.messages, s.cl.storedMax),
                                                              OutcomeRow(round, Delivered, k.replies)]), k.replies)
  {
    hide Round, StoreAll;
  }

  lemma OwnBooksFit(h: Host, g: Setting, s: System, t: System, round: nat, sent: seq<Json>, received: seq<Json>)
    requires BooksFit(h, g, s)
    requires t.cl.receipts == s.cl.receipts + [RequestRow(round, sent, s.cl.storedMax), OutcomeRow(round, Delivered, received)]
    requires var b, b1 := BooksOf(g, Entries(s.file)), BooksOf(g, Entries(t.file));
             && Tidy(b1.fold, CurOf(t.bus, g.identity).last, Reach(t.bus, g.identity))
             && b.sent + HashAll(h.c, sent) <= b1.sent && b1.delivered == b.delivered + HashAll(h.c, received)
             && s.cl.storedMax >= 0
             && b1.fold.acks == b.fold.acks + (if s.cl.storedMax > 0 then [s.cl.storedMax] else [])
    ensures BooksFit(h, g, t)
  {
    hide Tidy, HashAll, Closed, AllSent, GotMail, AllAcks, BooksOf, Entries, Reach;
    ClosedRound(h.c, s.cl.receipts, round, sent, s.cl.storedMax, received);
    if s.cl.storedMax > 0 {
      AsIntsAppend(BooksOf(g, Entries(s.file)).fold.acks, s.cl.storedMax);
    } else {
      assert BooksOf(g, Entries(s.file)).fold.acks + [] == BooksOf(g, Entries(s.file)).fold.acks;
    }
  }

  lemma OwnKeeps(h: Host, l: Local, g: Setting, s: System, q: Request, round: nat)
    requires Kept(h, g, s) && HonestMove(h, g.identity, s, Own(q, round))
    requires |MoveStep(h, l, s, Own(q, round)).bus.messages| <= ID_MAX
    ensures Kept(h, g, MoveStep(h, l, s, Own(q, round)))
  {
    hide Round, Served, Tidy, BooksOf, Entries, LogSound, StoreAll, HashAll, Countable, Closed, AllSent, GotMail, AllAcks,
      HighWater, PageOut, Measured, Reach, LeapsBy;
    var asked := Asked(q, s.cl);
    var t, k := MoveStep(h, l, s, Own(q, round)), Round(h, asked, s.bus, s.file);
    RoundKeepsSound(h, asked, s.bus, s.file);
    OwnRoundBus(h, asked, s.bus, s.file);
    OwnRoundBooks(h, asked, g, s.bus, s.file);
    OwnClient(h, l, s, q, round);
    OwnBooksFit(h, g, s, t, round, q.messages, k.replies);
  }

  // ------------------------------------------------------------------ the other moves

  lemma SameBooks(h: Host, g: Setting, s: System, t: System)
    requires Kept(h, g, s) && t.cl == s.cl && LogSound(h, t.file)
    requires BooksOf(g, Entries(t.file)) == BooksOf(g, Entries(s.file))
    requires s.bus.messages <= t.bus.messages && |t.bus.messages| <= ID_MAX
    requires CurOf(t.bus, g.identity) == CurOf(s.bus, g.identity)
    ensures Kept(h, g, t)
  {
    hide BooksOf, Entries, Tidy, HighWater, Closed, AllSent, GotMail, AllAcks, LogSound, Reach;
    HighWaterGrows(s.bus.messages, t.bus.messages, g.identity);
    InReachStays(s.bus, t.bus, g.identity, s.cl.storedMax);
    ReachStays(s.bus, t.bus, g.identity);
    TidyLater(BooksOf(g, Entries(t.file)).fold, CurOf(t.bus, g.identity).last, Reach(s.bus, g.identity),
              Reach(t.bus, g.identity));
  }

  lemma MoveKeeps(h: Host, l: Local, g: Setting, s: System, mv: Move)
    requires Kept(h, g, s) && HonestMove(h, g.identity, s, mv)
    requires |MoveStep(h, l, s, mv).bus.messages| <= ID_MAX
    ensures Kept(h, g, MoveStep(h, l, s, mv))
  {
    hide Round, BooksOf, BooksFit, Entries, LogSound, BusOps.Step, HighWater, Countable, Reach;
    match mv
    case Own(q, round) =>
      OwnKeeps(h, l, g, s, q, round);
    case Theirs(q) =>
      RoundKeepsSound(h, q, s.bus, s.file);
      TheirRoundBooks(h, q, g, s.bus, s.file);
      RoundLeavesOthers(h, q, s.bus, s.file, g.identity);
      SameBooks(h, g, s, MoveStep(h, l, s, mv));
    case Aside(e) =>
      EventLeaves(h.w, s.bus, e, g.identity);
      SameBooks(h, g, s, MoveStep(h, l, s, mv));
  }

  lemma StartKept(h: Host, g: Setting, s: System)
    requires HonestStart(g.identity, s) && g.start == CurOf(s.bus, g.identity).last
    ensures Kept(h, g, s)
  {
    ReachBounds(s.bus, g.identity);
    hide HighWater, Reach;
  }

  lemma {:induction false} HonestMovesKeep(h: Host, l: Local, g: Setting, s0: System, moves: seq<Move>)
    requires HonestStart(g.identity, s0) && HonestMoves(h, l, g.identity, s0, moves)
    requires g.start == CurOf(s0.bus, g.identity).last
    ensures Kept(h, g, StateAfter(h, l, s0, moves))
  {
    hide Kept, MoveStep, HonestMove, HonestStart;
    if moves == [] {
      StartKept(h, g, s0);
    } else {
      var init := moves[..|moves| - 1];
      HonestMovesKeep(h, l, g, s0, init);
      MoveKeeps(h, l, g, StateAfter(h, l, s0, init), moves[|moves| - 1]);
    }
  }
}
