/**
  Exactly when an honest run is accused (bus_notary.py): the log keeps the kinds
  `ack` and `pickup` for the exchange, so one's own message of such a kind is not
  counted as sent, and another's message of such a kind is read as one's own entry.
*/
module HonestExact {
  import opened CanonicalJson
  import opened NotaryLog
  import opened NotaryVerify
  import opened BusState
  import opened CursorFold
  import opened Exchange
  import opened LogFirst
  import opened RoundPass
  import opened RemoteClient
  import opened LossyLink
  import opened Reconcile
  import opened HonestRound
  import opened ForeignRound
  import opened HonestRun
  import opened HonestVerdict

  /** No other value has the envelope hash of m. */
  ghost predicate HashTells(c: Crypto, m: Json) { forall x :: EnvelopeHash(c, x) == EnvelopeHash(c, m) ==> x == m }

  /** An honest move, but for the kinds of the identity's own messages. */
  predicate FairMove(h: Host, id: string, s: System, mv: Move) {
    match mv
    case Own(q, _) =>
      && q.identity == id && Completes(h, q, s) && QueueMeasured(h, q, s)
      && forall i | 0 <= i < |q.messages| :: q.messages[i].Obj?
    case _ => HonestMove(h, id, s, mv)
  }

  predicate FairMoves(h: Host, l: Local, id: string, s0: System, moves: seq<Move>) {
    moves == [] ||
    (var init := moves[..|moves| - 1];
     && FairMoves(h, l, id, s0, init)
     && FairMove(h, id, StateAfter(h, l, s0, init), moves[|moves| - 1])
     && |StateAfter(h, l, s0, moves).bus.messages| <= ID_MAX)
  }

  predicate Reserved(h: Host, m: Json) { Shaped(m) && (MessageKind(h, m) == "ack" || MessageKind(h, m) == "pickup") }

  /** None of the identity's own messages carries a kind the log keeps for itself. */
  predicate NoReserved(h: Host, mv: Move) {
    mv.Own? ==> forall i | 0 <= i < |mv.q.messages| :: !Reserved(h, mv.q.messages[i])
  }

  predicate Sends(mv: Move, m: Json) { mv.Own? && m in mv.q.messages }

  lemma {:induction false} FairWithoutReserved(h: Host, l: Local, id: string, s0: System, moves: seq<Move>)
    requires FairMoves(h, l, id, s0, moves) && forall i | 0 <= i < |moves| :: NoReserved(h, moves[i])
    ensures HonestMoves(h, l, id, s0, moves)
  {
    hide StateAfter, Completes, QueueMeasured, Shaped, MessageKind;
    if moves != [] {
      FairWithoutReserved(h, l, id, s0, moves[..|moves| - 1]);
      assert NoReserved(h, moves[|moves| - 1]);
    }
  }

  // ------------------------------------------------------- a reserved message is not counted

  /** No entry that counts as sent by the identity carries the hash. */
  predicate NeverCounted(file: seq<Record>, id: string, hash: string) { LoggedSent(Entries(file), id)[hash] == 0 }

  predicate NotItsReceipt(h: Host, hash: string, l: Line) {
    l.kind == "ack" || l.kind == "pickup" || EnvelopeSha(h.c, l.env) != hash
  }

  lemma RecordNeverCounts(h: Host, q: Request, id: string, hash: string, f: seq<Record>, n: nat, l: Line)
    requires NeverCounted(f, id, hash) && (q.identity != id || NotItsReceipt(h, hash, l))
    ensures NeverCounted(RecordStep(h.c, h.pub, h.every, f, NoteOf(q, n, l)).1, id, hash)
  {
    var note := NoteOf(q, n, l);
    RecordEntries(h.c, h.pub, h.every, f, note);
    if Sealed(h.c, TailOf(f), note).Ok? {
      SealedMade(h, q, TailOf(f), n, l);
      hide Sealed, RecordStep, Entries, SameButAnchors, TailOf, EnvelopeSha;
      var es, e := Entries(f), Sealed(h.c, TailOf(f), note).value;
      assert (es + [e])[..|es|] == es;
    }
  }

  /** Another identity's round logs nothing as sent by this one. */
  lemma TheirRoundNeverCounts(h: Host, q: Request, id: string, hash: string, bus: Bus, file: seq<Record>)
    requires q.identity != id && NeverCounted(file, id, hash)
    ensures NeverCounted(Round(h, q, bus, file).file, id, hash)
  {
    var p := (f: seq<Record>) => NeverCounted(f, id, hash);
    var ok := (l: Line) => true;
    forall f: seq<Record>, n: nat, l: Line | p(f) && ok(l)
      ensures p(RecordStep(h.c, h.pub, h.every, f, NoteOf(q, n, l)).1) {
      RecordNeverCounts(h, q, id, hash, f, n, l);
    }
    hide Round, NeverCounted, RecordStep;
    RoundPreserves(h, q, bus, file, p, ok);
  }

  lemma OtherMessage(h: Host, m: Json, x: Json)
    requires HashTells(h.c, m) && Reserved(h, m) && x.Obj?
    ensures !Shaped(x) ==> NotItsReceipt(h, EnvelopeHash(h.c, m), MalformedLine(h, x))
    ensures Shaped(x) ==>
              forall decision, reason :: NotItsReceipt(h, EnvelopeHash(h.c, m), MessageLine(h, x, decision, reason))
  {
    hide EnvelopeHash, MessageKind;
    assert x != m ==> EnvelopeHash(h.c, x) != EnvelopeHash(h.c, m);
  }

  lemma CloseIsOther(h: Host, q: Request, m: Json, at: int, n: nat, round: int)
    requires HashTells(h.c, m) && Reserved(h, m)
    ensures NotItsReceipt(h, EnvelopeHash(h.c, m), CloseLine(q, at, n, round))
  {
    hide EnvelopeHash, MessageKind;
    var env := CloseLine(q, at, n, round).env;
    assert |"identity"| == 8 && |"round_close"| == 11 && |"cursor"| == 6 && |"to"| == 2;
    assert Field(env, "to") == Null;
    assert env != m;
  }

  lemma RoundNeverCounts(h: Host, q: Request, id: string, m: Json, bus: Bus, file: seq<Record>)
    requires HashTells(h.c, m) && Reserved(h, m) && forall i | 0 <= i < |q.messages| :: q.messages[i].Obj?
    requires NeverCounted(file, id, EnvelopeHash(h.c, m))
    ensures NeverCounted(Round(h, q, bus, file).file, id, EnvelopeHash(h.c, m))
  {
    var hash := EnvelopeHash(h.c, m);
    var p := (f: seq<Record>) => NeverCounted(f, id, hash);
    var ok := (l: Line) => NotItsReceipt(h, hash, l);
    forall f: seq<Record>, n: nat, l: Line | p(f) && ok(l)
      ensures p(RecordStep(h.c, h.pub, h.every, f, NoteOf(q, n, l)).1) {
      RecordNeverCounts(h, q, id, hash, f, n, l);
    }
    RoundLinesNeverCount(h, q, m, ok);
    hide Round, NeverCounted, RecordStep, FrameAllowed, MessagesAllowed, NotItsReceipt;
    RoundPreserves(h, q, bus, file, p, ok);
  }

  lemma RoundLinesNeverCount(h: Host, q: Request, m: Json, ok: Line -> bool)
    requires HashTells(h.c, m) && Reserved(h, m) && forall i | 0 <= i < |q.messages| :: q.messages[i].Obj?
    requires forall l :: ok(l) <==> NotItsReceipt(h, EnvelopeHash(h.c, m), l)
    ensures FrameAllowed(h, q, ok) && MessagesAllowed(h, q, ok)
  {
    hide EnvelopeHash, EnvelopeSha, MessageLine, MalformedLine, Shaped;
    forall i | 0 <= i < |q.messages| ensures MessageAllowed(h, q.messages[i], ok) {
      OtherMessage(h, m, q.messages[i]);
    }
    forall at, n, round ensures ok(CloseLine(q, at, n, round)) {
      CloseIsOther(h, q, m, at, n, round);
    }
    hide MessageAllowed, Reserved;
  }

  // --------------------------------------------------------------------- over a run

  lemma {:induction false} HashAllHas(c: Crypto, ms: seq<Json>, m: Json)
    requires m in ms
    ensures HashAll(c, ms)[EnvelopeHash(c, m)] >= 1
  {
    hide EnvelopeHash;
    if ms[|ms| - 1] != m {
      assert m in ms[..|ms| - 1];
      HashAllHas(c, ms[..|ms| - 1], m);
    }
  }

  /** The receipts are closed, and hold the message once a move has sent it. */
  predicate OnRecord(h: Host, rs: seq<Receipt>, moves: seq<Move>, m: Json) {
    Closed(rs) && ((exists i :: 0 <= i < |moves| && Sends(moves[i], m)) ==> AllSent(h.c, rs)[EnvelopeHash(h.c, m)] >= 1)
  }

  lemma {:induction false} StoreKeepsReceipts(l: Local, cl: Client, replies: seq<Json>)
    ensures StoreAll(l, cl, replies).receipts == cl.receipts
  {
    if replies != [] {
      StoreKeepsReceipts(l, cl, replies[..|replies| - 1]);
    }
  }

  lemma OwnReceipts(h: Host, l: Local, s: System, q: Request, round: nat)
    requires Completes(h, q, s)
    ensures exists replies ::
              MoveStep(h, l, s, Own(q, round)).cl.receipts
              == s.cl.receipts + [RequestRow(round, q.messages, s.cl.storedMax), OutcomeRow(round, Delivered, replies)]
  {
    hide Round, StoreAll;
    var k := Round(h, Asked(q, s.cl), s.bus, s.file);
    var cl := s.cl.(receipts := s.cl.receipts + [RequestRow(round, q.messages, s.cl.storedMax),
                                                 OutcomeRow(round, Delivered, k.replies)]);
    StoreKeepsReceipts(l, cl, k.replies);
  }

  lemma MoveOnRecord(h: Host, l: Local, id: string, s: System, moves: seq<Move>, mv: Move, m: Json)
    requires FairMove(h, id, s, mv) && OnRecord(h, s.cl.receipts, moves, m)
    ensures OnRecord(h, MoveStep(h, l, s, mv).cl.receipts, moves + [mv], m)
  {
    hide Round, StoreAll, Closed, AllSent, EnvelopeHash, HashAll, QueueMeasured, HonestMove, BusOps.Step;
    var hash := EnvelopeHash(h.c, m);
    if mv.Own? {
      OwnReceipts(h, l, s, mv.q, mv.round);
      hide MoveStep, Completes;
      var rs := MoveStep(h, l, s, mv).cl.receipts;
      var replies :| rs == s.cl.receipts + [RequestRow(mv.round, mv.q.messages, s.cl.storedMax),
                                            OutcomeRow(mv.round, Delivered, replies)];
      ClosedRound(h.c, s.cl.receipts, mv.round, mv.q.messages, s.cl.storedMax, replies);
      if m in mv.q.messages {
        HashAllHas(h.c, mv.q.messages, m);
      }
    }
    if exists i :: 0 <= i < |moves + [mv]| && Sends((moves + [mv])[i], m) {
      var i :| 0 <= i < |moves + [mv]| && Sends((moves + [mv])[i], m);
      assert i < |moves| ==> Sends(moves[i], m);
    }
  }

  lemma {:induction false} RunNeverCounts(h: Host, l: Local, id: string, s0: System, moves: seq<Move>, m: Json)
    requires HashTells(h.c, m) && Reserved(h, m) && HonestStart(id, s0) && FairMoves(h, l, id, s0, moves)
    ensures var s := StateAfter(h, l, s0, moves);
            NeverCounted(s.file, id, EnvelopeHash(h.c, m)) && OnRecord(h, s.cl.receipts, moves, m)
  {
    hide MoveStep, FairMove, EnvelopeHash, Reserved, OnRecord, NeverCounted, HashTells;
    if moves == [] {
      NothingOnRecord(h, id, s0, m);
    } else {
      var init, mv := moves[..|moves| - 1], moves[|moves| - 1];
      RunNeverCounts(h, l, id, s0, init, m);
      var s := StateAfter(h, l, s0, init);
      assert init + [mv] == moves;
      MoveOnRecord(h, l, id, s, init, mv, m);
      MoveNeverCounts(h, l, id, s, mv, m);
    }
  }

  lemma NothingOnRecord(h: Host, id: string, s0: System, m: Json)
    requires HonestStart(id, s0)
    ensures NeverCounted(s0.file, id, EnvelopeHash(h.c, m)) && OnRecord(h, s0.cl.receipts, [], m)
  {
  }

  lemma MoveNeverCounts(h: Host, l: Local, id: string, s: System, mv: Move, m: Json)
    requires HashTells(h.c, m) && Reserved(h, m) && FairMove(h, id, s, mv) && NeverCounted(s.file, id, EnvelopeHash(h.c, m))
    ensures NeverCounted(MoveStep(h, l, s, mv).file, id, EnvelopeHash(h.c, m))
  {
    hide Round, StoreAll, NeverCounted, EnvelopeHash, Reserved, HashTells, Completes, QueueMeasured, BusOps.Step;
    match mv
    case Own(q, _) => RoundNeverCounts(h, Asked(q, s.cl), id, m, s.bus, s.file);
    case Theirs(q) => TheirRoundNeverCounts(h, q, id, EnvelopeHash(h.c, m), s.bus, s.file);
    case Aside(_) =>
  }

  lemma UnloggedIsFound(logged: multiset<string>, delivered: multiset<string>, sent: multiset<string>,
                        maybe: multiset<string>, got: multiset<string>, presumed: bool, hash: string)
    requires logged[hash] < sent[hash]
    ensures SentNotLogged(hash) in MailFindings(logged, delivered, sent, maybe, got, presumed).0
  {
  }

  /** A reserved message is missing from the count, and the honest run is accused of it. */
  lemma ReservedIsAccused(h: Host, l: Local, given: Given, id: string, s0: System, moves: seq<Move>, strict: bool, i: nat, m: Json)
    requires HashTells(h.c, m) && SignsFor(h.c, h.pub) && (given.trustedPub == "" || given.trustedPub == h.pub)
    requires HonestStart(id, s0) && FairMoves(h, l, id, s0, moves)
    requires i < |moves| && Sends(moves[i], m) && Reserved(h, m)
    requires LogSound(h, StateAfter(h, l, s0, moves).file)
    requires given.startPrev.Some? ==> given.startPrev.value == GENESIS
    ensures var s := StateAfter(h, l, s0, moves);
            var v := Reconciled(h.c, given, id, CurOf(s0.bus, id).last, strict, Export(s.file, 1), s.cl.receipts);
            SentNotLogged(EnvelopeHash(h.c, m)) in v.discrepancies && !v.ok
  {
    hide StateAfter, FairMoves, HonestStart, LogSound, Verified, Export, Entries, CursorReport, ConflictSet,
      MailFindings, AckFindings, LoggedSent, LoggedDelivered, GotMail, SentMail, SentAcks, Presumed, AsInts, EnvelopeHash, Reserved,
      HashTells, Sends, Closed, AllSent;
    var s := StateAfter(h, l, s0, moves);
    RunNeverCounts(h, l, id, s0, moves, m);
    if Entries(s.file) != [] {
      FirstPrevIsGenesis(h, s.file);
    }
    ExportSound(h, given, s.file);
    var es, rs := Entries(s.file), s.cl.receipts;
    ClosedCounts(h.c, rs, |rs|);
    assert rs[..|rs|] == rs;
    UnloggedIsFound(LoggedSent(es, id), LoggedDelivered(es, id), SentMail(h.c, rs, |rs|, true), SentMail(h.c, rs, |rs|, false),
                    GotMail(h.c, rs), Presumed(rs), EnvelopeHash(h.c, m));
  }

  lemma {:induction false} FairKeepsSound(h: Host, l: Local, id: string, s0: System, moves: seq<Move>)
    requires HonestStart(id, s0) && FairMoves(h, l, id, s0, moves)
    ensures LogSound(h, StateAfter(h, l, s0, moves).file)
  {
    hide FairMove, Round, BusOps.Step, StoreAll;
    if moves != [] {
      var init, mv := moves[..|moves| - 1], moves[|moves| - 1];
      FairKeepsSound(h, l, id, s0, init);
      var s := StateAfter(h, l, s0, init);
      hide LogSound, StateAfter;
      match mv {
        case Own(q, _) => RoundKeepsSound(h, Asked(q, s.cl), s.bus, s.file);
        case Theirs(q) => RoundKeepsSound(h, q, s.bus, s.file);
        case Aside(_) =>
      }
    }
  }

  /**
    A run of complete rounds with dict messages reconciles if and only if none of the
    identity's own messages has kind `ack` or `pickup`, no refused ack of another misled
    it, and, strictly, no message of another strayed among its entries and its cursor never
    leapt.
  */
  lemma CleanExactlyWithoutReservedKinds(h: Host, l: Local, given: Given, id: string, s0: System, moves: seq<Move>, strict: bool)
    requires SignsFor(h.c, h.pub) && (given.trustedPub == "" || given.trustedPub == h.pub)
    requires given.startPrev.Some? ==> given.startPrev.value == GENESIS
    requires HonestStart(id, s0) && FairMoves(h, l, id, s0, moves)
    requires forall i, m | 0 <= i < |moves| && Sends(moves[i], m) && Reserved(h, m) :: HashTells(h.c, m)
    ensures Reconciled(h.c, given, id, CurOf(s0.bus, id).last, strict, Export(StateAfter(h, l, s0, moves).file, 1),
                       StateAfter(h, l, s0, moves).cl.receipts).ok
       <==> (forall i | 0 <= i < |moves| :: NoReserved(h, moves[i]))
            && !Misled(h, l, id, s0, moves)
            && !(strict && (Strayed(h, l, id, s0, moves) || Leapt(h, l, id, s0, moves)))
  {
    hide FairMoves, HonestMoves, StateAfter, HonestStart, Reconciled, Export, HashTells, Reserved, LogSound, Misled, Strayed,
      Leapt;
    if forall i | 0 <= i < |moves| :: NoReserved(h, moves[i]) {
      FairWithoutReserved(h, l, id, s0, moves);
      HonestRunsAreAccusedExactly(h, l, given, id, s0, moves, strict);
    } else {
      var i :| 0 <= i < |moves| && !NoReserved(h, moves[i]);
      var j :| 0 <= j < |moves[i].q.messages| && Reserved(h, moves[i].q.messages[j]);
      assert Sends(moves[i], moves[i].q.messages[j]);
      FairKeepsSound(h, l, id, s0, moves);
      ReservedIsAccused(h, l, given, id, s0, moves, strict, i, moves[i].q.messages[j]);
    }
  }

  // ------------------------------------------------------ the messages that do it

  /** Move k is another's round that takes all its messages, and message n is for the identity, of the given kinds. */
  predicate Brings(h: Host, l: Local, id: string, s0: System, moves: seq<Move>, k: nat, n: nat, kinds: set<string>)
    requires k < |moves|
  {
    var s, mv := StateAfter(h, l, s0, moves[..k]), moves[k];
    && mv.Theirs? && n < |mv.q.messages| && !Upto(h, mv.q, s.bus, s.file, |mv.q.messages|).stopped
    && AddressedTo(mv.q.messages[n], id) && MessageKind(h, mv.q.messages[n]) in kinds
  }

  lemma BroughtIsLogged(h: Host, l: Local, id: string, s0: System, moves: seq<Move>, k: nat, n: nat)
    requires k < |moves|
    ensures Brings(h, l, id, s0, moves, k, n, {"ack", "pickup"}) && !LacksSignature(moves[k].q, moves[k].q.messages[n]) ==>
              StraysNow(h, l, id, s0, moves, k)
    ensures Brings(h, l, id, s0, moves, k, n, {"ack"}) && IsRefused(h, moves[k].q, n) ==> RefusesNow(h, l, id, s0, moves, k)
  {
    hide StateAfter, AddressedTo, MessageKind, Upto, StraysAt, RefusedAt, LacksSignature, InsertFails, SendFault, RowOf;
    var s, mv := StateAfter(h, l, s0, moves[..k]), moves[k];
    if mv.Theirs? && n < |mv.q.messages| && !Upto(h, mv.q, s.bus, s.file, |mv.q.messages|).stopped {
      ThroughStraysExactly(h, mv.q, s.bus, s.file, id, n);
    }
  }

  /** Message n is refused: product mode misses a signature on it, or the bus does not take it. */
  predicate IsRefused(h: Host, q: Request, n: nat)
    requires n < |q.messages|
  {
    var m := q.messages[n];
    LacksSignature(q, m) || InsertFails(q, n, m) || SendFault(h.w, RowOf(h, q, n, m)).Some?
  }

  /** Anyone whose message to the identity has kind `ack` or `pickup` gets it accused under strict. */
  lemma StrayMessageAccuses(h: Host, l: Local, given: Given, id: string, s0: System, moves: seq<Move>, k: nat, n: nat)
    requires SignsFor(h.c, h.pub) && (given.trustedPub == "" || given.trustedPub == h.pub)
    requires given.startPrev.Some? ==> given.startPrev.value == GENESIS
    requires HonestStart(id, s0) && HonestMoves(h, l, id, s0, moves) && k < |moves|
    requires Brings(h, l, id, s0, moves, k, n, {"ack", "pickup"}) && !LacksSignature(moves[k].q, moves[k].q.messages[n])
    ensures var s := StateAfter(h, l, s0, moves);
            var v := Reconciled(h.c, given, id, CurOf(s0.bus, id).last, true, Export(s.file, 1), s.cl.receipts);
            !v.ok && Accuses(v.discrepancies, UnparsableCursor)
  {
    BroughtIsLogged(h, l, id, s0, moves, k, n);
    hide HonestMoves, StateAfter, HonestStart, Reconciled, Export, StraysNow, Misled, Brings, LacksSignature, Leapt, Accuses;
    assert Strayed(h, l, id, s0, moves);
    HonestRunsAreAccusedExactly(h, l, given, id, s0, moves, true);
  }

  /**
    A message of kind `ack` to the identity that is refused gets the identity accused even
    when not strict: it has to come between a round whose ack moved the cursor and the next
    one. In dev mode a body beyond the size limit does; in product mode also a missing
    signature.
  */
  lemma RefusedAckAccuses(h: Host, l: Local, given: Given, id: string, s0: System, moves: seq<Move>, strict: bool,
                          i: nat, k: nat, j: nat, n: nat)
    requires SignsFor(h.c, h.pub) && (given.trustedPub == "" || given.trustedPub == h.pub)
    requires given.startPrev.Some? ==> given.startPrev.value == GENESIS
    requires HonestStart(id, s0) && HonestMoves(h, l, id, s0, moves)
    requires i < k < j < |moves| && moves[j].Own? && forall x | i < x < j :: !moves[x].Own?
    requires AckAdvances(id, StateAfter(h, l, s0, moves[..i]), moves[i])
    requires Brings(h, l, id, s0, moves, k, n, {"ack"}) && IsRefused(h, moves[k].q, n)
    ensures var s := StateAfter(h, l, s0, moves);
            var v := Reconciled(h.c, given, id, CurOf(s0.bus, id).last, strict, Export(s.file, 1), s.cl.receipts);
            !v.ok && Accuses(v.discrepancies, MovedWithoutAck)
  {
    BroughtIsLogged(h, l, id, s0, moves, k, n);
    hide HonestMoves, StateAfter, HonestStart, Reconciled, Export, RefusesNow, Strayed, Brings, IsRefused, Leapt, Accuses, AckAdvances,
      Misled;
    MisledBy(h, l, id, s0, moves, i, k, j);
    HonestRunsAreAccusedExactly(h, l, given, id, s0, moves, strict);
  }

  lemma MisledBy(h: Host, l: Local, id: string, s0: System, moves: seq<Move>, i: nat, k: nat, j: nat)
    requires i < k < j < |moves| && moves[j].Own? && forall x | i < x < j :: !moves[x].Own?
    requires AckAdvances(id, StateAfter(h, l, s0, moves[..i]), moves[i]) && RefusesNow(h, l, id, s0, moves, k)
    ensures Misled(h, l, id, s0, moves)
  {
    hide StateAfter, RefusesIn, AckAdvances;
    var upto := moves[..j];
    assert upto[..i] == moves[..i] && upto[..k] == moves[..k];
    assert AdvancesLast(h, l, id, s0, upto, i) && RefusesNow(h, l, id, s0, upto, k);
    hide AdvancesLast, RefusesNow;
    assert TakenBack(h, l, id, s0, upto);
    hide TakenBack;
  }

  /** The bus takes no body beyond its limit, in either mode. */
  lemma LongBodyIsRefused(h: Host, q: Request, n: nat)
    requires n < |q.messages| && Shaped(q.messages[n]) && ByteLen(Field(q.messages[n], "body").s) > MAX_BODY
    ensures IsRefused(h, q, n)
  {
    hide LacksSignature, InsertFails;
  }

  /**
    A strict round that hands out nothing while its ack is held back, followed by one that
    is not strict: the cursor leaps, and the identity is accused under strict.
  */
  lemma LooseAckAccuses(h: Host, l: Local, given: Given, id: string, s0: System, moves: seq<Move>, i: nat, j: nat)
    requires SignsFor(h.c, h.pub) && (given.trustedPub == "" || given.trustedPub == h.pub)
    requires given.startPrev.Some? ==> given.startPrev.value == GENESIS
    requires HonestStart(id, s0) && HonestMoves(h, l, id, s0, moves)
    requires i < j < |moves| && GoesUnlogged(h, StateAfter(h, l, s0, moves[..i]), moves[i])
    requires forall x | i < x < j :: !moves[x].Own?
    requires AckAdvances(id, StateAfter(h, l, s0, moves[..j]), moves[j])
    ensures var s := StateAfter(h, l, s0, moves);
            var v := Reconciled(h.c, given, id, CurOf(s0.bus, id).last, true, Export(s.file, 1), s.cl.receipts);
            !v.ok && Loosened(moves)
  {
    hide HonestMoves, StateAfter, HonestStart, Reconciled, Export, Strayed, Misled, Accuses, GoesUnlogged, AckAdvances, Loosened;
    var upto := moves[..j];
    assert upto[..i] == moves[..i];
    assert UnloggedLast(h, l, id, s0, upto, i);
    assert Unlogged(h, l, id, s0, upto);
    assert AdvancesNow(h, l, id, s0, moves, j);
    assert Leapt(h, l, id, s0, moves);
    HonestRunsAreAccusedExactly(h, l, given, id, s0, moves, true);
    if !Loosened(moves) {
      SteadyNeverLeaps(h, l, id, s0, moves);
    }
  }
}
