/**
  Honest runs are never accused, unless another identity places entries under the
  honest one's name: what reconciling the whole log with the client's receipts
  finds after any honest run (bus_notary.py, bus_ssh_exchange.py, bus_ssh_client.py).
*/
module HonestVerdict {
  import opened CanonicalJson
  import opened NotaryLog
  import opened NotaryVerify
  import opened Reasons
  import opened VerifyHonest
  import opened BusState
  import opened BusOps
  import opened CursorFold
  import opened OwnEntries
  import opened Exchange
  import opened LogFirst
  import opened RoundPass
  import opened RemoteClient
  import opened LossyLink
  import opened ReplyPage
  import opened Reconcile
  import opened HonestRound
  import opened ForeignRound
  import opened HonestRun

  // --------------------------------------------------- entries of others under one's name

  /** Another's round logs a message to the identity under a kind the log keeps for the exchange. */
  predicate StraysIn(h: Host, id: string, s: System, mv: Move) {
    mv.Theirs? && Strays(h, mv.q, s.bus, s.file, id, |mv.q.messages|)
  }

  /** Another's round logs the refusal of a message of kind `ack` to the identity. */
  predicate RefusesIn(h: Host, id: string, s: System, mv: Move) {
    mv.Theirs? && Refuses(h, mv.q, s.bus, s.file, id, |mv.q.messages|)
  }

  /** The ack of the identity's own round moves its cursor. */
  predicate AckAdvances(id: string, s: System, mv: Move) {
    mv.Own? && AckTarget(s.bus, id, s.cl.storedMax, mv.q.strict) > CurOf(s.bus, id).last
  }

  /** A round of the identity's own writes its ack, but no round entry: it hands out nothing, at the cursor of the last one. */
  predicate GoesUnlogged(h: Host, s: System, mv: Move) {
    && mv.Own? && s.cl.storedMax > 0
    && !Announced(mv.q, Served(h, Asked(mv.q, s.cl), s.bus, s.file), Round(h, Asked(mv.q, s.cl), s.bus, s.file).replies)
  }

  predicate StraysNow(h: Host, l: Local, id: string, s0: System, moves: seq<Move>, i: nat)
    requires i < |moves|
  {
    StraysIn(h, id, StateAfter(h, l, s0, moves[..i]), moves[i])
  }

  predicate RefusesNow(h: Host, l: Local, id: string, s0: System, moves: seq<Move>, i: nat)
    requires i < |moves|
  {
    RefusesIn(h, id, StateAfter(h, l, s0, moves[..i]), moves[i])
  }

  /** Move i is the identity's last round so far, and its ack moved the cursor. */
  predicate AdvancesLast(h: Host, l: Local, id: string, s0: System, moves: seq<Move>, i: nat)
    requires i < |moves|
  {
    AckAdvances(id, StateAfter(h, l, s0, moves[..i]), moves[i]) && forall n | i < n < |moves| :: !moves[n].Own?
  }

  /** Move i is the identity's last round so far, and it went unlogged. */
  predicate UnloggedLast(h: Host, l: Local, id: string, s0: System, moves: seq<Move>, i: nat)
    requires i < |moves|
  {
    GoesUnlogged(h, StateAfter(h, l, s0, moves[..i]), moves[i]) && forall n | i < n < |moves| :: !moves[n].Own?
  }

  predicate Unlogged(h: Host, l: Local, id: string, s0: System, moves: seq<Move>) {
    exists i :: 0 <= i < |moves| && UnloggedLast(h, l, id, s0, moves, i)
  }

  predicate AdvancesNow(h: Host, l: Local, id: string, s0: System, moves: seq<Move>, j: nat)
    requires j < |moves|
  {
    AckAdvances(id, StateAfter(h, l, s0, moves[..j]), moves[j])
  }

  /** An ack moved the cursor with no round entry since the ack before. */
  predicate Leapt(h: Host, l: Local, id: string, s0: System, moves: seq<Move>) {
    exists j :: 0 <= j < |moves| && AdvancesNow(h, l, id, s0, moves, j) && Unlogged(h, l, id, s0, moves[..j])
  }

  predicate Strayed(h: Host, l: Local, id: string, s0: System, moves: seq<Move>) {
    exists i :: 0 <= i < |moves| && StraysNow(h, l, id, s0, moves, i)
  }

  predicate Advanced(h: Host, l: Local, id: string, s0: System, moves: seq<Move>) {
    exists i :: 0 <= i < |moves| && AdvancesLast(h, l, id, s0, moves, i)
  }

  /** The last round's ack moved the cursor, and a refusal logged since then reads as if it had not. */
  predicate TakenBack(h: Host, l: Local, id: string, s0: System, moves: seq<Move>) {
    exists i, k :: 0 <= i < k < |moves| && AdvancesLast(h, l, id, s0, moves, i) && RefusesNow(h, l, id, s0, moves, k)
  }

  /** Some round of the identity came after that. */
  predicate Misled(h: Host, l: Local, id: string, s0: System, moves: seq<Move>) {
    exists j :: 0 <= j < |moves| && moves[j].Own? && TakenBack(h, l, id, s0, moves[..j])
  }

  lemma NowIsIn(h: Host, l: Local, id: string, s0: System, moves: seq<Move>, i: nat)
    requires i < |moves| - 1
    ensures var init := moves[..|moves| - 1];
            && StraysNow(h, l, id, s0, moves, i) == StraysNow(h, l, id, s0, init, i)
            && RefusesNow(h, l, id, s0, moves, i) == RefusesNow(h, l, id, s0, init, i)
            && (AdvancesLast(h, l, id, s0, moves, i)
                <==> AdvancesLast(h, l, id, s0, init, i) && !moves[|moves| - 1].Own?)
  {
    hide StraysIn, RefusesIn, AckAdvances, StateAfter;
    assert moves[..|moves| - 1][..i] == moves[..i];
    assert forall n | i < n < |moves| - 1 :: moves[n] == moves[..|moves| - 1][n];
  }

  lemma OwnGoUnlogged(h: Host, s: System, mv: Move)
    ensures GoesUnlogged(h, s, mv) ==> mv.Own?
  {
    hide Round, Served, Announced;
  }

  lemma UnloggedSteps(h: Host, l: Local, id: string, s0: System, moves: seq<Move>)
    requires moves != []
    ensures var init, mv := moves[..|moves| - 1], moves[|moves| - 1];
            Unlogged(h, l, id, s0, moves)
            == if mv.Own? then GoesUnlogged(h, StateAfter(h, l, s0, init), mv) else Unlogged(h, l, id, s0, init)
  {
    hide StateAfter, GoesUnlogged;
    var init, mv := moves[..|moves| - 1], moves[|moves| - 1];
    OwnGoUnlogged(h, StateAfter(h, l, s0, init), mv);
    assert UnloggedLast(h, l, id, s0, moves, |init|) == GoesUnlogged(h, StateAfter(h, l, s0, init), mv);
    forall i | 0 <= i < |init|
      ensures UnloggedLast(h, l, id, s0, moves, i) <==> UnloggedLast(h, l, id, s0, init, i) && !mv.Own? {
      assert init[..i] == moves[..i];
      assert forall n | i < n < |init| :: moves[n] == init[n];
    }
    hide UnloggedLast;
  }

  lemma LeaptSteps(h: Host, l: Local, id: string, s0: System, moves: seq<Move>)
    requires moves != []
    ensures var init, mv := moves[..|moves| - 1], moves[|moves| - 1];
            Leapt(h, l, id, s0, moves)
            <==> Leapt(h, l, id, s0, init)
                 || (AckAdvances(id, StateAfter(h, l, s0, init), mv) && Unlogged(h, l, id, s0, init))
  {
    hide StateAfter, Unlogged, AckAdvances;
    var init, mv := moves[..|moves| - 1], moves[|moves| - 1];
    assert AdvancesNow(h, l, id, s0, moves, |init|) == AckAdvances(id, StateAfter(h, l, s0, init), mv);
    forall j | 0 <= j < |init|
      ensures moves[..j] == init[..j] && AdvancesNow(h, l, id, s0, moves, j) == AdvancesNow(h, l, id, s0, init, j) {
    }
    hide AdvancesNow;
  }

  lemma StrayedSteps(h: Host, l: Local, id: string, s0: System, moves: seq<Move>)
    requires moves != []
    ensures var init, mv := moves[..|moves| - 1], moves[|moves| - 1];
            Strayed(h, l, id, s0, moves) == (Strayed(h, l, id, s0, init) || StraysIn(h, id, StateAfter(h, l, s0, init), mv))
  {
    hide StraysIn, StateAfter, RefusesNow, AdvancesLast;
    var init := moves[..|moves| - 1];
    assert StraysNow(h, l, id, s0, moves, |init|) == StraysIn(h, id, StateAfter(h, l, s0, init), moves[|init|]);
    forall i | 0 <= i < |init| ensures StraysNow(h, l, id, s0, moves, i) == StraysNow(h, l, id, s0, init, i) {
      NowIsIn(h, l, id, s0, moves, i);
    }
    hide StraysNow;
  }

  lemma AdvancedSteps(h: Host, l: Local, id: string, s0: System, moves: seq<Move>)
    requires moves != []
    ensures var init, mv := moves[..|moves| - 1], moves[|moves| - 1];
            Advanced(h, l, id, s0, moves)
            == if mv.Own? then AckAdvances(id, StateAfter(h, l, s0, init), mv) else Advanced(h, l, id, s0, init)
  {
    hide StateAfter, StraysNow, RefusesNow;
    var init, mv := moves[..|moves| - 1], moves[|moves| - 1];
    assert AdvancesLast(h, l, id, s0, moves, |init|) == AckAdvances(id, StateAfter(h, l, s0, init), mv);
    assert !mv.Own? ==> !AckAdvances(id, StateAfter(h, l, s0, init), mv);
    forall i | 0 <= i < |init|
      ensures AdvancesLast(h, l, id, s0, moves, i) <==> AdvancesLast(h, l, id, s0, init, i) && !mv.Own? {
      NowIsIn(h, l, id, s0, moves, i);
    }
    hide AdvancesLast, AckAdvances;
  }

  lemma TakenBackSteps(h: Host, l: Local, id: string, s0: System, moves: seq<Move>)
    requires moves != []
    ensures var init, mv := moves[..|moves| - 1], moves[|moves| - 1];
            TakenBack(h, l, id, s0, moves)
            <==> !mv.Own? && (TakenBack(h, l, id, s0, init)
                              || (Advanced(h, l, id, s0, init) && RefusesIn(h, id, StateAfter(h, l, s0, init), mv)))
  {
    hide StateAfter, StraysNow, RefusesIn, AckAdvances;
    var init, mv := moves[..|moves| - 1], moves[|moves| - 1];
    assert RefusesNow(h, l, id, s0, moves, |init|) == RefusesIn(h, id, StateAfter(h, l, s0, init), mv);
    forall i | 0 <= i < |init|
      ensures AdvancesLast(h, l, id, s0, moves, i) <==> AdvancesLast(h, l, id, s0, init, i) && !mv.Own?
      ensures RefusesNow(h, l, id, s0, moves, i) == RefusesNow(h, l, id, s0, init, i) {
      NowIsIn(h, l, id, s0, moves, i);
    }
    hide AdvancesLast, RefusesNow;
  }

  lemma MisledSteps(h: Host, l: Local, id: string, s0: System, moves: seq<Move>)
    requires moves != []
    ensures var init, mv := moves[..|moves| - 1], moves[|moves| - 1];
            Misled(h, l, id, s0, moves) <==> Misled(h, l, id, s0, init) || (mv.Own? && TakenBack(h, l, id, s0, init))
  {
    hide TakenBack;
    var init, mv := moves[..|moves| - 1], moves[|moves| - 1];
    forall j | 0 <= j < |init| ensures moves[..j] == init[..j] && moves[j] == init[j] {
    }
  }

  // ------------------------------------------------- how the fold over all entries stands

  /** What the run has done to the fold: flagged its strays, been misled, or followed the own fold. */
  predicate Tracks(g: Setting, st: FState, own: FState, strayed: bool, back: bool, misled: bool) {
    && (strayed && g.strict ==> HasKind(st.disc, UnparsableCursor))
    && (misled ==> HasKind(st.disc, MovedWithoutAck))
    && (!misled ==>
          && Follows(st, own, back) && (!(strayed && g.strict) ==> st.disc == [])
          && (!strayed ==> st.unresolved == own.unresolved)
          && (HasKind(own.unresolved, MovedWithoutRound) ==> HasKind(st.unresolved, MovedWithoutRound)))
  }

  lemma TracksOn(g: Setting, st: FState, d: FState, own: FState, strayed: bool, back: bool, misled: bool, stray: bool,
                 refused: bool)
    requires Tracks(g, st, own, strayed, back, misled) && GoesOn(g, st, d, own, back, stray, refused)
    ensures Tracks(g, d, own, strayed || stray, back || (refused && Ahead(own)), misled)
  {
    hide Follows, Ahead, HasKind;
    if strayed && g.strict {
      KindStays(st.disc, d.disc, UnparsableCursor);
    }
    if misled {
      KindStays(st.disc, d.disc, MovedWithoutAck);
    } else if HasKind(own.unresolved, MovedWithoutRound) {
      KindStays(st.unresolved, d.unresolved, MovedWithoutRound);
    }
  }

  /** What a round of the identity's own appends: its own entries, none of them a refused ack. */
  lemma OwnAppends(h: Host, q: Request, g: Setting, bus: Bus, file: seq<Record>)
    requires q.identity == g.identity && !q.f.ack && forall i | 0 <= i < |q.messages| :: Countable(h, q.messages[i])
    ensures var all := Entries(Round(h, q, bus, file).file); Entries(file) <= all && OwnFrom(g, all, |Entries(file)|)
  {
    var es := Entries(file);
    var p := (f: seq<Record>) => es <= Entries(f) && OwnFrom(g, Entries(f), |es|);
    var ok := (l: Line) => !(l.kind == "ack" && l.decision == "rejected");
    forall f: seq<Record>, n: nat, l: Line | p(f) && ok(l)
      ensures p(RecordStep(h.c, h.pub, h.every, f, NoteOf(q, n, l)).1) {
      OwnRecord(h, q, g, es, f, n, l);
    }
    OwnLines(h, q, ok);
    hide Round, RecordStep, Entries, FrameAllowed, MessagesAllowed, OwnFrom;
    assert p(file) by {
      NoneFrom(g, es);
    }
    RoundPreserves(h, q, bus, file, p, ok);
  }

  lemma NoneFrom(g: Setting, es: seq<Entry>)
    ensures OwnFrom(g, es, |es|)
  {
  }

  lemma OwnRecord(h: Host, q: Request, g: Setting, es: seq<Entry>, f: seq<Record>, n: nat, l: Line)
    requires q.identity == g.identity && !(l.kind == "ack" && l.decision == "rejected")
    requires es <= Entries(f) && OwnFrom(g, Entries(f), |es|)
    ensures var all := Entries(RecordStep(h.c, h.pub, h.every, f, NoteOf(q, n, l)).1); es <= all && OwnFrom(g, all, |es|)
  {
    var note := NoteOf(q, n, l);
    RecordEntries(h.c, h.pub, h.every, f, note);
    if Sealed(h.c, TailOf(f), note).Ok? {
      SealedMade(h, q, TailOf(f), n, l);
      hide Sealed, RecordStep, Entries, SameButAnchors, TailOf, EnvelopeSha;
    }
  }

  lemma OwnLines(h: Host, q: Request, ok: Line -> bool)
    requires !q.f.ack && forall i | 0 <= i < |q.messages| :: Countable(h, q.messages[i])
    requires forall l :: ok(l) <==> !(l.kind == "ack" && l.decision == "rejected")
    ensures FrameAllowed(h, q, ok) && MessagesAllowed(h, q, ok)
  {
    hide AckReason, RoundReason, Exchange.RoundCursor, Hashes, Shaped, MessageKind, TextField;
  }

  /** The cursor, the books and what is stored, before and after a round of the identity's own. */
  lemma OwnCursor(h: Host, l: Local, g: Setting, s: System, q: Request, round: nat)
    requires Kept(h, g, s) && HonestMove(h, g.identity, s, Own(q, round))
    requires |MoveStep(h, l, s, Own(q, round)).bus.messages| <= ID_MAX
    ensures var t, cur, stored := MoveStep(h, l, s, Own(q, round)), CurOf(s.bus, g.identity).last, s.cl.storedMax;
            var own, was := OwnFold(g, Entries(t.file)), OwnFold(g, Entries(s.file));
            var now := CurOf(t.bus, g.identity).last;
            && t.file == Round(h, Asked(q, s.cl), s.bus, s.file).file && t.cl.storedMax >= stored
            && now == AckTarget(s.bus, g.identity, stored, q.strict)
            && own.acks == was.acks + (if stored > 0 then [stored] else [])
            && LeapsBy(was.unresolved, own.unresolved, now > cur && !was.anyRound)
  {
    hide Round, Served, Tidy, Entries, LogSound, StoreAll, HashAll, Countable, Closed, AllSent, GotMail, AllAcks,
      HighWater, OwnFold, Reach, LeapsBy, PageOut, Measured;
    var asked := Asked(q, s.cl);
    OwnRoundBus(h, asked, s.bus, s.file);
    OwnRoundBooks(h, asked, g, s.bus, s.file);
    CompleteIsHandOut(h, asked, s.bus, s.file);
    OwnServedBooks(h, asked, g, s.bus, s.file);
    OwnClient(h, l, s, q, round);
  }

  /** Whether a round entry came since the last ack, and what a round without one leaves as it was. */
  lemma OwnAnnounces(h: Host, l: Local, g: Setting, s: System, q: Request, round: nat)
    requires Kept(h, g, s) && HonestMove(h, g.identity, s, Own(q, round))
    requires |MoveStep(h, l, s, Own(q, round)).bus.messages| <= ID_MAX
    ensures var t, stored := MoveStep(h, l, s, Own(q, round)), s.cl.storedMax;
            var own, was := OwnFold(g, Entries(t.file)), OwnFold(g, Entries(s.file));
            && (GoesUnlogged(h, s, Own(q, round)) ==> !own.anyRound)
            && (!GoesUnlogged(h, s, Own(q, round)) && t.cl.storedMax > 0 ==> own.anyRound)
            && (GoesUnlogged(h, s, Own(q, round)) ==>
                  t.cl.storedMax == stored && CurOf(t.bus, g.identity).delivered == CurOf(s.bus, g.identity).delivered)
  {
    hide Round, Served, Tidy, Entries, LogSound, StoreAll, HashAll, Countable, Closed, AllSent, GotMail, AllAcks,
      HighWater, OwnFold, Reach, LeapsBy, PageOut, Measured, RepliesOf;
    var asked := Asked(q, s.cl);
    OwnRoundBus(h, asked, s.bus, s.file);
    OwnRoundBooks(h, asked, g, s.bus, s.file);
    OwnReplies(h, asked, s.bus, s.file);
    ServedLeaves(h, asked, s.bus, s.file);
    OwnClient(h, l, s, q, round);
    var m := Served(h, asked, s.bus, s.file);
    PageOutFacts(h, asked, m.bus);
    RepliesCount(asked, m.bus, PageOut(h, asked, m.bus));
    SameAnnounced(q, asked, m, Round(h, asked, s.bus, s.file).replies);
  }

  lemma SameAnnounced(q: Request, asked: Request, k: Work, replies: seq<Json>)
    requires asked.identity == q.identity
    ensures Announced(asked, k, replies) == Announced(q, k, replies)
  {
  }

  lemma KeptIsClean(h: Host, g: Setting, s: System)
    requires Kept(h, g, s)
    ensures var own := OwnFold(g, Entries(s.file));
            Settled(own) && !Marred(own) && own.expected == CurOf(s.bus, g.identity).last >= 0 && s.cl.storedMax >= 0
  {
    hide LogSound, Closed, AllSent, GotMail, AllAcks, OwnFold, Entries, HighWater, Reach, OnlyLeaps;
  }

  /** Where the own fold stands ahead after a round of its own. */
  lemma OwnAhead(was: FState, own: FState, cur: int, now: int, stored: int)
    requires Onward(was, own) && was.expected == cur && own.expected == now && (stored <= 0 ==> now == cur)
    requires own.acks == was.acks + (if stored > 0 then [stored] else [])
    requires cur <= now && (Ahead(was) ==> stored > 0)
    ensures Ahead(own) <==> now > cur
  {
    if stored <= 0 {
      assert own.acks == was.acks;
    }
  }

  lemma OwnTracks(g: Setting, es: seq<Entry>, all: seq<Entry>, strayed: bool, back: bool, misled: bool, stored: int)
    requires es <= all && OwnFrom(g, all, |es|) && !g.presumed && !Marred(OwnFold(g, all))
    requires Tracks(g, Fold(g, es), OwnFold(g, es), strayed, back, misled) && (back && !misled ==> stored > 0)
    requires OwnFold(g, all).acks == OwnFold(g, es).acks + (if stored > 0 then [stored] else [])
    ensures Tracks(g, Fold(g, all), OwnFold(g, all), strayed, false, misled || back)
  {
    hide Follows, Marred, Fold, OwnFold, OwnFrom, HasKind;
    assert all[..|es|] == es && all[..|all|] == all;
    if strayed && g.strict {
      RunAccuses(g, all, |es|, UnparsableCursor);
    }
    if misled {
      RunAccuses(g, all, |es|, MovedWithoutAck);
    } else if back {
      BackDiffers(Fold(g, es), OwnFold(g, es));
      RunBack(g, all, |es|, |all|);
    } else {
      RunFollows(g, all, |es|, |all|);
      GainShows(OwnFold(g, es).unresolved, OwnFold(g, all).unresolved, Fold(g, es).unresolved, Fold(g, all).unresolved);
    }
  }

  lemma GainShows(was: seq<Item>, now: seq<Item>, some: seq<Item>, more: seq<Item>)
    requires SameGain(was, now, some, more) && (HasKind(was, MovedWithoutRound) ==> HasKind(some, MovedWithoutRound))
    ensures HasKind(now, MovedWithoutRound) ==> HasKind(more, MovedWithoutRound)
    ensures some == was ==> more == now
  {
    if HasKind(now, MovedWithoutRound) {
      var i :| 0 <= i < |now| && now[i].kind == MovedWithoutRound;
      if i < |was| {
        assert was[i].kind == MovedWithoutRound;
        KindStays(some, more, MovedWithoutRound);
      } else {
        assert more[|some| + i - |was|] == now[i];
      }
    }
  }

  lemma BackDiffers(st: FState, own: FState)
    requires Follows(st, own, true)
    ensures st.expected != own.expected
  {
  }

  // -------------------------------------------------------------------- over a run

  /** The fold over all entries of the log, against the own one, after a run. */
  predicate RunTracks(h: Host, l: Local, g: Setting, s0: System, moves: seq<Move>) {
    var s := StateAfter(h, l, s0, moves);
    var own := OwnFold(g, Entries(s.file));
    && Tracks(g, Fold(g, Entries(s.file)), own, Strayed(h, l, g.identity, s0, moves),
              TakenBack(h, l, g.identity, s0, moves), Misled(h, l, g.identity, s0, moves))
    && (Ahead(own) <==> Advanced(h, l, g.identity, s0, moves)) && (Ahead(own) ==> s.cl.storedMax > 0)
  }

  /** And the leaps the own fold knows of. */
  predicate RunLeaps(h: Host, l: Local, g: Setting, s0: System, moves: seq<Move>) {
    var s := StateAfter(h, l, s0, moves);
    LeapsShow(OwnFold(g, Entries(s.file)), CurOf(s.bus, g.identity).last, s.cl.storedMax, Unlogged(h, l, g.identity, s0, moves),
              Leapt(h, l, g.identity, s0, moves))
  }

  /** The own fold knows of the last round entry and of every leap. */
  predicate LeapsShow(own: FState, cur: int, stored: int, unlogged: bool, leapt: bool) {
    && (unlogged ==> !own.anyRound) && (!unlogged && stored > cur ==> own.anyRound)
    && (if leapt then HasKind(own.unresolved, MovedWithoutRound) else own.unresolved == [])
  }

  lemma LeapsShowOn(was: FState, own: FState, cur: int, now: int, stored: int, kept: int, unlogged: bool, silent: bool,
                    leapt: bool)
    requires LeapsShow(was, cur, stored, unlogged, leapt) && (now > cur ==> stored > cur) && cur <= now && now >= 0
    requires LeapsBy(was.unresolved, own.unresolved, now > cur && !was.anyRound)
    requires (silent ==> !own.anyRound) && (!silent && kept > 0 ==> own.anyRound)
    ensures LeapsShow(own, now, kept, silent, leapt || (now > cur && unlogged))
  {
    if leapt {
      KindStays(was.unresolved, own.unresolved, MovedWithoutRound);
    } else if now > cur && unlogged {
      assert own.unresolved[|was.unresolved|].kind == MovedWithoutRound;
    }
  }

  lemma StartTracks(h: Host, l: Local, g: Setting, s0: System)
    requires HonestStart(g.identity, s0)
    ensures RunTracks(h, l, g, s0, []) && RunLeaps(h, l, g, s0, [])
  {
    assert Entries(s0.file) == [];
  }

  lemma AsideTracks(h: Host, l: Local, g: Setting, s0: System, moves: seq<Move>)
    requires moves != [] && moves[|moves| - 1].Aside? && RunTracks(h, l, g, s0, moves[..|moves| - 1])
    ensures RunTracks(h, l, g, s0, moves)
  {
    var id := g.identity;
    StrayedSteps(h, l, id, s0, moves);
    AdvancedSteps(h, l, id, s0, moves);
    TakenBackSteps(h, l, id, s0, moves);
    MisledSteps(h, l, id, s0, moves);
    hide Strayed, Advanced, TakenBack, Misled, Tracks, Ahead, Fold, OwnFold, Entries, BusOps.Step;
  }

  /** Others' moves change nothing of one's own entries, cursor and store. */
  lemma OthersLeaps(h: Host, l: Local, g: Setting, s0: System, moves: seq<Move>)
    requires moves != [] && !moves[|moves| - 1].Own? && RunLeaps(h, l, g, s0, moves[..|moves| - 1])
    requires HonestMove(h, g.identity, StateAfter(h, l, s0, moves[..|moves| - 1]), moves[|moves| - 1])
    ensures RunLeaps(h, l, g, s0, moves)
  {
    var s, mv := StateAfter(h, l, s0, moves[..|moves| - 1]), moves[|moves| - 1];
    UnloggedSteps(h, l, g.identity, s0, moves);
    LeaptSteps(h, l, g.identity, s0, moves);
    LastMove(h, l, s0, moves);
    OthersLeaveCursor(h, l, g.identity, s, mv);
    OthersLeaveBooks(h, l, g, s, mv);
    hide OwnFold, Entries, Unlogged, Leapt, LeapsShow, StateAfter, MoveStep, HonestMove;
  }

  lemma OthersLeaveBooks(h: Host, l: Local, g: Setting, s: System, mv: Move)
    requires !mv.Own? && (mv.Theirs? ==> mv.q.identity != g.identity)
    ensures OwnFold(g, Entries(MoveStep(h, l, s, mv).file)) == OwnFold(g, Entries(s.file))
  {
    if mv.Theirs? {
      TheirRoundBooks(h, mv.q, g, s.bus, s.file);
    }
    hide Round, OwnFold, Entries, LoggedSent, LoggedDelivered, BusOps.Step;
  }

  /** Only its own rounds move the identity's cursor and what it has stored. */
  lemma OthersLeaveCursor(h: Host, l: Local, id: string, s: System, mv: Move)
    requires HonestMove(h, id, s, mv) && !mv.Own?
    ensures var t := MoveStep(h, l, s, mv); t.cl == s.cl && CurOf(t.bus, id) == CurOf(s.bus, id)
  {
    if mv.Theirs? {
      RoundLeavesOthers(h, mv.q, s.bus, s.file, id);
    } else {
      EventLeaves(h.w, s.bus, mv.e, id);
    }
    hide Round, BusOps.Step, Completes, QueueMeasured;
  }

  lemma LastMove(h: Host, l: Local, s0: System, moves: seq<Move>)
    requires moves != []
    ensures StateAfter(h, l, s0, moves) == MoveStep(h, l, StateAfter(h, l, s0, moves[..|moves| - 1]), moves[|moves| - 1])
  {
    hide MoveStep;
  }

  /** One round of another identity, whatever the run before it. */
  lemma TheirMoveFold(h: Host, l: Local, g: Setting, s: System, q: Request, strayed: bool, back: bool, misled: bool)
    requires Kept(h, g, s) && q.identity != g.identity
    requires Tracks(g, Fold(g, Entries(s.file)), OwnFold(g, Entries(s.file)), strayed, back, misled)
    ensures var t, own := MoveStep(h, l, s, Theirs(q)), OwnFold(g, Entries(s.file));
            && t.cl == s.cl && OwnFold(g, Entries(t.file)) == own
            && Tracks(g, Fold(g, Entries(t.file)), own, strayed || StraysIn(h, g.identity, s, Theirs(q)),
                      back || (RefusesIn(h, g.identity, s, Theirs(q)) && Ahead(own)), misled)
  {
    KeptIsClean(h, g, s);
    TheirRoundBooks(h, q, g, s.bus, s.file);
    hide Tracks, Ahead, Fold, OwnFold, Entries, Round, GoesOn, Strays, Refuses, Kept, LoggedSent, LoggedDelivered, Settled;
    var own, t := OwnFold(g, Entries(s.file)), MoveStep(h, l, s, Theirs(q));
    assert OwnFold(g, Entries(t.file)) == own;
    TheirRoundGoesOn(h, q, g, s.bus, s.file, own, back);
    TracksOn(g, Fold(g, Entries(s.file)), Fold(g, Entries(t.file)), own, strayed, back, misled,
             Strays(h, q, s.bus, s.file, g.identity, |q.messages|), Refuses(h, q, s.bus, s.file, g.identity, |q.messages|));
  }

  lemma TheirsTracks(h: Host, l: Local, g: Setting, s0: System, moves: seq<Move>)
    requires moves != [] && moves[|moves| - 1].Theirs? && RunTracks(h, l, g, s0, moves[..|moves| - 1])
    requires Kept(h, g, StateAfter(h, l, s0, moves[..|moves| - 1])) && moves[|moves| - 1].q.identity != g.identity
    ensures RunTracks(h, l, g, s0, moves)
  {
    var id, init := g.identity, moves[..|moves| - 1];
    StrayedSteps(h, l, id, s0, moves);
    AdvancedSteps(h, l, id, s0, moves);
    TakenBackSteps(h, l, id, s0, moves);
    MisledSteps(h, l, id, s0, moves);
    LastMove(h, l, s0, moves);
    hide Strayed, Advanced, TakenBack, Misled, Tracks, Ahead, Fold, OwnFold, Entries, Kept, MoveStep, StateAfter, StraysIn,
      RefusesIn, AckAdvances;
    TheirMoveFold(h, l, g, StateAfter(h, l, s0, init), moves[|moves| - 1].q, Strayed(h, l, id, s0, init),
                  TakenBack(h, l, id, s0, init), Misled(h, l, id, s0, init));
  }

  /** One round of the identity's own, whatever the run before it. */
  lemma OwnMoveFold(h: Host, l: Local, g: Setting, s: System, q: Request, round: nat, strayed: bool, back: bool, misled: bool)
    requires Kept(h, g, s) && HonestMove(h, g.identity, s, Own(q, round)) && !g.presumed
    requires Kept(h, g, MoveStep(h, l, s, Own(q, round)))
    requires var own := OwnFold(g, Entries(s.file));
             && Tracks(g, Fold(g, Entries(s.file)), own, strayed, back, misled)
             && (back ==> Ahead(own)) && (Ahead(own) ==> s.cl.storedMax > 0)
    ensures var t := MoveStep(h, l, s, Own(q, round));
            var own := OwnFold(g, Entries(t.file));
            && Tracks(g, Fold(g, Entries(t.file)), own, strayed, false, misled || back)
            && (Ahead(own) <==> AckAdvances(g.identity, s, Own(q, round)))
            && (Ahead(own) ==> t.cl.storedMax > 0)
  {
    var t := MoveStep(h, l, s, Own(q, round));
    KeptIsClean(h, g, s);
    KeptIsClean(h, g, t);
    KeptSmall(h, g, t);
    OwnCursor(h, l, g, s, q, round);
    OwnMoveAppends(h, g, s, q, round);
    TargetBounds(s.bus, g.identity, s.cl.storedMax, q.strict);
    hide Tracks, Ahead, Fold, OwnFold, Entries, Round, Kept, Settled, MoveStep, HonestMove, Marred, OwnFrom, LeapsBy, AckTarget;
    OwnRoundFold(g, Entries(s.file), Entries(t.file), strayed, back, misled, CurOf(s.bus, g.identity).last,
                 CurOf(t.bus, g.identity).last, s.cl.storedMax);
  }

  lemma TargetBounds(b: Bus, a: string, upto: int, strict: bool)
    requires CurOf(b, a).last >= 0
    ensures CurOf(b, a).last <= AckTarget(b, a, upto, strict)
    ensures AckTarget(b, a, upto, strict) > CurOf(b, a).last ==> upto >= AckTarget(b, a, upto, strict) > 0
  {
    hide HighWater;
  }

  lemma OwnMoveLeaps(h: Host, l: Local, g: Setting, s: System, q: Request, round: nat, unlogged: bool, leapt: bool)
    requires Kept(h, g, s) && HonestMove(h, g.identity, s, Own(q, round)) && !g.presumed
    requires Kept(h, g, MoveStep(h, l, s, Own(q, round)))
    requires LeapsShow(OwnFold(g, Entries(s.file)), CurOf(s.bus, g.identity).last, s.cl.storedMax, unlogged, leapt)
    ensures var t := MoveStep(h, l, s, Own(q, round));
            LeapsShow(OwnFold(g, Entries(t.file)), CurOf(t.bus, g.identity).last, t.cl.storedMax,
                      GoesUnlogged(h, s, Own(q, round)), leapt || (AckAdvances(g.identity, s, Own(q, round)) && unlogged))
  {
    var t := MoveStep(h, l, s, Own(q, round));
    KeptIsClean(h, g, s);
    KeptSmall(h, g, t);
    OwnCursor(h, l, g, s, q, round);
    OwnAnnounces(h, l, g, s, q, round);
    TargetBounds(s.bus, g.identity, s.cl.storedMax, q.strict);
    hide OwnFold, Entries, Round, Kept, Settled, Marred, MoveStep, HonestMove, LeapsBy, AckTarget, GoesUnlogged, LeapsShow;
    LeapsShowOn(OwnFold(g, Entries(s.file)), OwnFold(g, Entries(t.file)), CurOf(s.bus, g.identity).last,
                CurOf(t.bus, g.identity).last, s.cl.storedMax, t.cl.storedMax, unlogged, GoesUnlogged(h, s, Own(q, round)), leapt);
  }

  lemma OwnMoveAppends(h: Host, g: Setting, s: System, q: Request, round: nat)
    requires HonestMove(h, g.identity, s, Own(q, round))
    ensures var all := Entries(Round(h, Asked(q, s.cl), s.bus, s.file).file);
            Entries(s.file) <= all && OwnFrom(g, all, |Entries(s.file)|)
  {
    hide Round, Entries, Countable, OwnFrom;
    OwnAppends(h, Asked(q, s.cl), g, s.bus, s.file);
  }

  lemma OwnRoundFold(g: Setting, es: seq<Entry>, all: seq<Entry>, strayed: bool, back: bool, misled: bool, cur: int,
                     now: int, stored: int)
    requires es <= all && OwnFrom(g, all, |es|) && !g.presumed && !Marred(OwnFold(g, all))
    requires Tracks(g, Fold(g, es), OwnFold(g, es), strayed, back, misled)
    requires (back ==> Ahead(OwnFold(g, es))) && (Ahead(OwnFold(g, es)) ==> stored > 0)
    requires OwnFold(g, es).expected == cur >= 0 && OwnFold(g, all).expected == now >= cur && (stored <= 0 ==> now == cur)
    requires OwnFold(g, all).acks == OwnFold(g, es).acks + (if stored > 0 then [stored] else [])
    ensures Tracks(g, Fold(g, all), OwnFold(g, all), strayed, false, misled || back)
    ensures Ahead(OwnFold(g, all)) <==> now > cur
  {
    hide Tracks, Ahead, Fold, OwnFold, Marred, Onward, OwnFrom;
    assert all[..|es|] == es && all[..|all|] == all;
    RunOnward(g, all, |es|, |all|);
    OwnAhead(OwnFold(g, es), OwnFold(g, all), cur, now, stored);
    OwnTracks(g, es, all, strayed, back, misled, stored);
  }

  lemma OwnMoveTracks(h: Host, l: Local, g: Setting, s0: System, moves: seq<Move>)
    requires moves != [] && moves[|moves| - 1].Own? && RunTracks(h, l, g, s0, moves[..|moves| - 1]) && !g.presumed
    requires var s := StateAfter(h, l, s0, moves[..|moves| - 1]);
             Kept(h, g, s) && HonestMove(h, g.identity, s, moves[|moves| - 1])
    requires Kept(h, g, StateAfter(h, l, s0, moves))
    ensures RunTracks(h, l, g, s0, moves)
  {
    var id, init, mv := g.identity, moves[..|moves| - 1], moves[|moves| - 1];
    StrayedSteps(h, l, id, s0, moves);
    AdvancedSteps(h, l, id, s0, moves);
    TakenBackSteps(h, l, id, s0, moves);
    MisledSteps(h, l, id, s0, moves);
    BackIsAdvanced(h, l, id, s0, init);
    LastMove(h, l, s0, moves);
    assert !StraysIn(h, id, StateAfter(h, l, s0, init), mv);
    hide Strayed, Advanced, TakenBack, Misled, Tracks, Ahead, Fold, OwnFold, Entries, Kept, MoveStep, HonestMove, StateAfter,
      StraysIn, RefusesIn, AckAdvances;
    OwnMoveFold(h, l, g, StateAfter(h, l, s0, init), mv.q, mv.round, Strayed(h, l, id, s0, init),
                TakenBack(h, l, id, s0, init), Misled(h, l, id, s0, init));
  }

  lemma OwnLeaps(h: Host, l: Local, g: Setting, s0: System, moves: seq<Move>)
    requires moves != [] && moves[|moves| - 1].Own? && RunLeaps(h, l, g, s0, moves[..|moves| - 1]) && !g.presumed
    requires var s := StateAfter(h, l, s0, moves[..|moves| - 1]);
             Kept(h, g, s) && HonestMove(h, g.identity, s, moves[|moves| - 1])
    requires Kept(h, g, StateAfter(h, l, s0, moves))
    ensures RunLeaps(h, l, g, s0, moves)
  {
    var id, init, mv := g.identity, moves[..|moves| - 1], moves[|moves| - 1];
    UnloggedSteps(h, l, id, s0, moves);
    LeaptSteps(h, l, id, s0, moves);
    LastMove(h, l, s0, moves);
    hide OwnFold, Entries, Kept, MoveStep, HonestMove, StateAfter, Unlogged, Leapt, LeapsShow, GoesUnlogged, AckAdvances;
    OwnMoveLeaps(h, l, g, StateAfter(h, l, s0, init), mv.q, mv.round, Unlogged(h, l, id, s0, init), Leapt(h, l, id, s0, init));
  }

  lemma BackIsAdvanced(h: Host, l: Local, id: string, s0: System, moves: seq<Move>)
    ensures TakenBack(h, l, id, s0, moves) ==> Advanced(h, l, id, s0, moves)
  {
    hide AdvancesLast, RefusesNow;
  }

  lemma KeptSmall(h: Host, g: Setting, s: System)
    requires Kept(h, g, s)
    ensures |s.bus.messages| <= ID_MAX
  {
    hide LogSound, BooksFit, HighWater;
  }

  lemma {:induction false} MovesTrack(h: Host, l: Local, g: Setting, s0: System, moves: seq<Move>)
    requires HonestStart(g.identity, s0) && HonestMoves(h, l, g.identity, s0, moves)
    requires g.start == CurOf(s0.bus, g.identity).last && !g.presumed
    ensures RunTracks(h, l, g, s0, moves) && RunLeaps(h, l, g, s0, moves)
  {
    hide Kept, MoveStep, HonestStart, RunTracks, RunLeaps, Completes, QueueMeasured, Countable;
    if moves == [] {
      StartTracks(h, l, g, s0);
    } else {
      var init := moves[..|moves| - 1];
      MovesTrack(h, l, g, s0, init);
      HonestMovesKeep(h, l, g, s0, init);
      HonestMovesKeep(h, l, g, s0, moves);
      match moves[|moves| - 1] {
        case Own(_, _) =>
          OwnMoveTracks(h, l, g, s0, moves);
          OwnLeaps(h, l, g, s0, moves);
        case Theirs(_) =>
          TheirsTracks(h, l, g, s0, moves);
          OthersLeaps(h, l, g, s0, moves);
        case Aside(_) =>
          AsideTracks(h, l, g, s0, moves);
          OthersLeaps(h, l, g, s0, moves);
      }
    }
  }

  // ------------------------------------------------------------------------ the verdict

  /** The export of a sound log holds its entries, and verifies. */
  lemma ExportSound(h: Host, given: Given, file: seq<Record>)
    requires LogSound(h, file) && SignsFor(h.c, h.pub) && (given.trustedPub == "" || given.trustedPub == h.pub)
    requires Entries(file) != [] ==> StartsFrom(given, Entries(file), 1)
    ensures Entries(Export(file, 1)) == Entries(file) && Verified(h.c, given, Export(file, 1)).errors == []
    ensures Verified(h.c, given, Export(file, 1)).ok
  {
    hide HashOk;
    if Entries(file) == [] {
      assert Export(file, 1) == [];
    } else {
      ExportShape(h.c, file, 1);
      var es := Entries(file);
      assert es[0..|es|] == es;
      EntriesOfRecords(es);
      var ck := LastCkpt(file);
      if ck.Some? {
        EntriesAppend(AsRecords(es), CkptRec(ck.value));
      } else {
        assert AsRecords(es) + [] == AsRecords(es);
      }
      HonestExportVerifies(h.c, h.pub, given, file, 1);
    }
  }

  /** Matching counters raise nothing. */
  lemma MailMatches(logged: multiset<string>, delivered: multiset<string>, sent: multiset<string>, got: multiset<string>)
    requires sent <= logged && got == delivered
    ensures MailFindings(logged, delivered, sent, multiset{}, got, false) == ({}, {})
  {
    var f := MailFindings(logged, delivered, sent, multiset{}, got, false);
    assert forall h :: sent[h] <= logged[h] && got[h] == delivered[h];
    assert f.0 == {} && f.1 == {};
  }

  lemma AcksMatch(acks: multiset<int>, sent: multiset<int>)
    requires acks == sent
    ensures AckFindings(acks, sent, multiset{}) == ({}, {})
  {
    var f := AckFindings(acks, sent, multiset{});
    assert f.0 == {} && f.1 == {};
  }

  lemma FirstPrevIsGenesis(h: Host, file: seq<Record>)
    requires LogSound(h, file) && Entries(file) != []
    ensures Entries(file)[0].prevHash == GENESIS
  {
    hide HashOk;
    assert LinkAt(h.c, Entries(file), 0);
  }

  /** Fitting books raise no finding of mail, and none of acks if the fold lists the same ones. */
  lemma BooksRaiseNothing(h: Host, g: Setting, s: System)
    requires BooksFit(h, g, s)
    ensures var es, rs := Entries(s.file), s.cl.receipts;
            && !Presumed(rs) && ConflictSet(rs) == {}
            && MailFindings(LoggedSent(es, g.identity), LoggedDelivered(es, g.identity), SentMail(h.c, rs, |rs|, true),
                            SentMail(h.c, rs, |rs|, false), GotMail(h.c, rs), Presumed(rs)) == ({}, {})
            && AckFindings(AsInts(OwnFold(g, es).acks), SentAcks(rs, |rs|, true), SentAcks(rs, |rs|, false)) == ({}, {})
  {
    hide Tidy, Closed, Entries, OwnFold, ConflictSet, MailFindings, AckFindings, LoggedSent, LoggedDelivered, AllSent,
      AllAcks, GotMail, SentMail, SentAcks, PresumedAmong;
    var es, rs := Entries(s.file), s.cl.receipts;
    ClosedCounts(h.c, rs, |rs|);
    assert rs[..|rs|] == rs;
    NoConflicts(rs);
    MailMatches(LoggedSent(es, g.identity), LoggedDelivered(es, g.identity), AllSent(h.c, rs), GotMail(h.c, rs));
    AcksMatch(AsInts(OwnFold(g, es).acks), AllAcks(rs));
  }

  /** In a state kept by honest moves, only the fold over all entries can raise a finding. */
  lemma OnlyTheFoldAccuses(h: Host, given: Given, g: Setting, s: System)
    requires SignsFor(h.c, h.pub) && (given.trustedPub == "" || given.trustedPub == h.pub)
    requires given.startPrev.Some? ==> given.startPrev.value == GENESIS
    requires Kept(h, g, s) && !g.presumed
    ensures var v := Reconciled(h.c, given, g.identity, g.start, g.strict, Export(s.file, 1), s.cl.receipts);
            var report := CursorReport(g, Entries(s.file));
            && v.verifyOk && (v.ok <==> v.discrepancies == {} && !(g.strict && v.unresolved != {}))
            && ItemSet(report.disc) <= v.discrepancies
            && (report.acks == OwnFold(g, Entries(s.file)).acks ==>
                  v.discrepancies == ItemSet(report.disc) && v.unresolved == ItemSet(report.unresolved))
  {
    hide BooksFit, BusFits, LogSound, Verified, Export, Entries, CursorReport, ConflictSet, MailFindings, AckFindings,
      LoggedSent, LoggedDelivered, GotMail, SentMail, SentAcks, Presumed, AsInts, OwnFold, ItemSet;
    if Entries(s.file) != [] {
      FirstPrevIsGenesis(h, s.file);
    }
    ExportSound(h, given, s.file);
    BooksRaiseNothing(h, g, s);
    assert Setting(g.identity, g.start, g.strict, false) == g;
  }

  /** What the fold over all entries reports at the end of the log. */
  lemma ReportOf(g: Setting, st: FState, own: FState, strayed: bool, back: bool, misled: bool)
    requires Tracks(g, st, own, strayed, back, misled) && Settled(own)
    ensures var report := CloseRound(g, st);
            && (strayed && g.strict ==> HasKind(report.disc, UnparsableCursor))
            && (misled ==> HasKind(report.disc, MovedWithoutAck))
            && (!misled ==> report.acks == own.acks)
            && (!misled && !(strayed && g.strict) ==> report.disc == [])
            && (!misled && !strayed ==> report.unresolved == own.unresolved)
            && (!misled && HasKind(own.unresolved, MovedWithoutRound) ==> HasKind(report.unresolved, MovedWithoutRound))
  {
    CloseGrows(g, st);
    CloseKeeps(g, st);
    if !misled {
      CloseFollows(g, st, own, back);
    }
    hide CloseRound, Follows, Settled, HasKind;
    if strayed && g.strict {
      KindStays(st.disc, CloseRound(g, st).disc, UnparsableCursor);
    }
    if misled {
      KindStays(st.disc, CloseRound(g, st).disc, MovedWithoutAck);
    }
  }

  /** A finding of the cursor fold of the given kind. */
  predicate Accuses(findings: set<Finding>, k: Kind) {
    exists f :: f in findings && f.CursorFinding? && f.item.kind == k
  }

  lemma KindAccuses(items: seq<Item>, findings: set<Finding>, k: Kind)
    requires HasKind(items, k) && ItemSet(items) <= findings
    ensures Accuses(findings, k)
  {
    var i :| 0 <= i < |items| && items[i].kind == k;
    assert CursorFinding(items[i]) in findings;
  }

  /**
    For every run of complete rounds, among other bus activity and the rounds of other
    identities: reconciling the whole log with the client's receipts accuses the run
    exactly if another's refused ack misled it, or, strictly, if another's message
    strayed among its entries or its cursor leapt; and it names what it found.
  */
  lemma HonestRunsAreAccusedExactly(h: Host, l: Local, given: Given, id: string, s0: System, moves: seq<Move>, strict: bool)
    requires SignsFor(h.c, h.pub) && (given.trustedPub == "" || given.trustedPub == h.pub)
    requires given.startPrev.Some? ==> given.startPrev.value == GENESIS
    requires HonestStart(id, s0) && HonestMoves(h, l, id, s0, moves)
    ensures var s := StateAfter(h, l, s0, moves);
            var v := Reconciled(h.c, given, id, CurOf(s0.bus, id).last, strict, Export(s.file, 1), s.cl.receipts);
            var strayed, misled, leapt :=
              Strayed(h, l, id, s0, moves), Misled(h, l, id, s0, moves), Leapt(h, l, id, s0, moves);
            && v.verifyOk && (v.ok <==> !misled && !(strict && (strayed || leapt)))
            && (!misled && !strayed && !leapt ==> v.discrepancies == {} && v.unresolved == {})
            && (strict && strayed ==> Accuses(v.discrepancies, UnparsableCursor))
            && (misled ==> Accuses(v.discrepancies, MovedWithoutAck))
            && (leapt && !misled ==> Accuses(v.unresolved, MovedWithoutRound))
  {
    hide HonestMoves, StateAfter, HonestStart, Kept, Reconciled, Export, Tracks, Strayed, TakenBack, Misled, Advanced, Fold,
      OwnFold, CloseRound, ItemSet, Accuses, Settled, HasKind, Entries, Ahead, Leapt, Unlogged, LeapsShow;
    var g := Setting(id, CurOf(s0.bus, id).last, strict, false);
    var s := StateAfter(h, l, s0, moves);
    HonestMovesKeep(h, l, g, s0, moves);
    MovesTrack(h, l, g, s0, moves);
    KeptIsClean(h, g, s);
    OnlyTheFoldAccuses(h, given, g, s);
    JudgedBy(h, l, given, g, s0, moves);
  }

  lemma JudgedBy(h: Host, l: Local, given: Given, g: Setting, s0: System, moves: seq<Move>)
    requires var s := StateAfter(h, l, s0, moves);
             Settled(OwnFold(g, Entries(s.file))) && RunTracks(h, l, g, s0, moves) && RunLeaps(h, l, g, s0, moves)
    requires var s := StateAfter(h, l, s0, moves);
             var v := Reconciled(h.c, given, g.identity, g.start, g.strict, Export(s.file, 1), s.cl.receipts);
             var report := CursorReport(g, Entries(s.file));
             && v.verifyOk && (v.ok <==> v.discrepancies == {} && !(g.strict && v.unresolved != {}))
             && ItemSet(report.disc) <= v.discrepancies
             && (report.acks == OwnFold(g, Entries(s.file)).acks ==>
                   v.discrepancies == ItemSet(report.disc) && v.unresolved == ItemSet(report.unresolved))
    ensures var s := StateAfter(h, l, s0, moves);
            var v := Reconciled(h.c, given, g.identity, g.start, g.strict, Export(s.file, 1), s.cl.receipts);
            var strayed, misled, leapt :=
              Strayed(h, l, g.identity, s0, moves), Misled(h, l, g.identity, s0, moves), Leapt(h, l, g.identity, s0, moves);
            && (v.ok <==> !misled && !(g.strict && (strayed || leapt)))
            && (!misled && !strayed && !leapt ==> v.discrepancies == {} && v.unresolved == {})
            && (g.strict && strayed ==> Accuses(v.discrepancies, UnparsableCursor))
            && (misled ==> Accuses(v.discrepancies, MovedWithoutAck))
            && (leapt && !misled ==> Accuses(v.unresolved, MovedWithoutRound))
  {
    hide StateAfter, Reconciled, Export, Tracks, Strayed, TakenBack, Misled, Advanced, Fold, OwnFold, CloseRound, ItemSet,
      Accuses, Settled, HasKind, Entries, Ahead, Leapt, Unlogged;
    var s, id := StateAfter(h, l, s0, moves), g.identity;
    var strayed, misled, leapt := Strayed(h, l, id, s0, moves), Misled(h, l, id, s0, moves), Leapt(h, l, id, s0, moves);
    var st, own := Fold(g, Entries(s.file)), OwnFold(g, Entries(s.file));
    ReportOf(g, st, own, strayed, TakenBack(h, l, id, s0, moves), misled);
    var v := Reconciled(h.c, given, g.identity, g.start, g.strict, Export(s.file, 1), s.cl.receipts);
    var report := CloseRound(g, st);
    NoItems();
    if strayed && g.strict {
      KindAccuses(report.disc, v.discrepancies, UnparsableCursor);
      AccusedNotEmpty(v.discrepancies, UnparsableCursor);
    }
    if misled {
      KindAccuses(report.disc, v.discrepancies, MovedWithoutAck);
      AccusedNotEmpty(v.discrepancies, MovedWithoutAck);
    } else if leapt {
      KindAccuses(report.unresolved, v.unresolved, MovedWithoutRound);
      AccusedNotEmpty(v.unresolved, MovedWithoutRound);
    }
  }

  lemma NoItems()
    ensures ItemSet([]) == {}
  {
  }

  lemma AccusedNotEmpty(findings: set<Finding>, k: Kind)
    requires Accuses(findings, k)
    ensures findings != {}
  {
  }

  /** No message another identity sends to this one carries a kind the log keeps for the exchange. */
  predicate Harmless(h: Host, id: string, mv: Move) {
    mv.Theirs? ==>
      forall i | 0 <= i < |mv.q.messages| && AddressedTo(mv.q.messages[i], id) ::
        MessageKind(h, mv.q.messages[i]) != "ack" && MessageKind(h, mv.q.messages[i]) != "pickup"
  }

  lemma HarmlessMoves(h: Host, l: Local, id: string, s0: System, moves: seq<Move>)
    requires forall i | 0 <= i < |moves| :: Harmless(h, id, moves[i])
    ensures !Strayed(h, l, id, s0, moves) && !Misled(h, l, id, s0, moves)
  {
    hide StateAfter, AddressedTo, MessageKind;
    forall i, s: System | 0 <= i < |moves| ensures !StraysIn(h, id, s, moves[i]) && !RefusesIn(h, id, s, moves[i]) {
      HarmlessMove(h, id, s, moves[i]);
    }
    hide StraysIn, RefusesIn, AdvancesLast;
    forall j, k | 0 <= k < j <= |moves| ensures !RefusesNow(h, l, id, s0, moves[..j], k) {
      assert moves[..j][k] == moves[k];
    }
  }

  lemma HarmlessMove(h: Host, id: string, s: System, mv: Move)
    requires Harmless(h, id, mv)
    ensures !StraysIn(h, id, s, mv) && !RefusesIn(h, id, s, mv)
  {
    hide AddressedTo, MessageKind, Upto, Noted, Write, RowOf, MessageLine;
  }

  // ---------------------------------------------------------- where nothing leaps

  /** A round of the identity's own under a strict ack, followed by one that is not strict. */
  predicate Loosened(moves: seq<Move>) {
    exists i, j :: 0 <= i < j < |moves| && LoosenedAt(moves, i, j)
  }

  predicate LoosenedAt(moves: seq<Move>, i: nat, j: nat)
    requires i < j < |moves|
  {
    moves[i].Own? && moves[j].Own? && moves[i].q.strict && !moves[j].q.strict && forall n | i < n < j :: !moves[n].Own?
  }

  /** A further ack of the same kind would not move the cursor. */
  predicate Held(b: Bus, id: string, stored: int, strict: bool) {
    stored <= CurOf(b, id).last || (strict && CurOf(b, id).delivered <= CurOf(b, id).last)
  }

  lemma HeldHolds(b: Bus, id: string, stored: int, strict: bool, now: bool)
    requires Held(b, id, stored, strict) && (strict ==> now)
    ensures AckTarget(b, id, stored, now) == CurOf(b, id).last
  {
    hide HighWater;
  }

  lemma AckHolds(b: Bus, c: Bus, id: string, stored: int, strict: bool)
    requires BusFits(id, b, stored) && CurOf(c, id).last == AckTarget(b, id, stored, strict)
    requires CurOf(c, id).delivered == CurOf(b, id).delivered
    ensures Held(c, id, stored, strict)
  {
    hide HighWater, Reach;
  }

  /** After a round that went unlogged, the cursor is held. */
  predicate RunHolds(h: Host, l: Local, id: string, s0: System, moves: seq<Move>) {
    forall i | 0 <= i < |moves| && UnloggedLast(h, l, id, s0, moves, i) ::
      moves[i].Own? && HeldIn(StateAfter(h, l, s0, moves), id, moves[i].q.strict)
  }

  predicate HeldIn(s: System, id: string, strict: bool) { Held(s.bus, id, s.cl.storedMax, strict) }

  lemma OwnHolds(h: Host, l: Local, g: Setting, s: System, q: Request, round: nat)
    requires Kept(h, g, s) && HonestMove(h, g.identity, s, Own(q, round)) && Kept(h, g, MoveStep(h, l, s, Own(q, round)))
    requires GoesUnlogged(h, s, Own(q, round))
    ensures HeldIn(MoveStep(h, l, s, Own(q, round)), g.identity, q.strict)
  {
    var t := MoveStep(h, l, s, Own(q, round));
    KeptSmall(h, g, t);
    OwnCursor(h, l, g, s, q, round);
    OwnAnnounces(h, l, g, s, q, round);
    hide HonestMove, MoveStep, GoesUnlogged, AckTarget, BusFits, LogSound, BooksFit, LeapsBy;
    AckHolds(s.bus, t.bus, g.identity, s.cl.storedMax, q.strict);
  }

  lemma MoveHolds(h: Host, l: Local, g: Setting, s0: System, moves: seq<Move>)
    requires moves != [] && RunHolds(h, l, g.identity, s0, moves[..|moves| - 1])
    requires var s := StateAfter(h, l, s0, moves[..|moves| - 1]);
             Kept(h, g, s) && HonestMove(h, g.identity, s, moves[|moves| - 1])
    requires Kept(h, g, StateAfter(h, l, s0, moves))
    ensures RunHolds(h, l, g.identity, s0, moves)
  {
    hide StateAfter, MoveStep, HonestMove, Kept, HeldIn, UnloggedLast;
    forall i | 0 <= i < |moves| && UnloggedLast(h, l, g.identity, s0, moves, i)
      ensures moves[i].Own? && HeldIn(StateAfter(h, l, s0, moves), g.identity, moves[i].q.strict) {
      MoveHoldsAt(h, l, g, s0, moves, i);
    }
  }

  lemma MoveHoldsAt(h: Host, l: Local, g: Setting, s0: System, moves: seq<Move>, i: nat)
    requires i < |moves| && UnloggedLast(h, l, g.identity, s0, moves, i)
    requires var init, s := moves[..|moves| - 1], StateAfter(h, l, s0, moves[..|moves| - 1]);
             && Kept(h, g, s) && HonestMove(h, g.identity, s, moves[|moves| - 1])
             && RunHolds(h, l, g.identity, s0, init) && Kept(h, g, StateAfter(h, l, s0, moves))
    ensures moves[i].Own? && HeldIn(StateAfter(h, l, s0, moves), g.identity, moves[i].q.strict)
  {
    hide StateAfter, MoveStep, HonestMove, Kept, HeldIn, UnloggedLast, GoesUnlogged;
    var init, mv := moves[..|moves| - 1], moves[|moves| - 1];
    var s := StateAfter(h, l, s0, init);
    LastMove(h, l, s0, moves);
    UnloggedIs(h, l, g.identity, s0, moves, i);
    if i == |init| {
      OwnHolds(h, l, g, s, mv.q, mv.round);
    } else {
      assert init[i].Own? && HeldIn(s, g.identity, init[i].q.strict);
      OthersHold(h, l, g.identity, s, mv, init[i].q.strict);
    }
  }

  lemma UnloggedIs(h: Host, l: Local, id: string, s0: System, moves: seq<Move>, i: nat)
    requires i < |moves| && UnloggedLast(h, l, id, s0, moves, i)
    ensures moves[i].Own?
    ensures var init := moves[..|moves| - 1];
            if i == |init| then GoesUnlogged(h, StateAfter(h, l, s0, init), moves[i])
            else UnloggedLast(h, l, id, s0, init, i) && !moves[|init|].Own?
  {
    hide GoesUnlogged, StateAfter;
    OwnGoUnlogged(h, StateAfter(h, l, s0, moves[..i]), moves[i]);
    var init := moves[..|moves| - 1];
    if i < |init| {
      assert init[..i] == moves[..i];
      assert forall n | i < n < |init| :: init[n] == moves[n];
    }
  }

  lemma OthersHold(h: Host, l: Local, id: string, s: System, mv: Move, strict: bool)
    requires HonestMove(h, id, s, mv) && !mv.Own? && HeldIn(s, id, strict)
    ensures HeldIn(MoveStep(h, l, s, mv), id, strict)
  {
    OthersLeaveCursor(h, l, id, s, mv);
    hide MoveStep, HonestMove;
  }

  lemma {:induction false} RunsHold(h: Host, l: Local, g: Setting, s0: System, moves: seq<Move>)
    requires HonestStart(g.identity, s0) && HonestMoves(h, l, g.identity, s0, moves)
    requires g.start == CurOf(s0.bus, g.identity).last
    ensures RunHolds(h, l, g.identity, s0, moves)
  {
    hide Kept, MoveStep, HonestStart, HonestMove, RunHolds;
    if moves == [] {
      assert RunHolds(h, l, g.identity, s0, []) by {
        NothingHeld(h, l, g.identity, s0);
      }
    } else {
      var init := moves[..|moves| - 1];
      RunsHold(h, l, g, s0, init);
      HonestMovesKeep(h, l, g, s0, init);
      HonestMovesKeep(h, l, g, s0, moves);
      MoveHolds(h, l, g, s0, moves);
    }
  }

  lemma NothingHeld(h: Host, l: Local, id: string, s0: System)
    ensures RunHolds(h, l, id, s0, [])
  {
  }

  lemma {:induction false} HonestPrefix(h: Host, l: Local, id: string, s0: System, moves: seq<Move>, n: nat)
    requires n <= |moves| && HonestMoves(h, l, id, s0, moves)
    ensures HonestMoves(h, l, id, s0, moves[..n])
  {
    hide StateAfter, HonestMove;
    if n < |moves| {
      assert moves[..|moves| - 1][..n] == moves[..n];
      HonestPrefix(h, l, id, s0, moves[..|moves| - 1], n);
    } else {
      assert moves[..n] == moves;
    }
  }

  /** Where no round loosens the ack of the one before, the cursor never leaps. */
  lemma SteadyNeverLeaps(h: Host, l: Local, id: string, s0: System, moves: seq<Move>)
    requires HonestStart(id, s0) && HonestMoves(h, l, id, s0, moves) && !Loosened(moves)
    ensures !Leapt(h, l, id, s0, moves)
  {
    var g := Setting(id, CurOf(s0.bus, id).last, false, false);
    forall j | 0 <= j < |moves| && Unlogged(h, l, id, s0, moves[..j])
      ensures !AdvancesNow(h, l, id, s0, moves, j) {
      HonestPrefix(h, l, id, s0, moves, j);
      RunsHold(h, l, g, s0, moves[..j]);
      hide HonestMoves, HonestStart, StateAfter, GoesUnlogged, AckTarget, Held;
      var i :| 0 <= i < j && UnloggedLast(h, l, id, s0, moves[..j], i);
      var s := StateAfter(h, l, s0, moves[..j]);
      assert moves[..j][i] == moves[i];
      assert forall n | i < n < j :: moves[..j][n] == moves[n];
      if moves[j].Own? {
        assert !LoosenedAt(moves, i, j);
        HeldHolds(s.bus, id, s.cl.storedMax, moves[i].q.strict, moves[j].q.strict);
      }
    }
    hide AdvancesNow, Unlogged;
  }

  /**
    Honest runs are never accused: where no message of another identity to this one has
    kind `ack` or `pickup`, and no round loosens the ack of the one before, nothing is found
    and nothing left unresolved, strictly or not, in either mode.
  */
  lemma HonestRunsAreNeverAccused(h: Host, l: Local, given: Given, id: string, s0: System, moves: seq<Move>, strict: bool)
    requires SignsFor(h.c, h.pub) && (given.trustedPub == "" || given.trustedPub == h.pub)
    requires given.startPrev.Some? ==> given.startPrev.value == GENESIS
    requires HonestStart(id, s0) && HonestMoves(h, l, id, s0, moves) && !Loosened(moves)
    requires forall i | 0 <= i < |moves| :: Harmless(h, id, moves[i])
    ensures var s := StateAfter(h, l, s0, moves);
            var v := Reconciled(h.c, given, id, CurOf(s0.bus, id).last, strict, Export(s.file, 1), s.cl.receipts);
            v.ok && v.verifyOk && v.discrepancies == {} && v.unresolved == {}
  {
    hide HonestMoves, StateAfter, HonestStart, Reconciled, Export, Strayed, Misled, Harmless, Leapt, Loosened;
    HarmlessMoves(h, l, id, s0, moves);
    SteadyNeverLeaps(h, l, id, s0, moves);
    HonestRunsAreAccusedExactly(h, l, given, id, s0, moves, strict);
  }
}
