/**
  What a round of another identity leaves in the log under one's name
  (bus_ssh_exchange.py): a message of kind `ack` or `pickup` is logged with its
  recipient and its kind, as if it were an entry of the exchange's own.
*/
module ForeignRound {
  import opened Wrappers
  import opened CanonicalJson
  import opened NotaryLog
  import opened Reasons
  import opened BusState
  import opened CursorFold
  import opened OwnEntries
  import opened Exchange
  import opened LogFirst
  import opened RoundPass
  import opened HonestRound

  /** The note gets as far as writing its entry. */
  predicate Noted(h: Host, q: Request, k: Work, l: Line) {
    !k.stopped && !q.f.note(k.notes) && Sealed(h.c, TailOf(k.file), NoteOf(q, k.notes, l)).Ok?
  }

  predicate AddressedTo(m: Json, id: string) { Shaped(m) && Field(m, "to") == Str(id) }

  /** A message to the identity is received under a kind the log keeps for the exchange. */
  predicate StraysHere(h: Host, q: Request, k: Work, id: string, m: Json) {
    && AddressedTo(m, id) && (MessageKind(h, m) == "ack" || MessageKind(h, m) == "pickup") && !LacksSignature(q, m)
    && Noted(h, q, k, MessageLine(h, m, "accepted", ""))
  }

  /** A message of kind `ack` to the identity is refused: for want of a signature, or by the bus. */
  predicate RefusedHere(h: Host, q: Request, k: Work, i: nat, id: string, m: Json) {
    && AddressedTo(m, id) && MessageKind(h, m) == "ack"
    && if LacksSignature(q, m) then Noted(h, q, k, MessageLine(h, m, "rejected", "unsigned-pinned"))
       else
         var k1 := Write(h, q, k, MessageLine(h, m, "accepted", ""));
         && (InsertFails(q, i, m) || Send(h.w, k1.bus, RowOf(h, q, i, m)).1.Err?)
         && Noted(h, q, k1, MessageLine(h, m, "rejected", "send_failed"))
  }

  /** The round as it comes to message i. */
  function Upto(h: Host, q: Request, bus: Bus, file: seq<Record>, i: nat): Work
    requires i <= |q.messages|
  {
    MessagesPart(h, q, AckPart(h, q, Work(bus, file, [], 0, false, [], [], [], false)), i)
  }

  predicate StraysAt(h: Host, q: Request, bus: Bus, file: seq<Record>, id: string, i: nat)
    requires i < |q.messages|
  {
    StraysHere(h, q, Upto(h, q, bus, file, i), id, q.messages[i])
  }

  predicate RefusedAt(h: Host, q: Request, bus: Bus, file: seq<Record>, id: string, i: nat)
    requires i < |q.messages|
  {
    RefusedHere(h, q, Upto(h, q, bus, file, i), i, id, q.messages[i])
  }

  /** Among the first n messages. */
  predicate Strays(h: Host, q: Request, bus: Bus, file: seq<Record>, id: string, n: nat)
    requires n <= |q.messages|
  {
    exists i :: 0 <= i < n && StraysAt(h, q, bus, file, id, i)
  }

  predicate Refuses(h: Host, q: Request, bus: Bus, file: seq<Record>, id: string, n: nat)
    requires n <= |q.messages|
  {
    exists i :: 0 <= i < n && RefusedAt(h, q, bus, file, id, i)
  }

  // ----------------------------------------------------------------- one line

  lemma NotedAppends(h: Host, q: Request, k: Work, l: Line)
    ensures Noted(h, q, k, l) ==>
              exists e :: Entries(Write(h, q, k, l).file) == Entries(k.file) + [e] && Made(h, q, e, l) && SameButAnchors(e, l)
    ensures !Noted(h, q, k, l) ==> Entries(Write(h, q, k, l).file) == Entries(k.file)
  {
    hide Sealed, TailOf, NoteOf, Entries, EnvelopeSha, Take200, SameButAnchors, Made;
    if !k.stopped && !q.f.note(k.notes) {
      var n := NoteOf(q, k.notes, l);
      RecordEntries(h.c, h.pub, h.every, k.file, n);
      if Sealed(h.c, TailOf(k.file), n).Ok? {
        SealedMade(h, q, TailOf(k.file), k.notes, l);
      }
    }
  }

  /**
    How the fold over all entries goes on from `st` to `d` while the own one stands still:
    a stray entry is flagged, a refusal takes the last ack back, and nothing else happens.
  */
  predicate GoesOn(g: Setting, st: FState, d: FState, own: FState, back: bool, stray: bool, refused: bool) {
    && st.disc <= d.disc && (stray && g.strict ==> HasKind(d.disc, UnparsableCursor))
    && (Follows(st, own, back) ==>
          && Follows(d, own, back || (refused && Ahead(own)))
          && (!(stray && g.strict) ==> d.disc == st.disc)
          && st.unresolved <= d.unresolved && (!stray ==> d.unresolved == st.unresolved))
  }

  lemma GoesOnTwice(g: Setting, st: FState, d1: FState, d2: FState, own: FState, back: bool, s1: bool, r1: bool, s2: bool, r2: bool)
    requires GoesOn(g, st, d1, own, back, s1, r1) && GoesOn(g, d1, d2, own, back || (r1 && Ahead(own)), s2, r2)
    ensures GoesOn(g, st, d2, own, back, s1 || s2, r1 || r2)
  {
    hide Follows, Ahead, HasKind;
    if s1 && g.strict {
      KindStays(d1.disc, d2.disc, UnparsableCursor);
    }
  }

  /** A line another identity's message brings about. */
  predicate Bare(l: Line) {
    l.cursor == None && (l.decision == "rejected" || (l.decision == "accepted" && l.reason == ""))
  }

  predicate StrayLine(l: Line, id: string) {
    l.recipient == id && l.decision == "accepted" && (l.kind == "ack" || l.kind == "pickup")
  }

  predicate RefusalLine(l: Line, id: string) { l.recipient == id && l.decision == "rejected" && l.kind == "ack" }

  lemma BareReads(h: Host, q: Request, e: Entry, l: Line, id: string)
    requires Made(h, q, e, l) && SameButAnchors(e, l) && Bare(l)
    ensures StrayLine(l, id) ==> e.recipient == id && Unreadable(e)
    ensures RefusalLine(l, id) ==> e.recipient == id && IsAckRejected(e)
    ensures !StrayLine(l, id) && !RefusalLine(l, id) ==>
              e.recipient != id || !(IsAck(e) || IsAckRejected(e) || IsRound(e) || IsDelivery(e))
  {
    hide EnvelopeSha;
    if StrayLine(l, id) {
      assert e.reason == "";
      assert ParseAck("") == None && ParseRound("") == None;
    }
  }

  /** What one such line adds. */
  lemma BareEffect(h: Host, q: Request, g: Setting, k: Work, l: Line, own: FState, back: bool)
    requires Settled(own) && Bare(l)
    ensures var n := Noted(h, q, k, l);
            GoesOn(g, Fold(g, Entries(k.file)), Fold(g, Entries(Write(h, q, k, l).file)), own, back,
                   n && StrayLine(l, g.identity), n && RefusalLine(l, g.identity))
  {
    hide Write, Noted, Entries, Made, SameButAnchors, Follows, Settled, Ahead, CursorFold.Step, Unreadable, Bare;
    NotedAppends(h, q, k, l);
    if Noted(h, q, k, l) {
      var es, st := Entries(k.file), Fold(g, Entries(k.file));
      var e :| Entries(Write(h, q, k, l).file) == es + [e] && Made(h, q, e, l) && SameButAnchors(e, l);
      BareReads(h, q, e, l, g.identity);
      assert (es + [e])[..|es|] == es;
      hide Fold;
      assert Fold(g, es + [e]) == CursorFold.Step(g, st, e) by {
        FoldLast(g, es, e);
      }
      EntryEffect(g, st, own, back, e, l);
    }
  }

  lemma FoldLast(g: Setting, es: seq<Entry>, e: Entry)
    ensures Fold(g, es + [e]) == CursorFold.Step(g, Fold(g, es), e)
  {
    hide CursorFold.Step;
    assert (es + [e])[..|es|] == es;
  }

  lemma EntryEffect(g: Setting, st: FState, own: FState, back: bool, e: Entry, l: Line)
    requires Settled(own)
    requires StrayLine(l, g.identity) ==> e.recipient == g.identity && Unreadable(e)
    requires RefusalLine(l, g.identity) ==> e.recipient == g.identity && IsAckRejected(e)
    requires !StrayLine(l, g.identity) && !RefusalLine(l, g.identity) ==>
               e.recipient != g.identity || !(IsAck(e) || IsAckRejected(e) || IsRound(e) || IsDelivery(e))
    ensures GoesOn(g, st, CursorFold.Step(g, st, e), own, back, StrayLine(l, g.identity), RefusalLine(l, g.identity))
  {
    hide Follows, Settled, Ahead, CursorFold.Step, Unreadable;
    DiscGrows(g, st, e);
    if StrayLine(l, g.identity) {
      if g.strict {
        StrayAccuses(g, st, e);
      }
      if Follows(st, own, back) {
        UnreadableStep(g, st, own, back, e);
      }
    } else if RefusalLine(l, g.identity) {
      if Follows(st, own, back) {
        RefusalStep(g, st, own, back, e);
      }
    } else {
      OtherStep(g, st, e);
    }
  }

  lemma StrayAccuses(g: Setting, st: FState, e: Entry)
    requires e.recipient == g.identity && Unreadable(e) && g.strict
    ensures HasKind(CursorFold.Step(g, st, e).disc, UnparsableCursor)
  {
    hide CloseRound, AckNumbers, RoundNumbers;
    var d := CursorFold.Step(g, st, e).disc;
    assert d[|d| - 1].kind == UnparsableCursor;
  }

  // ------------------------------------------------------------ the whole round

  lemma StandsStill(g: Setting, st: FState, own: FState, back: bool)
    ensures GoesOn(g, st, st, own, back, false, false)
  {
    hide Follows, Ahead;
  }

  lemma StoppedGoesOn(h: Host, q: Request, g: Setting, k: Work, i: nat, m: Json)
    requires k.stopped
    ensures !StraysHere(h, q, k, g.identity, m) && !RefusedHere(h, q, k, i, g.identity, m)
  {
    hide SendFault, RowOf, Sealed, MessageLine, Shaped, MessageKind;
  }

  /** A refused message, by one line. */
  lemma RefusedGoesOn(h: Host, q: Request, g: Setting, k: Work, i: nat, m: Json, own: FState, back: bool)
    requires Settled(own) && !k.stopped && (!Shaped(m) || LacksSignature(q, m))
    ensures GoesOn(g, Fold(g, Entries(k.file)), Fold(g, Entries(MessageStep(h, q, k, i, m).file)), own, back,
                   StraysHere(h, q, k, g.identity, m), RefusedHere(h, q, k, i, g.identity, m))
  {
    var l := if Shaped(m) then MessageLine(h, m, "rejected", "unsigned-pinned") else MalformedLine(h, m);
    RefusedLine(h, g, m);
    hide Write, SendFault, RowOf, Entries, Sealed, NoteOf, TailOf, Follows, Settled, GoesOn, AddressedTo, MessageKind, Fold,
      Ahead, MessageLine, MalformedLine, StrayLine, RefusalLine, Bare, Shaped;
    BareEffect(h, q, g, k.(rejected := k.rejected + [i]), l, own, back);
  }

  lemma RefusedLine(h: Host, g: Setting, m: Json)
    ensures var l := if Shaped(m) then MessageLine(h, m, "rejected", "unsigned-pinned") else MalformedLine(h, m);
            && Bare(l) && !StrayLine(l, g.identity)
            && (RefusalLine(l, g.identity) <==> AddressedTo(m, g.identity) && MessageKind(h, m) == "ack")
    ensures AddressedTo(m, g.identity) ==> Shaped(m)
  {
  }

  lemma TakenLines(h: Host, g: Setting, m: Json)
    requires Shaped(m)
    ensures var taken, failed := MessageLine(h, m, "accepted", ""), MessageLine(h, m, "rejected", "send_failed");
            && Bare(taken) && Bare(failed)
            && (StrayLine(taken, g.identity)
                <==> AddressedTo(m, g.identity) && (MessageKind(h, m) == "ack" || MessageKind(h, m) == "pickup"))
            && !RefusalLine(taken, g.identity) && !StrayLine(failed, g.identity)
            && (RefusalLine(failed, g.identity) <==> AddressedTo(m, g.identity) && MessageKind(h, m) == "ack")
  {
  }

  /** A message taken over, and perhaps refused by the bus. */
  lemma TakenGoesOn(h: Host, q: Request, g: Setting, k: Work, i: nat, m: Json, own: FState, back: bool)
    requires Settled(own) && !k.stopped && Shaped(m) && !LacksSignature(q, m)
    ensures GoesOn(g, Fold(g, Entries(k.file)), Fold(g, Entries(MessageStep(h, q, k, i, m).file)), own, back,
                   StraysHere(h, q, k, g.identity, m), RefusedHere(h, q, k, i, g.identity, m))
  {
    var taken, failed := MessageLine(h, m, "accepted", ""), MessageLine(h, m, "rejected", "send_failed");
    TakenLines(h, g, m);
    hide Write, SendFault, RowOf, Entries, Sealed, NoteOf, TailOf, Follows, Settled, GoesOn, AddressedTo, MessageKind, Fold,
      Ahead, MessageLine, StrayLine, RefusalLine, Bare, Shaped;
    var k1 := Write(h, q, k, taken);
    var k1r := k1.(rejected := k1.rejected + [i]);
    var st, d1, d2 := Fold(g, Entries(k.file)), Fold(g, Entries(k1.file)), Fold(g, Entries(Write(h, q, k1r, failed).file));
    BareEffect(h, q, g, k, taken, own, back);
    if !k1.stopped && (InsertFails(q, i, m) || Send(h.w, k1.bus, RowOf(h, q, i, m)).1.Err?) {
      BareEffect(h, q, g, k1r, failed, own, back);
      GoesOnTwice(g, st, d1, d2, own, back, Noted(h, q, k, taken) && StrayLine(taken, g.identity), false,
                  false, Noted(h, q, k1r, failed) && RefusalLine(failed, g.identity));
    }
  }

  lemma MessageGoesOn(h: Host, q: Request, g: Setting, k: Work, i: nat, m: Json, own: FState, back: bool)
    requires Settled(own)
    ensures GoesOn(g, Fold(g, Entries(k.file)), Fold(g, Entries(MessageStep(h, q, k, i, m).file)), own, back,
                   StraysHere(h, q, k, g.identity, m), RefusedHere(h, q, k, i, g.identity, m))
  {
    hide MessageStep, Entries, Follows, Settled, GoesOn, Shaped, Fold, StraysHere, RefusedHere, LacksSignature;
    if k.stopped {
      StoppedMessage(h, q, k, i, m);
      StoppedGoesOn(h, q, g, k, i, m);
      StandsStill(g, Fold(g, Entries(k.file)), own, back);
    } else if !Shaped(m) || LacksSignature(q, m) {
      RefusedGoesOn(h, q, g, k, i, m, own, back);
    } else {
      TakenGoesOn(h, q, g, k, i, m, own, back);
    }
  }

  lemma {:induction false} MessagesGoOn(h: Host, q: Request, g: Setting, bus: Bus, file: seq<Record>, n: nat, own: FState,
                                        back: bool)
    requires n <= |q.messages| && Settled(own)
    ensures GoesOn(g, Fold(g, Entries(Upto(h, q, bus, file, 0).file)), Fold(g, Entries(Upto(h, q, bus, file, n).file)), own,
                   back, Strays(h, q, bus, file, g.identity, n), Refuses(h, q, bus, file, g.identity, n))
  {
    hide MessageStep, AckPart, Entries, Follows, Settled, GoesOn, Fold, StraysHere, RefusedHere, Ahead;
    if n == 0 {
      StandsStill(g, Fold(g, Entries(Upto(h, q, bus, file, 0).file)), own, back);
    } else {
      MessagesGoOn(h, q, g, bus, file, n - 1, own, back);
      OneMoreMessage(h, q, g, bus, file, n, own, back);
    }
  }

  lemma OneMoreMessage(h: Host, q: Request, g: Setting, bus: Bus, file: seq<Record>, n: nat, own: FState, back: bool)
    requires 0 < n <= |q.messages| && Settled(own)
    requires GoesOn(g, Fold(g, Entries(Upto(h, q, bus, file, 0).file)), Fold(g, Entries(Upto(h, q, bus, file, n - 1).file)), own,
                    back, Strays(h, q, bus, file, g.identity, n - 1), Refuses(h, q, bus, file, g.identity, n - 1))
    ensures GoesOn(g, Fold(g, Entries(Upto(h, q, bus, file, 0).file)), Fold(g, Entries(Upto(h, q, bus, file, n).file)), own,
                   back, Strays(h, q, bus, file, g.identity, n), Refuses(h, q, bus, file, g.identity, n))
  {
    hide MessageStep, AckPart, Entries, Follows, Settled, GoesOn, Fold, StraysHere, RefusedHere, Ahead;
    var id := g.identity;
    var so := Upto(h, q, bus, file, n - 1);
    UptoNext(h, q, bus, file, n - 1);
    var st0, st1, st2 := Fold(g, Entries(Upto(h, q, bus, file, 0).file)), Fold(g, Entries(so.file)),
                         Fold(g, Entries(Upto(h, q, bus, file, n).file));
    var s1, r1 := Strays(h, q, bus, file, id, n - 1), Refuses(h, q, bus, file, id, n - 1);
    var s2, r2 := StraysAt(h, q, bus, file, id, n - 1), RefusedAt(h, q, bus, file, id, n - 1);
    MoreOfThem(h, q, bus, file, id, n);
    hide Strays, Refuses, StraysAt, RefusedAt, Upto;
    AtIsHere(h, q, bus, file, id, n - 1);
    MessageGoesOn(h, q, g, so, n - 1, q.messages[n - 1], own, back || (r1 && Ahead(own)));
    GoesOnTwice(g, st0, st1, st2, own, back, s1, r1, s2, r2);
  }

  lemma AtIsHere(h: Host, q: Request, bus: Bus, file: seq<Record>, id: string, i: nat)
    requires i < |q.messages|
    ensures StraysAt(h, q, bus, file, id, i) == StraysHere(h, q, Upto(h, q, bus, file, i), id, q.messages[i])
    ensures RefusedAt(h, q, bus, file, id, i) == RefusedHere(h, q, Upto(h, q, bus, file, i), i, id, q.messages[i])
  {
    hide StraysHere, RefusedHere, Upto;
  }

  lemma MoreOfThem(h: Host, q: Request, bus: Bus, file: seq<Record>, id: string, n: nat)
    requires 0 < n <= |q.messages|
    ensures Strays(h, q, bus, file, id, n) == (Strays(h, q, bus, file, id, n - 1) || StraysAt(h, q, bus, file, id, n - 1))
    ensures Refuses(h, q, bus, file, id, n) == (Refuses(h, q, bus, file, id, n - 1) || RefusedAt(h, q, bus, file, id, n - 1))
  {
    hide StraysAt, RefusedAt;
  }

  lemma UptoNext(h: Host, q: Request, bus: Bus, file: seq<Record>, i: nat)
    requires i < |q.messages|
    ensures Upto(h, q, bus, file, i + 1) == MessageStep(h, q, Upto(h, q, bus, file, i), i, q.messages[i])
  {
    hide MessageStep, AckPart;
  }

  /** The other lines of the round go to its own identity. */
  lemma FrameLeavesFold(h: Host, q: Request, g: Setting, f: seq<Record>, n: nat, l: Line)
    requires l.recipient != g.identity
    ensures Fold(g, Entries(RecordStep(h.c, h.pub, h.every, f, NoteOf(q, n, l)).1)) == Fold(g, Entries(f))
  {
    var note := NoteOf(q, n, l);
    RecordEntries(h.c, h.pub, h.every, f, note);
    if Sealed(h.c, TailOf(f), note).Ok? {
      SealedMade(h, q, TailOf(f), n, l);
      hide Sealed, RecordStep, Entries, Fold, SameButAnchors, TailOf, EnvelopeSha, CursorFold.Step;
      var e := Sealed(h.c, TailOf(f), note).value;
      FoldLast(g, Entries(f), e);
      OtherStep(g, Fold(g, Entries(f)), e);
    }
  }

  lemma FrameGoes(h: Host, q: Request, g: Setting, k: Work)
    requires q.identity != g.identity
    ensures Fold(g, Entries(AckPart(h, q, k).file)) == Fold(g, Entries(k.file))
    ensures Fold(g, Entries(RepliesPart(h, q, k).file)) == Fold(g, Entries(k.file))
  {
    var st := Fold(g, Entries(k.file));
    var p := (f: seq<Record>) => Fold(g, Entries(f)) == st;
    var ok := (l: Line) => l.recipient != g.identity;
    forall f: seq<Record>, n: nat, l: Line | p(f) && ok(l)
      ensures p(RecordStep(h.c, h.pub, h.every, f, NoteOf(q, n, l)).1) {
      FrameLeavesFold(h, q, g, f, n, l);
    }
    FrameIsNotMine(h, q, g.identity, ok);
    hide AckPart, RepliesPart, Fold, RecordStep, Entries, FrameAllowed;
    AckPasses(h, q, k, p, ok);
    RepliesPass(h, q, k, p, ok);
  }

  lemma FrameIsNotMine(h: Host, q: Request, id: string, ok: Line -> bool)
    requires q.identity != id && forall l :: ok(l) <==> l.recipient != id
    ensures FrameAllowed(h, q, ok)
  {
    hide AckReason, RoundReason, Exchange.RoundCursor, Hashes;
  }

  /** A whole round of another identity: its strays are flagged, its refusals take back the last ack. */
  lemma TheirRoundGoesOn(h: Host, q: Request, g: Setting, bus: Bus, file: seq<Record>, own: FState, back: bool)
    requires q.identity != g.identity && Settled(own)
    ensures GoesOn(g, Fold(g, Entries(file)), Fold(g, Entries(Round(h, q, bus, file).file)), own, back,
                   Strays(h, q, bus, file, g.identity, |q.messages|), Refuses(h, q, bus, file, g.identity, |q.messages|))
  {
    hide RepliesPart, AckPart, MessageStep, Fold, Entries, GoesOn, Follows, Settled, Strays, Refuses;
    FrameGoes(h, q, g, Work(bus, file, [], 0, false, [], [], [], false));
    MessagesGoOn(h, q, g, bus, file, |q.messages|, own, back);
    FrameGoes(h, q, g, Upto(h, q, bus, file, |q.messages|));
  }

  // --------------------------------------------------------- rounds that run through

  lemma {:induction false} ThroughAt(h: Host, q: Request, k: Work, i: nat, n: nat)
    requires i < n <= |q.messages| && !MessagesPart(h, q, k, n).stopped
    ensures !MessagesPart(h, q, k, i).stopped && !MessagesPart(h, q, k, i + 1).stopped
  {
    hide MessageStep;
    if MessagesPart(h, q, k, n - 1).stopped {
      StoppedMessage(h, q, MessagesPart(h, q, k, n - 1), n - 1, q.messages[n - 1]);
    }
    if i < n - 1 {
      ThroughAt(h, q, k, i, n - 1);
    }
  }

  lemma NotStoppedIsNoted(h: Host, q: Request, k: Work, l: Line)
    ensures !Write(h, q, k, l).stopped ==> Noted(h, q, k, l)
  {
    RecordOk(h.c, h.pub, h.every, k.file, NoteOf(q, k.notes, l));
    hide RecordStep, Sealed, TailOf;
  }

  /**
    Where the messages all get through, what counts is what they say. One to the identity,
    of kind `ack` or `pickup`, strays unless it lacks a signature; one of kind `ack` is
    refused if it lacks a signature or if the bus does not take it.
  */
  lemma ThroughStraysExactly(h: Host, q: Request, bus: Bus, file: seq<Record>, id: string, i: nat)
    requires i < |q.messages| && !Upto(h, q, bus, file, |q.messages|).stopped
    ensures var m := q.messages[i];
            StraysAt(h, q, bus, file, id, i)
            <==> AddressedTo(m, id) && (MessageKind(h, m) == "ack" || MessageKind(h, m) == "pickup") && !LacksSignature(q, m)
    ensures var m := q.messages[i];
            RefusedAt(h, q, bus, file, id, i)
            <==> && AddressedTo(m, id) && MessageKind(h, m) == "ack"
                 && (LacksSignature(q, m) || InsertFails(q, i, m) || SendFault(h.w, RowOf(h, q, i, m)).Some?)
  {
    hide AckPart, SendFault, RowOf, MessageLine, MessageKind, LacksSignature, InsertFails;
    var k, m := Upto(h, q, bus, file, i), q.messages[i];
    ThroughAt(h, q, AckPart(h, q, Work(bus, file, [], 0, false, [], [], [], false)), i, |q.messages|);
    hide MessagesPart;
    var taken, failed := MessageLine(h, m, "accepted", ""), MessageLine(h, m, "rejected", "send_failed");
    var k1 := Write(h, q, k, taken);
    NotStoppedIsNoted(h, q, k, taken);
    NotStoppedIsNoted(h, q, k.(rejected := k.rejected + [i]), MessageLine(h, m, "rejected", "unsigned-pinned"));
    NotStoppedIsNoted(h, q, k1.(rejected := k1.rejected + [i]), failed);
    StoppedStays(h, q, k1.(rejected := k1.rejected + [i]), failed);
    hide Write, Sealed, NoteOf, TailOf;
    UptoNext(h, q, bus, file, i);
  }
}
