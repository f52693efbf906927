/**
  The cursor fold of `reconcile` (bus_notary.py) over a log in which other identities
  can place acks and pickups under one's name: how far the fold over all entries
  follows the fold over one's own.
*/
module OwnEntries {
  import opened Wrappers
  import opened CanonicalJson
  import opened NotaryLog
  import opened Reasons
  import opened CursorFold

  /** The fold as if only the identity's own entries were there. */
  function OwnFold(g: Setting, es: seq<Entry>): FState {
    if es == [] then Fresh(g.start)
    else
      var so, e := OwnFold(g, es[..|es| - 1]), es[|es| - 1];
      if e.sender == g.identity then Step(g, so, e) else so
  }

  /** Nothing but cursor moves without a round entry since the ack before. */
  predicate OnlyLeaps(items: seq<Item>) { forall i | 0 <= i < |items| :: items[i].kind == MovedWithoutRound }

  /** No finding so far but leaps of the cursor, and every round counted out. */
  predicate Settled(st: FState) {
    && st.disc == [] && OnlyLeaps(st.unresolved) && (st.roundOpen <==> st.round.Some?)
    && (st.round.Some? ==>
          st.round.value.delivered == st.round.value.replies && !st.round.value.unknown && !st.round.value.zeroConflict)
  }

  /** The rounds not yet acknowledged, the open one included. */
  function Merged(st: FState): Option<Rounds> {
    match st.round
    case None => st.last
    case Some(r) => Some(Merge(st.last, r))
  }

  lemma CloseSettled(g: Setting, st: FState)
    requires Settled(st)
    ensures CloseRound(g, st) == st.(last := Merged(st))
  {
  }

  predicate HasKind(items: seq<Item>, k: Kind) { exists i :: 0 <= i < |items| && items[i].kind == k }

  lemma KindStays(items: seq<Item>, more: seq<Item>, k: Kind)
    requires HasKind(items, k) && items <= more
    ensures HasKind(more, k)
  {
    var i :| 0 <= i < |items| && items[i].kind == k;
    assert more[i].kind == k;
  }

  /** An accusation stays. */
  lemma CloseGrows(g: Setting, st: FState)
    ensures st.disc <= CloseRound(g, st).disc
  {
  }

  lemma NoteGrows(items: seq<Item>, bad: bool, k: Kind, at: SeqVal)
    ensures items <= Note1(items, bad, k, at)
    ensures bad ==> HasKind(Note1(items, bad, k, at), k)
  {
    assert bad ==> Note1(items, bad, k, at)[|items|].kind == k;
  }

  lemma AckGrows(st: FState, e: Entry, n: (nat, nat, nat))
    ensures st.disc <= AckDisc(st, e, n.0, n.1, n.2)
    ensures n.0 != st.expected ==> HasKind(AckDisc(st, e, n.0, n.1, n.2), MovedWithoutAck)
  {
    var (f, t, u) := n;
    var parsed := ParseAck(e.reason);
    var bad := CursorOf(e) != Null && parsed.Some? && parsed != Some((f, t, u));
    var d1 := Note1(st.disc, bad, ReasonMismatch, e.seqNo);
    var d2 := Note1(d1, t > (if f > u then f else u), TargetExceedsAck, e.seqNo);
    var d3 := Note1(d2, f != st.expected, MovedWithoutAck, e.seqNo);
    var d4 := Note1(d3, Skips(st.last, f, t), SkipsUndelivered, e.seqNo);
    hide ParseAck, Skips, HasKind;
    NoteGrows(st.disc, bad, ReasonMismatch, e.seqNo);
    NoteGrows(d1, t > (if f > u then f else u), TargetExceedsAck, e.seqNo);
    NoteGrows(d2, f != st.expected, MovedWithoutAck, e.seqNo);
    NoteGrows(d3, Skips(st.last, f, t), SkipsUndelivered, e.seqNo);
    assert d4 == AckDisc(st, e, f, t, u);
    hide Note1, AckDisc;
    if f != st.expected {
      KindStays(d3, d4, MovedWithoutAck);
    }
  }

  lemma RoundGrows(g: Setting, st: FState, e: Entry)
    ensures st.disc <= RoundStep(g, st, e).disc
    ensures RoundNumbers(e).Some? && RoundNumbers(e).value.0 != st.expected ==>
              HasKind(RoundStep(g, st, e).disc, MovedWithoutAck)
  {
    CloseGrows(g, st);
    hide CloseRound, RoundNumbers, ParseRound, StructuredRound, Opened;
    var d := RoundStep(g, st, e).disc;
    assert RoundNumbers(e).Some? && RoundNumbers(e).value.0 != st.expected && CloseRound(g, st).expected == st.expected ==>
        d[|d| - 1].kind == MovedWithoutAck;
    CloseKeeps(g, st);
  }

  lemma CloseKeeps(g: Setting, st: FState)
    ensures CloseRound(g, st).expected == st.expected && CloseRound(g, st).ackFrom == st.ackFrom
    ensures CloseRound(g, st).acks == st.acks && CloseRound(g, st).anyRound == st.anyRound
  {
  }

  lemma AckStepGrows(g: Setting, st: FState, e: Entry)
    ensures st.disc <= AckStep(g, st, e).disc
  {
    CloseGrows(g, st);
    if AckNumbers(e).Some? {
      AckGrows(CloseRound(g, st).(roundOpen := false, round := None), e, AckNumbers(e).value);
    }
    hide CloseRound, AckNumbers, AckDisc, AckUnresolved, HasKind;
  }

  lemma RejectedGrows(g: Setting, st: FState)
    ensures st.disc <= RejectedStep(g, st).disc
  {
    CloseGrows(g, if st.ackFrom.Some? then st.(expected := st.ackFrom.value, ackFrom := None) else st);
    hide CloseRound;
  }

  lemma DeliveryGrows(g: Setting, st: FState, e: Entry)
    ensures st.disc <= DeliveryStep(g, st, e).disc
  {
    hide NatAt;
  }

  lemma DiscGrows(g: Setting, st: FState, e: Entry)
    ensures st.disc <= Step(g, st, e).disc
  {
    AckStepGrows(g, st, e);
    RejectedGrows(g, st);
    RoundGrows(g, st, e);
    DeliveryGrows(g, st, e);
    hide AckStep, RejectedStep, RoundStep, DeliveryStep, HasKind, RoundNumbers;
  }

  // ----------------------------------------------------- following one's own fold

  /** A finding other than a leap, or more deliveries than the open round announced. */
  predicate Marred(st: FState) {
    st.disc != [] || !OnlyLeaps(st.unresolved) || (st.round.Some? && st.round.value.delivered > st.round.value.replies)
  }

  /** `more` gains over `some` what `now` gains over `was`. */
  predicate SameGain(was: seq<Item>, now: seq<Item>, some: seq<Item>, more: seq<Item>) {
    was <= now && more == some + now[|was|..]
  }

  /** The last ack moved the cursor. */
  predicate Ahead(st: FState) { st.ackFrom.Some? && st.ackFrom.value != st.expected }

  /**
    The whole fold agrees with the own one, but that another's entry may have closed a
    counted round early, and that a refusal may have taken the last ack back.
  */
  predicate Follows(st: FState, own: FState, back: bool) {
    && st.acks == own.acks && st.anyRound == own.anyRound
    && (st.roundOpen <==> st.round.Some?) && (own.roundOpen <==> own.round.Some?)
    && (st.round.Some? ==> st.round == own.round && st.last == own.last)
    && (st.round.None? ==> st.last == Merged(own))
    && (st.round.None? && own.round.Some? ==> own.round.value.delivered >= own.round.value.replies)
    && (back ==> Ahead(own) && st.ackFrom.None? && st.expected == own.ackFrom.value)
    && (!back ==> st.expected == own.expected && (st.ackFrom.Some? || Ahead(own) ==> st.ackFrom == own.ackFrom))
  }

  lemma CloseFollows(g: Setting, st: FState, own: FState, back: bool)
    requires Follows(st, own, back) && Settled(own)
    ensures CloseRound(g, st) == st.(last := Merged(own))
  {
  }

  predicate Unreadable(e: Entry) { (IsAck(e) && AckNumbers(e).None?) || (IsRound(e) && RoundNumbers(e).None?) }

  /** An ack or round without numbers, whoever wrote it, is flagged, and only that. */
  lemma UnreadableStep(g: Setting, st: FState, own: FState, back: bool, e: Entry)
    requires Follows(st, own, back) && Settled(own) && e.recipient == g.identity && Unreadable(e)
    ensures Follows(Step(g, st, e), own, back)
    ensures Step(g, st, e).disc == st.disc + (if g.strict then [Item(UnparsableCursor, e.seqNo)] else [])
    ensures Step(g, st, e).unresolved == st.unresolved + (if g.strict then [] else [Item(UnparsableCursor, e.seqNo)])
  {
    CloseFollows(g, st, own, back);
    hide CloseRound, AckNumbers, RoundNumbers;
  }

  /** A refused ack takes the last ack back, and no other. */
  lemma RefusalStep(g: Setting, st: FState, own: FState, back: bool, e: Entry)
    requires Follows(st, own, back) && Settled(own) && e.recipient == g.identity && IsAckRejected(e)
    ensures Follows(Step(g, st, e), own, back || Ahead(own))
    ensures Step(g, st, e).disc == st.disc && Step(g, st, e).unresolved == st.unresolved
  {
    var st1 := if st.ackFrom.Some? then st.(expected := st.ackFrom.value, ackFrom := None) else st;
    assert CloseRound(g, st1) == st1.(last := Merged(own));
    hide CloseRound;
  }

  lemma OtherStep(g: Setting, st: FState, e: Entry)
    requires e.recipient != g.identity || !(IsAck(e) || IsAckRejected(e) || IsRound(e) || IsDelivery(e))
    ensures Step(g, st, e) == st
  {
  }

  // ------------------------------------------------------------- one's own entries

  /** The identity's entry, and no refused ack. */
  predicate OwnEntry(g: Setting, e: Entry) { e.sender == g.identity && !(e.recipient == g.identity && IsAckRejected(e)) }

  lemma MoreThanLeaps(items: seq<Item>, more: seq<Item>)
    requires !OnlyLeaps(items) && items <= more
    ensures !OnlyLeaps(more)
  {
    var i :| 0 <= i < |items| && items[i].kind != MovedWithoutRound;
    assert more[i].kind != MovedWithoutRound;
  }

  lemma FlagMars(g: Setting, st: FState, kind: Kind, at: SeqVal)
    requires kind != MovedWithoutRound
    ensures var d := Flag(g, st, true, kind, at); d.disc != [] || !OnlyLeaps(d.unresolved)
  {
    assert !g.strict ==> Flag(g, st, true, kind, at).unresolved[|st.unresolved|].kind != MovedWithoutRound;
  }

  /** A round that closes without a finding was counted out. */
  lemma CloseClean(g: Setting, own: FState)
    requires !g.presumed && CloseRound(g, own).disc == [] && OnlyLeaps(CloseRound(g, own).unresolved)
    ensures own.disc == [] && CloseRound(g, own) == own.(last := Merged(own))
    ensures own.round.Some? ==> own.round.value.delivered == own.round.value.replies && !own.round.value.zeroConflict
  {
    if own.round.Some? && own.round.value.delivered != own.round.value.replies {
      FlagMars(g, own, RepliesMismatch, own.round.value.at);
    }
    hide OnlyLeaps, Merge;
  }

  /** An ack that mars nothing comes after a counted round. */
  lemma AckClosesClean(g: Setting, own: FState, e: Entry)
    requires IsAck(e) && !Marred(AckStep(g, own, e)) && !g.presumed
    ensures AckNumbers(e).Some? && CloseRound(g, own).disc == [] && OnlyLeaps(CloseRound(g, own).unresolved)
  {
    var st := CloseRound(g, own).(roundOpen := false, round := None);
    if AckNumbers(e).None? {
      FlagMars(g, st, UnparsableCursor, e.seqNo);
    } else {
      AckGrows(st, e, AckNumbers(e).value);
      var n := AckNumbers(e).value;
      assert st.unresolved <= AckUnresolved(st, e, n.0, n.1);
      if !OnlyLeaps(st.unresolved) {
        MoreThanLeaps(st.unresolved, AckUnresolved(st, e, n.0, n.1));
      }
    }
    hide CloseRound, AckNumbers, AckDisc, AckUnresolved, OnlyLeaps, HasKind;
  }

  lemma UnknownMars(st: FState, e: Entry, f: nat, t: nat)
    requires st.last.Some? && st.last.value.unknown && t > f
    ensures !OnlyLeaps(AckUnresolved(st, e, f, t))
  {
    assert AckUnresolved(st, e, f, t)[|st.unresolved|].kind == PendingUnknown;
  }

  lemma AckMars(g: Setting, own: FState, e: Entry)
    requires e.recipient == g.identity && IsAck(e) && !Marred(Step(g, own, e)) && !g.presumed
    ensures AckNumbers(e).Some? && AckNumbers(e).value.0 == own.expected
    ensures own.round.Some? ==> own.round.value.delivered == own.round.value.replies && !own.round.value.zeroConflict
    ensures var n := AckNumbers(e).value; var d := Step(g, own, e);
            && d.acks == own.acks + [n.2] && d.expected == n.1 && d.ackFrom == Some(n.0) && d.last == None && !d.anyRound
            && d.round == None && !d.roundOpen && d.unresolved == own.unresolved + LeapOf(own, e, n)
    ensures var n := AckNumbers(e).value; AckDisc(own.(disc := [], last := Merged(own)), e, n.0, n.1, n.2) == []
    ensures var n := AckNumbers(e).value;
            AckUnresolved(own.(unresolved := [], last := Merged(own)), e, n.0, n.1) == LeapOf(own, e, n)
  {
    assert Step(g, own, e) == AckStep(g, own, e);
    AckClosesClean(g, own, e);
    CloseClean(g, own);
    var n, st := AckNumbers(e).value, own.(last := Merged(own), roundOpen := false, round := None);
    hide AckNumbers, ParseAck, Skips, CloseRound, Merged;
    if st.last.Some? && st.last.value.unknown && n.1 > n.0 {
      UnknownMars(st, e, n.0, n.1);
    }
  }

  /** What an ack adds where no round entry came since the last one. */
  function LeapOf(st: FState, e: Entry, n: (nat, nat, nat)): seq<Item> {
    if !st.anyRound && n.1 > n.0 then [Item(MovedWithoutRound, e.seqNo)] else []
  }

  lemma AckFollows(g: Setting, st: FState, own: FState, e: Entry)
    requires Follows(st, own, false) && !g.presumed
    requires e.recipient == g.identity && IsAck(e) && !Marred(Step(g, own, e))
    ensures var d := Step(g, st, e);
            && Follows(d, Step(g, own, e), false) && d.disc == st.disc
            && SameGain(own.unresolved, Step(g, own, e).unresolved, st.unresolved, d.unresolved)
  {
    AckMars(g, own, e);
    var n, st1 := AckNumbers(e).value, CloseRound(g, st);
    assert st1 == st.(last := Merged(own));
    hide AckNumbers, ParseAck, Skips, CloseRound;
    AckSame(g, st1.(roundOpen := false, round := None), own, e, n);
  }

  /** What an ack adds depends on where the cursor is expected and on the rounds before it. */
  lemma AckSame(g: Setting, st: FState, own: FState, e: Entry, n: (nat, nat, nat))
    requires st.expected == own.expected && st.last == Merged(own) && st.anyRound == own.anyRound
    requires AckDisc(own.(disc := [], last := Merged(own)), e, n.0, n.1, n.2) == []
    requires AckUnresolved(own.(unresolved := [], last := Merged(own)), e, n.0, n.1) == LeapOf(own, e, n)
    ensures AckDisc(st, e, n.0, n.1, n.2) == st.disc
    ensures AckUnresolved(st, e, n.0, n.1) == st.unresolved + LeapOf(own, e, n)
  {
    hide ParseAck, Skips, Merged;
  }

  lemma RoundClosesClean(g: Setting, own: FState, e: Entry)
    requires IsRound(e) && !Marred(RoundStep(g, own, e)) && !g.presumed
    ensures RoundNumbers(e).Some? && CloseRound(g, own).disc == [] && OnlyLeaps(CloseRound(g, own).unresolved)
  {
    var st := CloseRound(g, own);
    if RoundNumbers(e).None? {
      FlagMars(g, st, UnparsableCursor, e.seqNo);
    }
    hide CloseRound, RoundNumbers, ParseRound, StructuredRound, Opened, OnlyLeaps;
  }

  lemma RoundMars(g: Setting, own: FState, e: Entry)
    requires e.recipient == g.identity && IsRound(e) && !Marred(Step(g, own, e)) && !g.presumed
    ensures RoundNumbers(e).Some? && RoundNumbers(e).value.0 == own.expected
    ensures StructuredRound(CursorOf(e)).Some? && ParseRound(e.reason).Some? ==> ParseRound(e.reason) == RoundNumbers(e)
    ensures own.round.Some? ==> own.round.value.delivered == own.round.value.replies && !own.round.value.zeroConflict
    ensures Step(g, own, e) == own.(last := Merged(own), roundOpen := true, anyRound := true,
                                    round := Some(Opened(e, RoundNumbers(e).value.1)))
  {
    assert Step(g, own, e) == RoundStep(g, own, e);
    RoundClosesClean(g, own, e);
    CloseClean(g, own);
    hide RoundNumbers, ParseRound, StructuredRound, Opened, CloseRound, Merged, OnlyLeaps;
  }

  lemma RoundFollows(g: Setting, st: FState, own: FState, e: Entry)
    requires Follows(st, own, false) && !g.presumed
    requires e.recipient == g.identity && IsRound(e) && !Marred(Step(g, own, e))
    ensures var d := Step(g, st, e);
            && Follows(d, Step(g, own, e), false) && d.disc == st.disc
            && SameGain(own.unresolved, Step(g, own, e).unresolved, st.unresolved, d.unresolved)
  {
    RoundMars(g, own, e);
    assert CloseRound(g, st) == st.(last := Merged(own));
    hide RoundNumbers, ParseRound, StructuredRound, Opened, CloseRound;
  }

  lemma DeliveryFollows(g: Setting, st: FState, own: FState, e: Entry)
    requires Follows(st, own, false)
    requires e.recipient == g.identity && IsDelivery(e) && !Marred(Step(g, own, e))
    ensures var d := Step(g, st, e);
            && Follows(d, Step(g, own, e), false) && d.disc == st.disc
            && SameGain(own.unresolved, Step(g, own, e).unresolved, st.unresolved, d.unresolved)
  {
    hide NatAt;
  }

  /** While one's own fold finds nothing, the whole fold goes with it. */
  lemma OwnStepFollows(g: Setting, st: FState, own: FState, e: Entry)
    requires Follows(st, own, false) && !g.presumed && OwnEntry(g, e) && !Marred(Step(g, own, e))
    ensures var d := Step(g, st, e);
            && Follows(d, Step(g, own, e), false) && d.disc == st.disc
            && SameGain(own.unresolved, Step(g, own, e).unresolved, st.unresolved, d.unresolved)
  {
    hide Follows, Marred, AckStep, RejectedStep, RoundStep, DeliveryStep;
    if e.recipient == g.identity && IsAck(e) {
      AckFollows(g, st, own, e);
    } else if e.recipient == g.identity && IsRound(e) {
      RoundFollows(g, st, own, e);
    } else if e.recipient == g.identity && IsDelivery(e) {
      DeliveryFollows(g, st, own, e);
    }
  }

  /** Where the last ack was taken back, the next one does not fit. */
  lemma BackStep(g: Setting, st: FState, own: FState, e: Entry)
    requires st.expected != own.expected && !g.presumed && OwnEntry(g, e) && !Marred(Step(g, own, e))
    ensures HasKind(Step(g, st, e).disc, MovedWithoutAck)
         || (Step(g, st, e).expected != Step(g, own, e).expected && Step(g, own, e).acks == own.acks)
  {
    if e.recipient == g.identity && IsAck(e) {
      AckMars(g, own, e);
      CloseKeeps(g, st);
      AckGrows(CloseRound(g, st).(roundOpen := false, round := None), e, AckNumbers(e).value);
      hide CloseRound, AckNumbers, AckDisc, AckUnresolved, HasKind;
    } else if e.recipient == g.identity && IsRound(e) {
      RoundMars(g, own, e);
      RoundGrows(g, st, e);
      hide CloseRound, RoundNumbers, RoundStep, HasKind;
    } else {
      hide CloseRound, AckNumbers, RoundNumbers, NatAt, HasKind;
    }
  }

  /** How one's own fold stands after some more acks. */
  predicate Onward(was: FState, own: FState) {
    || (own.acks == was.acks && own.expected == was.expected && own.ackFrom == was.ackFrom)
    || (|own.acks| == |was.acks| + 1 && own.ackFrom == Some(was.expected))
    || |own.acks| >= |was.acks| + 2
  }

  lemma OnwardStep(g: Setting, was: FState, own: FState, e: Entry)
    requires Onward(was, own) && !g.presumed && OwnEntry(g, e) && was.expected >= 0 && !Marred(Step(g, own, e))
    ensures Onward(was, Step(g, own, e))
  {
    if e.recipient == g.identity && IsAck(e) {
      AckMars(g, own, e);
      hide CloseRound, AckNumbers, AckDisc, AckUnresolved, AckStep;
    } else if e.recipient == g.identity && IsRound(e) {
      RoundMars(g, own, e);
      hide CloseRound, RoundNumbers, RoundStep;
    } else {
      hide CloseRound, AckNumbers, RoundNumbers, NatAt;
    }
  }

  lemma CloseMars(g: Setting, own: FState)
    requires Marred(own) && !g.presumed
    ensures var d := CloseRound(g, own); own.unresolved <= d.unresolved && (d.disc != [] || !OnlyLeaps(d.unresolved))
  {
    var d := CloseRound(g, own);
    assert own.unresolved <= d.unresolved;
    if !OnlyLeaps(own.unresolved) {
      MoreThanLeaps(own.unresolved, d.unresolved);
    } else if own.disc == [] && d.disc == [] {
      assert d.unresolved[|own.unresolved|].kind == RepliesMismatch;
    }
    hide Merge;
  }

  lemma AckStaysMarred(g: Setting, own: FState, e: Entry)
    requires Marred(own) && !g.presumed && IsAck(e)
    ensures Marred(AckStep(g, own, e))
  {
    CloseMars(g, own);
    if !Marred(AckStep(g, own, e)) {
      AckClosesClean(g, own, e);
    }
    hide CloseRound, AckStep;
  }

  lemma RoundStaysMarred(g: Setting, own: FState, e: Entry)
    requires Marred(own) && !g.presumed && IsRound(e)
    ensures Marred(RoundStep(g, own, e))
  {
    CloseMars(g, own);
    if !Marred(RoundStep(g, own, e)) {
      RoundClosesClean(g, own, e);
    }
    hide CloseRound, RoundStep;
  }

  lemma RejectedStaysMarred(g: Setting, own: FState)
    requires Marred(own) && !g.presumed
    ensures Marred(RejectedStep(g, own))
  {
    CloseMars(g, if own.ackFrom.Some? then own.(expected := own.ackFrom.value, ackFrom := None) else own);
    hide CloseRound, OnlyLeaps;
  }

  lemma DeliveryStaysMarred(g: Setting, own: FState, e: Entry)
    requires Marred(own)
    ensures Marred(DeliveryStep(g, own, e))
  {
    FlagMars(g, own, DeliveredWithoutRound, e.seqNo);
    hide NatAt, OnlyLeaps;
  }

  lemma MarredStays(g: Setting, own: FState, e: Entry)
    requires Marred(own) && !g.presumed
    ensures Marred(Step(g, own, e))
  {
    if IsAck(e) {
      AckStaysMarred(g, own, e);
    } else if IsRound(e) {
      RoundStaysMarred(g, own, e);
    }
    RejectedStaysMarred(g, own);
    DeliveryStaysMarred(g, own, e);
    hide AckStep, RoundStep, RejectedStep, DeliveryStep, Marred;
  }

  // ---------------------------------------------------------------- a run of entries

  lemma {:induction false} UnmarredBefore(g: Setting, es: seq<Entry>, n: nat)
    requires n <= |es| && !Marred(OwnFold(g, es)) && !g.presumed
    ensures !Marred(OwnFold(g, es[..n]))
  {
    hide Marred, Step;
    if n < |es| {
      var init := es[..|es| - 1];
      if Marred(OwnFold(g, init)) {
        MarredStays(g, OwnFold(g, init), es[|es| - 1]);
      }
      UnmarredBefore(g, init, n);
      assert init[..n] == es[..n];
    } else {
      assert es[..n] == es;
    }
  }

  lemma FoldSteps(g: Setting, es: seq<Entry>, n: nat)
    requires n < |es|
    ensures Fold(g, es[..n + 1]) == Step(g, Fold(g, es[..n]), es[n])
    ensures OwnFold(g, es[..n + 1]) == if es[n].sender == g.identity then Step(g, OwnFold(g, es[..n]), es[n]) else OwnFold(g, es[..n])
  {
    hide Step;
    assert es[..n + 1][..n] == es[..n];
  }

  /** Only own entries beyond the first m. */
  predicate OwnFrom(g: Setting, es: seq<Entry>, m: nat) { forall i | m <= i < |es| :: OwnEntry(g, es[i]) }

  lemma {:induction false} RunFollows(g: Setting, es: seq<Entry>, m: nat, n: nat)
    requires m <= n <= |es| && OwnFrom(g, es, m) && !g.presumed && !Marred(OwnFold(g, es))
    requires Follows(Fold(g, es[..m]), OwnFold(g, es[..m]), false)
    ensures Follows(Fold(g, es[..n]), OwnFold(g, es[..n]), false)
    ensures Fold(g, es[..n]).disc == Fold(g, es[..m]).disc
    ensures SameGain(OwnFold(g, es[..m]).unresolved, OwnFold(g, es[..n]).unresolved, Fold(g, es[..m]).unresolved,
                     Fold(g, es[..n]).unresolved)
  {
    hide Follows, Marred, Step, OwnEntry;
    if n > m {
      RunFollows(g, es, m, n - 1);
      FoldSteps(g, es, n - 1);
      UnmarredBefore(g, es, n);
      OwnEntrySender(g, es[n - 1]);
      OwnStepFollows(g, Fold(g, es[..n - 1]), OwnFold(g, es[..n - 1]), es[n - 1]);
    }
  }

  lemma OwnEntrySender(g: Setting, e: Entry)
    requires OwnEntry(g, e)
    ensures e.sender == g.identity
  {
  }

  lemma {:induction false} RunOnward(g: Setting, es: seq<Entry>, m: nat, n: nat)
    requires m <= n <= |es| && OwnFrom(g, es, m) && !g.presumed && !Marred(OwnFold(g, es))
    requires OwnFold(g, es[..m]).expected >= 0
    ensures Onward(OwnFold(g, es[..m]), OwnFold(g, es[..n]))
  {
    hide Marred, Step, OwnEntry, Onward;
    if n > m {
      RunOnward(g, es, m, n - 1);
      FoldSteps(g, es, n - 1);
      UnmarredBefore(g, es, n);
      OwnEntrySender(g, es[n - 1]);
      OnwardStep(g, OwnFold(g, es[..m]), OwnFold(g, es[..n - 1]), es[n - 1]);
    } else {
      SameIsOnward(OwnFold(g, es[..m]));
    }
  }

  lemma SameIsOnward(own: FState)
    ensures Onward(own, own)
  {
  }

  /** Once the last ack was taken back, the next own ack is accused. */
  lemma {:induction false} RunBack(g: Setting, es: seq<Entry>, m: nat, n: nat)
    requires m <= n <= |es| && OwnFrom(g, es, m) && !g.presumed && !Marred(OwnFold(g, es))
    requires Fold(g, es[..m]).expected != OwnFold(g, es[..m]).expected
    ensures HasKind(Fold(g, es[..n]).disc, MovedWithoutAck)
         || (Fold(g, es[..n]).expected != OwnFold(g, es[..n]).expected && OwnFold(g, es[..n]).acks == OwnFold(g, es[..m]).acks)
  {
    hide Marred, Step, OwnEntry, HasKind;
    if n > m {
      RunBack(g, es, m, n - 1);
      FoldSteps(g, es, n - 1);
      UnmarredBefore(g, es, n);
      OwnEntrySender(g, es[n - 1]);
      var st, own, e := Fold(g, es[..n - 1]), OwnFold(g, es[..n - 1]), es[n - 1];
      if HasKind(st.disc, MovedWithoutAck) {
        DiscGrows(g, st, e);
        KindStays(st.disc, Step(g, st, e).disc, MovedWithoutAck);
      } else {
        BackStep(g, st, own, e);
      }
    }
  }

  /** An accusation stays for the rest of the log. */
  lemma {:induction false} RunAccuses(g: Setting, es: seq<Entry>, m: nat, k: Kind)
    requires m <= |es| && HasKind(Fold(g, es[..m]).disc, k)
    ensures HasKind(Fold(g, es).disc, k)
  {
    hide Step, HasKind;
    if m < |es| {
      var init := es[..|es| - 1];
      assert init[..m] == es[..m];
      RunAccuses(g, init, m, k);
      DiscGrows(g, Fold(g, init), es[|es| - 1]);
      KindStays(Fold(g, init).disc, Fold(g, es).disc, k);
    } else {
      assert es[..m] == es;
    }
  }
}
