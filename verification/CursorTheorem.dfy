/**
  What the one-pass cursor fold decides, stated without the fold: the path of
  the cursor, the target of every ack, and the mail no ack may step over.
*/
module CursorTheorem {
  import opened Wrappers
  import opened CanonicalJson
  import opened NotaryLog
  import opened Reasons
  import opened CursorFold

  predicate CursorKind(k: Kind) { k == TargetExceedsAck || k == MovedWithoutAck || k == SkipsUndelivered }

  /** No accusation about the cursor itself. */
  predicate Clean(items: seq<Item>) { forall i | 0 <= i < |items| :: !CursorKind(items[i].kind) }

  predicate Mine(g: Setting, e: Entry) { e.recipient == g.identity }
  predicate MyAck(g: Setting, e: Entry) { Mine(g, e) && IsAck(e) }
  predicate MyRound(g: Setting, e: Entry) { Mine(g, e) && IsRound(e) }

  /** The entry carries its numbers in the structured cursor, and no ack is taken back. */
  predicate Structured(g: Setting, e: Entry) {
    Mine(g, e) ==>
      && !IsAckRejected(e)
      && (IsAck(e) ==> StructuredAck(CursorOf(e)).Some?)
      && (IsRound(e) ==> RoundShape(CursorOf(e)))
  }

  /** A round with all its fields: at least as many pending as delivered, and a truncated one names what is next. */
  predicate RoundShape(c: Json) {
    && NatAt(c, "at").Some? && NatAt(c, "replies").Some? && NatAt(c, "pending").Some? && NatAt(c, "next_id").Some?
    && NatAt(c, "pending").value >= NatAt(c, "replies").value
    && (NatAt(c, "pending").value > NatAt(c, "replies").value ==> NatAt(c, "next_id").value > 0)
  }

  predicate AllRounds(ws: seq<Entry>) { forall i | 0 <= i < |ws| :: RoundShape(CursorOf(ws[i])) }

  predicate AllStructured(g: Setting, es: seq<Entry>) { forall i | 0 <= i < |es| :: Structured(g, es[i]) }

  function Ack(e: Entry): (nat, nat, nat)
    requires StructuredAck(CursorOf(e)).Some?
  {
    StructuredAck(CursorOf(e)).value
  }

  // --------------------------------------------------- the declarative check

  /** Where the cursor stands after the entries: at the target of the last accepted ack. */
  function Cursor(g: Setting, es: seq<Entry>): int
    requires AllStructured(g, es)
  {
    if es == [] then g.start
    else if MyAck(g, es[|es| - 1]) then Ack(es[|es| - 1]).1
    else Cursor(g, es[..|es| - 1])
  }

  /** The rounds since the last accepted ack. */
  function Waiting(g: Setting, es: seq<Entry>): (ws: seq<Entry>)
    requires AllStructured(g, es)
    ensures AllRounds(ws)
  {
    if es == [] || MyAck(g, es[|es| - 1]) then []
    else if MyRound(g, es[|es| - 1]) then Waiting(g, es[..|es| - 1]) + [es[|es| - 1]]
    else Waiting(g, es[..|es| - 1])
  }

  function At(e: Entry): nat
    requires RoundShape(CursorOf(e))
  {
    NatAt(CursorOf(e), "at").value
  }

  function Pending(e: Entry): nat
    requires RoundShape(CursorOf(e))
  {
    NatAt(CursorOf(e), "pending").value
  }

  function Replies(e: Entry): nat
    requires RoundShape(CursorOf(e))
  {
    NatAt(CursorOf(e), "replies").value
  }

  predicate Truncated(e: Entry)
    requires RoundShape(CursorOf(e))
  {
    Pending(e) > Replies(e)
  }

  function NextId(e: Entry): nat
    requires RoundShape(CursorOf(e))
  {
    NatAt(CursorOf(e), "next_id").value
  }

  predicate AnyTruncated(ws: seq<Entry>)
    requires AllRounds(ws)
  {
    exists i :: 0 <= i < |ws| && Truncated(ws[i])
  }

  /** Once a waiting round was truncated, the ack must stay below every next id the waiting rounds name. */
  predicate StaysBelow(ws: seq<Entry>, to: nat)
    requires AllRounds(ws)
  {
    AnyTruncated(ws) ==> forall i | 0 <= i < |ws| && NextId(ws[i]) > 0 :: to < NextId(ws[i])
  }

  /** The last entry continues the path, does not exceed its ack, and steps over nothing. */
  predicate LastFits(g: Setting, es: seq<Entry>)
    requires es != [] && AllStructured(g, es)
  {
    var e, before := es[|es| - 1], es[..|es| - 1];
    && (MyAck(g, e) ==>
          var (from, to, ack) := Ack(e);
          && from == Cursor(g, before)
          && to <= (if from > ack then from else ack)
          && StaysBelow(Waiting(g, before), to))
    && (MyRound(g, e) ==> At(e) == Cursor(g, before))
  }

  predicate Fits(g: Setting, es: seq<Entry>)
    requires AllStructured(g, es)
  {
    forall n | 0 < n <= |es| :: LastFits(g, es[..n])
  }

  // ------------------------------------------------------ what the fold holds

  function Named(e: Entry): Option<nat>
    requires RoundShape(CursorOf(e))
  {
    if NextId(e) > 0 then Some(NextId(e)) else None
  }

  function SumPending(ws: seq<Entry>): nat
    requires AllRounds(ws)
  {
    if ws == [] then 0 else SumPending(ws[..|ws| - 1]) + Pending(ws[|ws| - 1])
  }

  function SumReplies(ws: seq<Entry>): nat
    requires AllRounds(ws)
  {
    if ws == [] then 0 else SumReplies(ws[..|ws| - 1]) + Replies(ws[|ws| - 1])
  }

  function LeastNext(ws: seq<Entry>): Option<nat>
    requires AllRounds(ws)
  {
    if ws == [] then None else MinPositive(LeastNext(ws[..|ws| - 1]), Named(ws[|ws| - 1]))
  }

  predicate Sums(l: Rounds, ws: seq<Entry>)
    requires AllRounds(ws)
  {
    l.pending == SumPending(ws) && l.replies == SumReplies(ws) && l.nextId == LeastNext(ws)
  }

  /** The merged rounds, with the open one joined, are the waiting rounds. */
  predicate Holds(st: FState, ws: seq<Entry>)
    requires AllRounds(ws)
  {
    match st.round
    case None => if ws == [] then st.last == None else st.last.Some? && Sums(st.last.value, ws)
    case Some(r) =>
      && ws != []
      && r.pending == Pending(ws[|ws| - 1])
      && r.replies == Replies(ws[|ws| - 1])
      && r.nextId == Named(ws[|ws| - 1])
      && (if |ws| == 1 then st.last == None else st.last.Some? && Sums(st.last.value, ws[..|ws| - 1]))
  }

  lemma CloseHolds(g: Setting, st: FState, ws: seq<Entry>)
    requires AllRounds(ws)
    requires Holds(st, ws)
    ensures var st1 := CloseRound(g, st);
            && (if ws == [] then st1.last == None else st1.last.Some? && Sums(st1.last.value, ws))
            && st1.expected == st.expected
            && (Clean(st1.disc) <==> Clean(st.disc))
  {
    hide RoundShape;
    CloseDisc(g, st);
    if st.round.Some? {
      var init := ws[..|ws| - 1];
      assert CloseRound(g, st).last == Some(Merge(st.last, st.round.value));
      if |ws| == 1 {
        assert init == [];
        assert SumPending(init) == 0 && SumReplies(init) == 0 && LeastNext(init) == None;
      }
      assert Sums(Merge(st.last, st.round.value), ws);
    }
  }

  lemma CloseDisc(g: Setting, st: FState)
    ensures Clean(CloseRound(g, st).disc) <==> Clean(st.disc)
    ensures CloseRound(g, st).expected == st.expected
  {
    if st.round.Some? {
      CleanAppend(st.disc, Item(RepliesMismatch, st.round.value.at));
      var d := if st.round.value.delivered != st.round.value.replies && !g.presumed && g.strict
               then st.disc + [Item(RepliesMismatch, st.round.value.at)] else st.disc;
      CleanAppend(d, Item(NextIdContradicts, st.round.value.at));
    }
  }

  lemma CleanAppend(items: seq<Item>, x: Item)
    ensures Clean(items + [x]) <==> Clean(items) && !CursorKind(x.kind)
  {
    if Clean(items + [x]) {
      assert (items + [x])[|items|] == x;
      forall i | 0 <= i < |items| ensures !CursorKind(items[i].kind) {
        assert (items + [x])[i] == items[i];
      }
    }
  }

  lemma CleanNote(items: seq<Item>, bad: bool, k: Kind, at: SeqVal)
    ensures Clean(Note1(items, bad, k, at)) <==> Clean(items) && !(bad && CursorKind(k))
  {
    CleanAppend(items, Item(k, at));
  }

  /** The sums are unequal exactly when some waiting round was truncated. */
  lemma {:induction false} SumsTell(ws: seq<Entry>)
    requires AllRounds(ws)
    ensures SumPending(ws) >= SumReplies(ws)
    ensures SumPending(ws) > SumReplies(ws) <==> AnyTruncated(ws)
  {
    if ws != [] {
      var init := ws[..|ws| - 1];
      SumsTell(init);
      if AnyTruncated(init) {
        var i :| 0 <= i < |init| && Truncated(init[i]);
        assert Truncated(ws[i]);
      }
      if AnyTruncated(ws) && !Truncated(ws[|ws| - 1]) {
        var i :| 0 <= i < |ws| && Truncated(ws[i]);
        assert Truncated(init[i]);
      }
    }
  }

  lemma {:induction false} LeastNextBounds(ws: seq<Entry>, to: nat)
    requires AllRounds(ws)
    ensures (LeastNext(ws).None? || to < LeastNext(ws).value)
       <==> forall i | 0 <= i < |ws| && NextId(ws[i]) > 0 :: to < NextId(ws[i])
  {
    hide RoundShape;
    if ws != [] {
      var init := ws[..|ws| - 1];
      LeastNextBounds(init, to);
      assert forall i | 0 <= i < |init| :: ws[i] == init[i];
      assert ws == init + [ws[|ws| - 1]];
    }
  }

  lemma TruncatedNamesNext(ws: seq<Entry>)
    requires AllRounds(ws)
    requires AnyTruncated(ws)
    ensures LeastNext(ws).Some?
  {
    var i :| 0 <= i < |ws| && Truncated(ws[i]);
    LeastNextBounds(ws, NextId(ws[i]));
  }

  /** The fold's skip test on the merged rounds is the declarative one on the rounds themselves. */
  lemma SkipsExactly(last: Option<Rounds>, ws: seq<Entry>, from: nat, to: nat)
    requires AllRounds(ws)
    requires if ws == [] then last == None else last.Some? && Sums(last.value, ws)
    ensures Skips(last, from, to) <==> !StaysBelow(ws, to)
  {
    hide RoundShape;
    if ws != [] {
      SumsTell(ws);
      LeastNextBounds(ws, to);
      if AnyTruncated(ws) {
        TruncatedNamesNext(ws);
      }
    }
  }

  // ------------------------------------------------------- one entry, one step

  lemma FlagClean(g: Setting, st: FState, bad: bool, k: Kind, at: SeqVal)
    requires !CursorKind(k)
    ensures Clean(Flag(g, st, bad, k, at).disc) <==> Clean(st.disc)
    ensures Flag(g, st, bad, k, at).(disc := st.disc, unresolved := st.unresolved) == st
  {
    CleanAppend(st.disc, Item(k, at));
  }

  lemma AckKeeps(g: Setting, st: FState, e: Entry, ws: seq<Entry>)
    requires AllRounds(ws) && Holds(st, ws)
    requires StructuredAck(CursorOf(e)).Some?
    ensures Holds(AckStep(g, st, e), [])
    ensures AckStep(g, st, e).expected == Ack(e).1
    ensures Clean(AckStep(g, st, e).disc)
       <==> && Clean(st.disc)
            && Ack(e).0 == st.expected
            && Ack(e).1 <= (if Ack(e).0 > Ack(e).2 then Ack(e).0 else Ack(e).2)
            && StaysBelow(ws, Ack(e).1)
  {
    var (f, t, u) := Ack(e);
    assert AckNumbers(e) == Some((f, t, u));
    var st1 := CloseRound(g, st).(roundOpen := false, round := None);
    CloseHolds(g, st, ws);
    SkipsExactly(st1.last, ws, f, t);
    AckDiscClean(st1, e, f, t, u);
    hide AckDisc, AckUnresolved, CloseRound, StructuredAck, Skips, StaysBelow, AckNumbers, Sums;
    assert AckStep(g, st, e).disc == AckDisc(st1, e, f, t, u);
  }

  lemma AckDiscClean(st: FState, e: Entry, f: nat, t: nat, u: nat)
    ensures Clean(AckDisc(st, e, f, t, u))
       <==> Clean(st.disc) && t <= (if f > u then f else u) && f == st.expected && !Skips(st.last, f, t)
  {
    hide Skips, Clean;
    var parsed := ParseAck(e.reason);
    var bad := CursorOf(e) != Null && parsed.Some? && parsed != Some((f, t, u));
    var d1 := Note1(st.disc, bad, ReasonMismatch, e.seqNo);
    CleanNote(st.disc, bad, ReasonMismatch, e.seqNo);
    var d2 := Note1(d1, t > (if f > u then f else u), TargetExceedsAck, e.seqNo);
    CleanNote(d1, t > (if f > u then f else u), TargetExceedsAck, e.seqNo);
    var d3 := Note1(d2, f != st.expected, MovedWithoutAck, e.seqNo);
    CleanNote(d2, f != st.expected, MovedWithoutAck, e.seqNo);
    CleanNote(d3, Skips(st.last, f, t), SkipsUndelivered, e.seqNo);
  }

  lemma RoundOpens(e: Entry)
    requires RoundShape(CursorOf(e))
    ensures RoundNumbers(e) == Some((At(e), Replies(e)))
    ensures Opened(e, Replies(e)).pending == Pending(e)
    ensures Opened(e, Replies(e)).replies == Replies(e)
    ensures Opened(e, Replies(e)).nextId == Named(e)
  {
  }

  lemma RoundKeeps(g: Setting, st: FState, e: Entry, ws: seq<Entry>)
    requires AllRounds(ws) && Holds(st, ws)
    requires RoundShape(CursorOf(e))
    ensures AllRounds(ws + [e]) && Holds(RoundStep(g, st, e), ws + [e])
    ensures RoundStep(g, st, e).expected == At(e)
    ensures Clean(RoundStep(g, st, e).disc) <==> Clean(st.disc) && At(e) == st.expected
  {
    hide CloseRound, NatAt, Sums, Clean, ParseRound, StructuredRound;
    CloseHolds(g, st, ws);
    RoundOpens(e);
    hide RoundNumbers, Opened, RoundShape;
    assert (ws + [e])[..|ws|] == ws;
    assert forall i | 0 <= i < |ws| :: (ws + [e])[i] == ws[i];
    var st1 := CloseRound(g, st);
    var parsed := ParseRound(e.reason);
    var bad := StructuredRound(CursorOf(e)).Some? && parsed.Some? && parsed != Some((At(e), Replies(e)));
    var d1 := Note1(st1.disc, bad, ReasonMismatch, e.seqNo);
    CleanNote(st1.disc, bad, ReasonMismatch, e.seqNo);
    CleanNote(d1, At(e) != st1.expected, MovedWithoutAck, e.seqNo);
    assert RoundStep(g, st, e).disc == Note1(d1, At(e) != st1.expected, MovedWithoutAck, e.seqNo);
  }

  lemma DeliveryKeeps(g: Setting, st: FState, e: Entry, ws: seq<Entry>)
    requires AllRounds(ws) && Holds(st, ws)
    ensures Holds(DeliveryStep(g, st, e), ws)
    ensures DeliveryStep(g, st, e).expected == st.expected
    ensures Clean(DeliveryStep(g, st, e).disc) <==> Clean(st.disc)
  {
    hide Clean, Sums;
    FlagClean(g, st, true, DeliveredWithoutRound, e.seqNo);
  }

  // --------------------------------------------------------------- the theorem

  lemma FitsStep(g: Setting, es: seq<Entry>)
    requires es != [] && AllStructured(g, es)
    ensures Fits(g, es) <==> Fits(g, es[..|es| - 1]) && LastFits(g, es)
  {
    hide LastFits;
    var init := es[..|es| - 1];
    assert es[..|es|] == es;
    assert forall n | 0 <= n < |es| :: init[..n] == es[..n];
    if Fits(g, es) {
      forall n | 0 < n <= |init| ensures LastFits(g, init[..n]) {
        assert LastFits(g, es[..n]);
      }
      assert LastFits(g, es[..|es|]);
    }
  }

  lemma {:induction false} FoldFollows(g: Setting, es: seq<Entry>)
    requires AllStructured(g, es)
    ensures Holds(Fold(g, es), Waiting(g, es))
    ensures Clean(Fold(g, es).disc) <==> Fits(g, es)
    ensures Fits(g, es) ==> Fold(g, es).expected == Cursor(g, es)
  {
    if es != [] {
      var init, e := es[..|es| - 1], es[|es| - 1];
      FoldFollows(g, init);
      FitsStep(g, es);
      hide AckStep, RoundStep, DeliveryStep, RejectedStep, Holds, Clean, Fits, StaysBelow, RoundShape, StructuredAck;
      assert Structured(g, e);
      var st := Fold(g, init);
      if MyAck(g, e) {
        AckKeeps(g, st, e, Waiting(g, init));
      } else if MyRound(g, e) {
        RoundKeeps(g, st, e, Waiting(g, init));
      } else {
        DeliveryKeeps(g, st, e, Waiting(g, init));
      }
    }
  }

  /**
    The fold raises no accusation about the cursor exactly when every accepted
    ack and round continues the path, no ack goes past what was acked, and no
    ack steps over mail a truncated round left behind.
  */
  lemma CursorFoldIsTheDeclarativeCheck(g: Setting, es: seq<Entry>)
    requires AllStructured(g, es)
    ensures Clean(CursorReport(g, es).disc) <==> Fits(g, es)
  {
    FoldFollows(g, es);
    CloseDisc(g, Fold(g, es));
  }

  // ------------------------------------- next ids of truncated rounds alone

  /** Only the next ids that truncated rounds name bind the ack. */
  predicate BelowTruncated(ws: seq<Entry>, to: nat)
    requires AllRounds(ws)
  {
    forall i | 0 <= i < |ws| && Truncated(ws[i]) :: to < NextId(ws[i])
  }

  /** A round that hands out everything names no next id, as the exchange writes it. */
  predicate QuietWhenWhole(g: Setting, e: Entry)
    requires Structured(g, e)
  {
    MyRound(g, e) && !Truncated(e) ==> NextId(e) == 0
  }

  predicate LastFitsTruncated(g: Setting, es: seq<Entry>)
    requires es != [] && AllStructured(g, es)
  {
    var e, before := es[|es| - 1], es[..|es| - 1];
    && (MyAck(g, e) ==>
          var (from, to, ack) := Ack(e);
          && from == Cursor(g, before)
          && to <= (if from > ack then from else ack)
          && BelowTruncated(Waiting(g, before), to))
    && (MyRound(g, e) ==> At(e) == Cursor(g, before))
  }

  predicate FitsTruncated(g: Setting, es: seq<Entry>)
    requires AllStructured(g, es)
  {
    forall n | 0 < n <= |es| :: LastFitsTruncated(g, es[..n])
  }

  lemma {:induction false} WaitingFrom(g: Setting, es: seq<Entry>)
    requires AllStructured(g, es)
    ensures forall i | 0 <= i < |Waiting(g, es)| :: Waiting(g, es)[i] in es && MyRound(g, Waiting(g, es)[i])
  {
    hide Structured, RoundShape;
    if es != [] {
      var init := es[..|es| - 1];
      assert AllStructured(g, init);
      WaitingFrom(g, init);
      assert forall e | e in init :: e in es;
    }
  }

  lemma TruncatedNextIdsSuffice(ws: seq<Entry>, to: nat)
    requires AllRounds(ws)
    ensures StaysBelow(ws, to) ==> BelowTruncated(ws, to)
    ensures (forall i | 0 <= i < |ws| && !Truncated(ws[i]) :: NextId(ws[i]) == 0) ==>
              (StaysBelow(ws, to) <==> BelowTruncated(ws, to))
  {
    forall i | 0 <= i < |ws| && Truncated(ws[i]) ensures NextId(ws[i]) > 0 {
      assert RoundShape(CursorOf(ws[i]));
    }
    hide RoundShape, Truncated, NextId;
  }

  /**
    What a clean fold says of truncated rounds alone: no ack reaches a next id one
    of them names. Where whole rounds name no next id, that is also all it says.
  */
  lemma CleanFoldSparesTruncatedMail(g: Setting, es: seq<Entry>)
    requires AllStructured(g, es)
    ensures Clean(CursorReport(g, es).disc) ==> FitsTruncated(g, es)
    ensures (forall i | 0 <= i < |es| :: QuietWhenWhole(g, es[i])) ==>
              (Clean(CursorReport(g, es).disc) <==> FitsTruncated(g, es))
  {
    CursorFoldIsTheDeclarativeCheck(g, es);
    var quiet := forall i | 0 <= i < |es| :: QuietWhenWhole(g, es[i]);
    forall n | 0 < n <= |es|
      ensures LastFits(g, es[..n]) ==> LastFitsTruncated(g, es[..n])
      ensures quiet ==> (LastFits(g, es[..n]) <==> LastFitsTruncated(g, es[..n]))
    {
      OneFits(g, es, n, quiet);
    }
  }

  lemma OneFits(g: Setting, es: seq<Entry>, n: nat, quiet: bool)
    requires 0 < n <= |es| && AllStructured(g, es)
    requires quiet ==> forall i | 0 <= i < |es| :: QuietWhenWhole(g, es[i])
    ensures LastFits(g, es[..n]) ==> LastFitsTruncated(g, es[..n])
    ensures quiet ==> (LastFits(g, es[..n]) <==> LastFitsTruncated(g, es[..n]))
  {
    var e, before := es[..n][n - 1], es[..n][..n - 1];
    if MyAck(g, e) {
      hide Structured, Truncated, NextId, RoundShape;
      var ws := Waiting(g, before);
      WaitingFrom(g, before);
      forall i | 0 <= i < |ws| && quiet && !Truncated(ws[i]) ensures NextId(ws[i]) == 0 {
        var k :| 0 <= k < |before| && before[k] == ws[i];
        assert QuietWhenWhole(g, es[k]);
      }
      TruncatedNextIdsSuffice(ws, Ack(e).1);
    }
  }

  function Line(kind: string, cursor: Json): Entry {
    Entry(N(1), "", 0, "", "x", "ssh-key", "x", kind, "accepted", "", None, Some(cursor), "")
  }

  function RoundCursor(at: nat, pending: nat, replies: nat, next: nat): Json {
    Obj(map["at" := Int(at), "pending" := Int(pending), "replies" := Int(replies), "next_id" := Int(next)])
  }

  function AckCursor(from: nat, to: nat, ack: nat): Json {
    Obj(map["from" := Int(from), "to" := Int(to), "ack" := Int(ack)])
  }

  /** A whole round that names next id 1, a truncated one that names 5, and an ack up to 2. */
  function WholeRoundNamesNext(): seq<Entry> {
    [Line("pickup", RoundCursor(0, 0, 0, 1)), Line("pickup", RoundCursor(0, 2, 1, 5)), Line("ack", AckCursor(0, 2, 2))]
  }

  /** Two rounds and an ack that continue the path: what they wait for, and where the cursor is. */
  lemma ThreeEntries(g: Setting, r: Entry, t: Entry, a: Entry)
    requires MyRound(g, r) && MyRound(g, t) && MyAck(g, a)
    requires Structured(g, r) && Structured(g, t) && Structured(g, a)
    requires At(r) == g.start && At(t) == g.start
    ensures AllStructured(g, [r, t]) && AllStructured(g, [r, t, a])
    ensures Waiting(g, [r, t]) == [r, t] && Cursor(g, [r, t]) == g.start
  {
    hide Structured;
    assert [r, t][..1] == [r] && [r][..0] == [];
    assert AllStructured(g, [r]);
    assert Waiting(g, [r]) == [r] && Cursor(g, [r]) == g.start;
  }

  lemma ThreeFitTruncated(g: Setting, r: Entry, t: Entry, a: Entry)
    requires MyRound(g, r) && MyRound(g, t) && MyAck(g, a)
    requires Structured(g, r) && Structured(g, t) && Structured(g, a)
    requires At(r) == g.start && At(t) == g.start
    requires Ack(a).0 == g.start && Ack(a).1 == Ack(a).2
    requires !Truncated(r) && Ack(a).1 < NextId(t)
    ensures AllStructured(g, [r, t, a]) && FitsTruncated(g, [r, t, a])
  {
    var es := [r, t, a];
    ThreeEntries(g, r, t, a);
    assert StructuredAck(CursorOf(a)).Some?;
    hide Structured, StructuredAck, RoundShape, Truncated, Waiting;
    assert es[..1] == [r] && es[..2] == [r, t] && es[..3] == es;
    assert [r][..0] == [] && [r, t][..1] == [r];
    assert LastFitsTruncated(g, es[..1]);
    assert LastFitsTruncated(g, es[..2]);
    assert BelowTruncated([r, t], Ack(a).1);
    assert LastFitsTruncated(g, es[..3]);
  }

  lemma ThreeDoNotFit(g: Setting, r: Entry, t: Entry, a: Entry)
    requires MyRound(g, r) && MyRound(g, t) && MyAck(g, a)
    requires Structured(g, r) && Structured(g, t) && Structured(g, a)
    requires At(r) == g.start && At(t) == g.start
    requires Truncated(t) && 0 < NextId(r) <= Ack(a).1
    ensures AllStructured(g, [r, t, a]) && !Fits(g, [r, t, a])
  {
    var es := [r, t, a];
    ThreeEntries(g, r, t, a);
    assert StructuredAck(CursorOf(a)).Some?;
    hide Structured, StructuredAck, RoundShape, Truncated, Waiting;
    assert es[..2] == [r, t] && es[..3] == es;
    assert Truncated([r, t][1]) && NextId([r, t][0]) <= Ack(a).1;
    assert !StaysBelow([r, t], Ack(a).1);
    assert !LastFits(g, es[..3]);
  }

  /** The next id of a whole round binds as well: the fold is stricter than truncated rounds alone. */
  lemma WholeRoundsBindToo(g: Setting)
    requires g.identity == "x" && g.start == 0
    ensures AllStructured(g, WholeRoundNamesNext())
    ensures FitsTruncated(g, WholeRoundNamesNext())
    ensures !Clean(CursorReport(g, WholeRoundNamesNext()).disc)
  {
    var es := WholeRoundNamesNext();
    var r, t, a := es[0], es[1], es[2];
    assert RoundShape(CursorOf(r)) && NextId(r) == 1 && !Truncated(r) && At(r) == 0;
    assert RoundShape(CursorOf(t)) && NextId(t) == 5 && Truncated(t) && At(t) == 0;
    assert StructuredAck(CursorOf(a)).Some? && Ack(a) == (0, 2, 2);
    hide RoundShape, NextId, Truncated, StructuredAck, Ack, At, FitsTruncated, Fits, CursorReport;
    assert es == [r, t, a];
    ThreeFitTruncated(g, r, t, a);
    ThreeDoNotFit(g, r, t, a);
    CursorFoldIsTheDeclarativeCheck(g, es);
  }
}
