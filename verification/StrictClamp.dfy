/**
  The strict ack (agent_bus.py, dev mode): the cursor stays at or below the water
  level, all letters up to the level were delivered, so an ack skips no letter.
  Rows of kind `replay` do not hold the level back and are not letters here.
*/
module StrictClamp {
  import opened IntSets
  import opened BusState
  import opened Enforce
  import opened BusOps
  import opened SkipAccounting

  predicate Letter(b: Bus, a: string, i: int) { i in Mine(b.messages, a) && b.messages[i - 1].kind != "replay" }

  /** Every letter up to the water level was delivered, and the cursor does not pass the level. */
  ghost predicate LevelHolds(b: Bus, a: string) {
    && (forall i | Letter(b, a, i) && i <= CurOf(b, a).delivered :: i in b.read)
    && 0 <= CurOf(b, a).last <= CurOf(b, a).delivered <= HighWater(b.messages, a)
  }

  /** All the agent's letters above its cursor. */
  function Waiting(b: Bus, a: string): seq<int> {
    var ids := IdsAfter(b.messages, a, CurOf(b, a).last);
    assert forall i | 0 <= i < |ids| :: ids[i] in ids;
    Letters(b.messages, ids)
  }

  /** The rows among the first 500 waiting ones that stay unread when ids are reported delivered. */
  function StillOpen(b: Bus, a: string, ids: set<int>): set<int> {
    (set i | i in Pending(b, a)) * (Mine(b.messages, a) - b.read) - ids
  }

  /** The level sees every letter: few enough wait, or one of the first 500 stays unread. */
  predicate SeesAll(b: Bus, a: string, ids: seq<int>) {
    |Waiting(b, a)| <= RECV_LIMIT || StillOpen(b, a, Positive(ids)) != {}
  }

  lemma WaitingIs(b: Bus, a: string)
    ensures forall i :: i in Waiting(b, a) <==> Letter(b, a, i) && i > CurOf(b, a).last
    ensures forall i, j | 0 <= i < j < |Waiting(b, a)| :: Waiting(b, a)[i] < Waiting(b, a)[j]
    ensures Pending(b, a) == Take(Waiting(b, a), RECV_LIMIT)
  {
    var ids := IdsAfter(b.messages, a, CurOf(b, a).last);
    assert forall i | 0 <= i < |ids| :: ids[i] in ids;
  }

  /** What the first `limit` of a rising sequence leave out lies above all of them. */
  lemma TakeIsPrefix(all: seq<int>, limit: int)
    requires forall i, j | 0 <= i < j < |all| :: all[i] < all[j]
    ensures forall i | i in Take(all, limit) :: i in all
    ensures forall i, j | i in Take(all, limit) && j in all && j < i :: j in Take(all, limit)
    ensures 0 <= |all| <= limit ==> Take(all, limit) == all
  {
    var p := Take(all, limit);
    assert p == all[..|p|];
    forall i, j | i in p && j in all && j < i ensures j in p {
      var m :| 0 <= m < |p| && p[m] == i;
      var n :| 0 <= n < |all| && all[n] == j;
      assert n < m;
      assert p[n] == j;
    }
  }

  lemma PendingIs(b: Bus, a: string)
    ensures forall i | i in Pending(b, a) :: Letter(b, a, i) && i > CurOf(b, a).last
    ensures forall i, j | i in Pending(b, a) && Letter(b, a, j) && CurOf(b, a).last < j < i :: j in Pending(b, a)
    ensures |Waiting(b, a)| <= RECV_LIMIT ==>
              forall j | Letter(b, a, j) && CurOf(b, a).last < j :: j in Pending(b, a)
  {
    WaitingIs(b, a);
    TakeIsPrefix(Waiting(b, a), RECV_LIMIT);
    hide Pending, Waiting, Letter, Take;
  }

  lemma StillOpenIs(w: World, g: Gate, b: Bus, a: string, ids: set<int>)
    requires g.Dev?
    ensures StillOpen(b, a, ids) == Blocking(w, g, b, a) * (Mine(b.messages, a) - b.read) - ids
    ensures WaterLevel(w, g, b, a, ids)
         == if StillOpen(b, a, ids) == {} then HighWater(b.messages, a) else Least(StillOpen(b, a, ids)) - 1
  {
    PendingIs(b, a);
    hide Pending, Letters, IdsAfter;
    assert Blocking(w, g, b, a) == set i | i in Pending(b, a);
  }

  /** Where a row stays open, no letter below it is unread: the level holds. */
  lemma LevelBelowOpen(b: Bus, a: string, ids: set<int>, i: int)
    requires LevelHolds(b, a) && StillOpen(b, a, ids) != {}
    requires Letter(b, a, i) && i < Least(StillOpen(b, a, ids))
    ensures i in b.read + ids
  {
    PendingIs(b, a);
    hide Pending, Letter;
    var k := Least(StillOpen(b, a, ids));
    assert k in StillOpen(b, a, ids);
    assert i > CurOf(b, a).last ==> i in Pending(b, a);
    assert i > CurOf(b, a).last && i !in b.read && i !in ids ==> i in StillOpen(b, a, ids) by {
      assert Letter(b, a, i) ==> i in Mine(b.messages, a) by {
        LetterIsMine(b, a, i);
      }
    }
  }

  lemma LetterIsMine(b: Bus, a: string, i: int)
    ensures Letter(b, a, i) ==> i in Mine(b.messages, a) && i <= HighWater(b.messages, a)
  {
    HighWaterBounds(b.messages, a);
  }

  // ----------------------------------------------------- what each step keeps

  /** All letters above the cursor are read once ids are reported delivered. */
  ghost predicate AllRead(b: Bus, a: string, ids: set<int>) {
    forall i | Letter(b, a, i) && i > CurOf(b, a).last :: i in b.read + ids
  }

  lemma ClosedCase(b: Bus, c: Bus, a: string, good: set<int>)
    requires LevelHolds(b, a) && c.messages == b.messages
    requires c.read == b.read + good * Mine(b.messages, a)
    requires CurOf(c, a) == Cur(CurOf(b, a).last, HighWater(b.messages, a))
    ensures LevelHolds(c, a) <==> AllRead(b, a, good)
  {
    hide Letter, CurOf, Mine, HighWater;
    LetterFrame(b, c, a);
    forall i ensures Letter(b, a, i) ==> i in Mine(b.messages, a) && i <= HighWater(b.messages, a) {
      LetterIsMine(b, a, i);
    }
  }

  lemma OpenCase(b: Bus, c: Bus, a: string, good: set<int>)
    requires LevelHolds(b, a) && c.messages == b.messages && StillOpen(b, a, good) != {}
    requires c.read == b.read + good * Mine(b.messages, a)
    requires CurOf(c, a) == Cur(CurOf(b, a).last, Least(StillOpen(b, a, good)) - 1)
    ensures LevelHolds(c, a)
  {
    OpenLevel(b, a, good);
    hide Letter, CurOf, Mine, HighWater, StillOpen, LeastOf;
    LetterFrame(b, c, a);
    forall i | Letter(c, a, i) && i <= CurOf(c, a).delivered ensures i in c.read {
      LevelBelowOpen(b, a, good, i);
      LetterIsMine(b, a, i);
    }
  }

  /**
    Reporting delivery keeps the level honest exactly when a row of the first 500
    stays open, or every letter above the cursor has been delivered.
  */
  lemma LevelAfterMark(w: World, b: Bus, a: string, ids: seq<int>, g: Gate)
    requires g.Dev? && LevelHolds(b, a) && Positive(ids) != {}
    ensures LevelHolds(MarkDelivered(w, g, b, a, ids), a)
       <==> StillOpen(b, a, Positive(ids)) != {} || AllRead(b, a, Positive(ids))
  {
    hide MarkDelivered, Positive, LevelHolds, AllRead, StillOpen, WaterLevel, HighWater, LeastOf, Mine;
    var c, good := MarkDelivered(w, g, b, a, ids), Positive(ids);
    MarkFields(w, b, a, ids, g);
    StillOpenIs(w, g, b, a, good);
    if StillOpen(b, a, good) != {} {
      OpenCase(b, c, a, good);
    } else {
      ClosedCase(b, c, a, good);
    }
  }

  lemma OpenLevel(b: Bus, a: string, ids: set<int>)
    requires StillOpen(b, a, ids) != {}
    ensures CurOf(b, a).last <= Least(StillOpen(b, a, ids)) - 1 <= HighWater(b.messages, a)
  {
    var k := Least(StillOpen(b, a, ids));
    assert k in StillOpen(b, a, ids);
    PendingIs(b, a);
    HighWaterBounds(b.messages, a);
  }

  lemma LetterFrame(b: Bus, c: Bus, a: string)
    requires c.messages == b.messages
    ensures forall i :: Letter(c, a, i) <==> Letter(b, a, i)
  {
  }

  lemma FewWaitingSeen(b: Bus, a: string, ids: set<int>)
    requires |Waiting(b, a)| <= RECV_LIMIT && StillOpen(b, a, ids) == {}
    ensures AllRead(b, a, ids)
  {
    PendingIs(b, a);
    forall i | Letter(b, a, i) && i > CurOf(b, a).last ensures i in b.read + ids {
      LetterIsMine(b, a, i);
      assert i in Pending(b, a);
      assert i !in StillOpen(b, a, ids);
    }
  }

  lemma MarkKeepsLevel(w: World, b: Bus, a: string, ids: seq<int>, g: Gate)
    requires g.Dev? && LevelHolds(b, a) && SeesAll(b, a, ids)
    ensures LevelHolds(MarkDelivered(w, g, b, a, ids), a)
  {
    if Positive(ids) == {} {
      MarkFields(w, b, a, ids, g);
      GrowingKeepsLevel(b, MarkDelivered(w, g, b, a, ids), a);
    } else {
      LevelAfterMark(w, b, a, ids, g);
      if StillOpen(b, a, Positive(ids)) == {} {
        FewWaitingSeen(b, a, Positive(ids));
      }
    }
  }

  lemma HighWaterGrows(ms: seq<Msg>, ns: seq<Msg>, a: string)
    requires ms <= ns
    ensures HighWater(ms, a) <= HighWater(ns, a)
  {
    HighWaterBounds(ms, a);
    HighWaterBounds(ns, a);
    MineOfPrefix(ms, ns, a);
  }

  /** Steps that add messages and read marks, and leave this agent's row alone. */
  lemma GrowingKeepsLevel(b: Bus, c: Bus, a: string)
    requires LevelHolds(b, a)
    requires b.messages <= c.messages && b.read <= c.read && CurOf(c, a) == CurOf(b, a)
    ensures LevelHolds(c, a)
  {
    HighWaterGrows(b.messages, c.messages, a);
    HighWaterBounds(b.messages, a);
    hide HighWater, CurOf;
    forall i | Letter(c, a, i) && i <= CurOf(c, a).delivered ensures i in c.read {
      MineOfPrefix(b.messages, c.messages, a);
      assert Letter(b, a, i);
    }
  }

  lemma RecvKeepsLevel(w: World, b: Bus, a: string, limit: int, g: Gate)
    requires g.Dev? && LevelHolds(b, a)
    ensures LevelHolds(Recv(w, g, b, a, limit).0, a)
  {
    var c, page := RecvDev(b, a, limit).0, Page(b, a, limit);
    if page != [] {
      var top := page[|page| - 1];
      RecvFields(b, a, limit, a);
      PageIsPrefix(b, a, limit);
      assert top in page;
      HighWaterBounds(b.messages, a);
      LetterFrame(b, c, a);
      forall i | Letter(c, a, i) && i <= CurOf(c, a).delivered ensures i in c.read {
        LetterIsMine(b, a, i);
      }
    }
  }

  lemma AckKeepsLevel(b: Bus, a: string, upto: int)
    requires LevelHolds(b, a)
    ensures LevelHolds(Ack(b, a, upto, true), a)
    ensures AckTarget(b, a, upto, true) <= CurOf(b, a).delivered
  {
    var c := Ack(b, a, upto, true);
    LetterFrame(b, c, a);
    hide HighWater, Letter;
  }

  /** Strict acks by this agent, and a level that sees every letter at each of its delivery reports. */
  predicate Tame(b: Bus, e: Event, a: string) {
    && DevEvent(e)
    && (e.Acked? && e.a == a ==> e.strict)
    && (e.Marked? && e.a == a ==> SeesAll(b, a, e.ids))
  }

  predicate TameRun(w: World, events: seq<Event>, a: string) {
    events == [] ||
    (var init := events[..|events| - 1]; TameRun(w, init, a) && Tame(Run(w, init), events[|events| - 1], a))
  }

  /** Nothing of this agent's row or read marks is taken back by a step of another kind or agent. */
  predicate LeavesAlone(b: Bus, c: Bus, a: string) {
    b.messages <= c.messages && b.read <= c.read && CurOf(c, a) == CurOf(b, a)
  }

  lemma OthersLeaveAlone(w: World, b: Bus, e: Event, a: string)
    requires DevEvent(e) && !((e.Received? || e.Acked? || e.Marked?) && e.a == a)
    ensures LeavesAlone(b, Step(w, b, e), a)
  {
    hide SendFault, ReplayAll, MarkDelivered, GateWorks, Candidates, AckTarget, Page, Mine, UpTo;
    match e
    case Sent(m) =>
    case Peeked(_, _, _) =>
    case Received(x, limit, g) =>
      if Page(b, x, limit) != [] {
        RecvFields(b, x, limit, a);
      }
    case Acked(x, upto, strict) =>
      AckFields(b, x, upto, strict, a);
    case Marked(x, ids, g) =>
      MarkFields(w, b, x, ids, g);
    case Replays(x, limit, g) =>
      ReplayAllAdds(w, g, b, x, Candidates(b, x, limit), a);
  }

  lemma StepKeepsLevel(w: World, b: Bus, e: Event, a: string)
    requires LevelHolds(b, a) && Tame(b, e, a)
    ensures LevelHolds(Step(w, b, e), a)
  {
    hide LevelHolds, Recv, Ack, MarkDelivered, SeesAll;
    if e.Received? && e.a == a {
      RecvKeepsLevel(w, b, a, e.limit, e.g);
    } else if e.Acked? && e.a == a {
      AckKeepsLevel(b, a, e.upto);
    } else if e.Marked? && e.a == a {
      MarkKeepsLevel(w, b, a, e.ids, e.g);
    } else {
      OthersLeaveAlone(w, b, e, a);
      GrowingKeepsLevel(b, Step(w, b, e), a);
    }
  }

  lemma LevelAtStart(a: string)
    ensures LevelHolds(EMPTY, a)
  {
    assert Mine([], a) == {};
  }

  lemma {:induction false} TameRunIsDev(w: World, events: seq<Event>, a: string)
    requires TameRun(w, events, a)
    ensures DevRun(events)
  {
    hide DevEvent, SeesAll, Run;
    if events != [] {
      TameRunIsDev(w, events[..|events| - 1], a);
    }
  }

  lemma {:induction false} LevelAlwaysHolds(w: World, events: seq<Event>, a: string)
    requires TameRun(w, events, a)
    ensures LevelHolds(Run(w, events), a)
  {
    if events == [] {
      LevelAtStart(a);
    } else {
      hide Step, LevelHolds, Tame;
      var init := events[..|events| - 1];
      LevelAlwaysHolds(w, init, a);
      StepKeepsLevel(w, Run(w, init), events[|events| - 1], a);
    }
  }

  // ----------------------------------------------------------------- the theorem

  /** What the cursor passes in one step was read before it or is handed out by it, unless it is no letter. */
  lemma PassedLettersWereDelivered(w: World, b: Bus, e: Event, a: string, i: int)
    requires LevelHolds(b, a) && Tame(b, e, a)
    requires i in Passed(b, Step(w, b, e), a) && Letter(Step(w, b, e), a, i)
    ensures i in b.read || i in HandedBy(w, b, e, a)
  {
    var c := Step(w, b, e);
    if e.Received? && e.a == a {
      if Page(b, a, e.limit) != [] {
        RecvPasses(w, b, a, e.limit, e.g);
      }
    } else if e.Acked? && e.a == a {
      AckKeepsLevel(b, a, e.upto);
      LetterFrame(b, c, a);
    } else if e.Marked? && e.a == a {
      MarkFields(w, b, a, e.ids, e.g);
      NothingPassed(b, c, a);
    } else {
      OthersLeaveAlone(w, b, e, a);
      NothingPassed(b, c, a);
    }
  }

  predicate OnlyReplays(b: Bus, ids: set<int>) {
    forall i | i in ids :: 1 <= i <= |b.messages| && b.messages[i - 1].kind == "replay"
  }

  /**
    With strict acks no letter is ever skipped: every letter up to the water level
    was delivered, the cursor never passes the level, and only rows of kind
    `replay` can be among the skipped.
  */
  lemma {:induction false} StrictAckSkipsNoLetter(w: World, events: seq<Event>, a: string)
    requires TameRun(w, events, a)
    ensures LevelHolds(Run(w, events), a)
    ensures OnlyReplays(Run(w, events), Skipped(w, events, a))
  {
    LevelAlwaysHolds(w, events, a);
    if events != [] {
      hide Step, LevelHolds, Tame, HandedBy, OnlyReplays, Balanced, Sane, Booked, Passed;
      var init, e := events[..|events| - 1], events[|events| - 1];
      var b, c := Run(w, init), Run(w, events);
      StrictAckSkipsNoLetter(w, init, a);
      LevelAlwaysHolds(w, init, a);
      TameRunIsDev(w, events, a);
      SkipsAreConserved(w, init, a);
      SkippedNow(w, b, e, a, Handed(w, init, a), InTime(w, init, a), Skipped(w, init, a));
    }
  }

  lemma MessagesStay(w: World, b: Bus, e: Event, a: string)
    requires Sane(b) && Tame(b, e, a)
    ensures b.messages <= Step(w, b, e).messages
  {
    hide Step, HandedBy, Sane, SeesAll;
    StepEffect(w, b, e, a);
  }

  /** One step adds no letter to the skipped. */
  lemma SkippedNow(w: World, b: Bus, e: Event, a: string, handed: set<int>, inTime: set<int>, skipped: set<int>)
    requires LevelHolds(b, a) && Tame(b, e, a) && Sane(b) && Balanced(b, a, handed, inTime, skipped)
    requires OnlyReplays(b, skipped)
    ensures var c := Step(w, b, e);
            OnlyReplays(c, skipped + (Passed(b, c, a) - (handed + HandedBy(w, b, e, a))))
  {
    hide Step, LevelHolds, Tame, HandedBy, Balanced, Sane, Booked, Passed;
    var c := Step(w, b, e);
    MessagesStay(w, b, e, a);
    forall i | i in Passed(b, c, a) - (handed + HandedBy(w, b, e, a))
      ensures 1 <= i <= |c.messages| && c.messages[i - 1].kind == "replay" {
      SkippedIsNoLetter(w, b, e, a, i, handed, inTime, skipped);
    }
  }

  lemma SkippedIsNoLetter(w: World, b: Bus, e: Event, a: string, i: int,
                          handed: set<int>, inTime: set<int>, skipped: set<int>)
    requires LevelHolds(b, a) && Tame(b, e, a) && Sane(b) && Balanced(b, a, handed, inTime, skipped)
    requires b.messages <= Step(w, b, e).messages
    requires i in Passed(b, Step(w, b, e), a) && i !in handed + HandedBy(w, b, e, a)
    ensures 1 <= i <= |Step(w, b, e).messages| && Step(w, b, e).messages[i - 1].kind == "replay"
  {
    var c := Step(w, b, e);
    hide Step, LevelHolds, Tame, HandedBy, SkipTotal;
    var mine := Mine(c.messages, a);
    OldAccounts(b, c, a);
    assert i in mine && i > CurOf(b, a).last;
    assert i in b.read ==> i in b.read * mine;
    assert b.read * mine == handed + UpTo(Mine(b.messages, a), CurOf(b, a).last);
    if Letter(c, a, i) {
      PassedLettersWereDelivered(w, b, e, a, i);
    }
  }

  /** Without rows of kind `replay`, nothing is skipped and every skip number in the log is 0. */
  lemma NoReplaysNoSkips(w: World, events: seq<Event>, a: string)
    requires TameRun(w, events, a)
    requires forall i | 0 <= i < |Run(w, events).messages| :: Run(w, events).messages[i].kind != "replay"
    ensures Skipped(w, events, a) == {}
    ensures forall i | 0 <= i < |Run(w, events).audit| && Run(w, events).audit[i].agent == a ::
              Run(w, events).audit[i].skipped == 0
  {
    StrictAckSkipsNoLetter(w, events, a);
    TameRunIsDev(w, events, a);
    SkipsAreConserved(w, events, a);
    ZeroTotal(Run(w, events).audit, a);
  }

  lemma {:induction false} ZeroTotal(rows: seq<Row>, a: string)
    requires SkipTotal(rows, a) == 0
    ensures forall i | 0 <= i < |rows| && rows[i].agent == a :: rows[i].skipped == 0
  {
    if rows != [] {
      ZeroTotal(rows[..|rows| - 1], a);
    }
  }
}
