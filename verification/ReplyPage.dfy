/**
  The page of replies in either mode (bus_ssh_exchange.py, agent_bus.py): what a round
  hands out, what it leaves behind, and how far that can take the remote side.
*/
module ReplyPage {
  import opened Wrappers
  import opened NotaryLog
  import opened IntSets
  import opened BusState
  import opened Enforce
  import opened BusOps
  import opened SkipAccounting
  import opened Exchange
  import opened LogFirst
  import opened LossyLink

  // ------------------------------------------------------------- mail above a cursor

  /** New mail comes after what is there. */
  lemma {:induction false} IdsGrow(ms: seq<Msg>, ns: seq<Msg>, a: string, after: int)
    requires ms <= ns
    ensures IdsAfter(ms, a, after) <= IdsAfter(ns, a, after)
    ensures forall i | |IdsAfter(ms, a, after)| <= i < |IdsAfter(ns, a, after)| :: IdsAfter(ns, a, after)[i] > |ms|
  {
    if ms == ns {
    } else {
      var init := ns[..|ns| - 1];
      assert ms <= init;
      IdsGrow(ms, init, a, after);
    }
  }

  lemma IdsLast(ms: seq<Msg>, a: string, after: int)
    requires ms != []
    ensures IdsAfter(ms, a, after)
         == IdsAfter(ms[..|ms| - 1], a, after) + if ms[|ms| - 1].recipient == a && |ms| > after then [|ms|] else []
  {
  }

  lemma {:induction false} NothingAbove(ms: seq<Msg>, a: string, after: int)
    requires after >= |ms|
    ensures IdsAfter(ms, a, after) == []
  {
    if ms != [] {
      NothingAbove(ms[..|ms| - 1], a, after);
    }
  }

  /** A later cursor leaves the end of the same list. */
  lemma {:induction false} IdsShrink(ms: seq<Msg>, a: string, after: int, later: int)
    requires after <= later
    ensures IsEnd(IdsAfter(ms, a, later), IdsAfter(ms, a, after))
  {
    if ms != [] {
      IdsShrink(ms[..|ms| - 1], a, after, later);
      IdsLast(ms, a, after);
      IdsLast(ms, a, later);
      if |ms| <= later {
        NothingAbove(ms, a, later);
      }
      hide IdsAfter;
    }
  }

  predicate IsEnd(rest: seq<int>, all: seq<int>) { |rest| <= |all| && rest == all[|all| - |rest|..] }

  /** The last row of a full page: nothing beyond it is handed out before the cursor moves. */
  function Reach(b: Bus, a: string): Option<int> {
    var all := IdsAfter(b.messages, a, CurOf(b, a).last);
    if |all| >= MAX_REPLIES then Some(all[MAX_REPLIES - 1]) else None
  }

  predicate InReach(b: Bus, a: string, n: int) { Reach(b, a).Some? ==> n <= Reach(b, a).value }

  lemma ReachBounds(b: Bus, a: string)
    ensures Reach(b, a).Some? ==> CurOf(b, a).last < Reach(b, a).value && 1 <= Reach(b, a).value <= |b.messages|
  {
    var all := IdsAfter(b.messages, a, CurOf(b, a).last);
    if |all| >= MAX_REPLIES {
      assert all[MAX_REPLIES - 1] in all;
    }
  }

  /** New mail does not change a full page. */
  lemma ReachStays(b: Bus, c: Bus, a: string)
    requires b.messages <= c.messages && CurOf(c, a).last == CurOf(b, a).last
    ensures Reach(b, a).Some? ==> Reach(c, a) == Reach(b, a)
  {
    IdsGrow(b.messages, c.messages, a, CurOf(b, a).last);
    hide IdsAfter;
  }

  /** What is in reach stays in reach, as mail comes in and the cursor goes forward. */
  lemma InReachStays(b: Bus, c: Bus, a: string, n: int)
    requires b.messages <= c.messages && CurOf(b, a).last <= CurOf(c, a).last && n <= |b.messages| && InReach(b, a, n)
    ensures InReach(c, a, n)
  {
    var low, high := CurOf(b, a).last, CurOf(c, a).last;
    IdsGrow(b.messages, c.messages, a, low);
    IdsShrink(c.messages, a, low, high);
    var was, all, rest := IdsAfter(b.messages, a, low), IdsAfter(c.messages, a, low), IdsAfter(c.messages, a, high);
    hide IdsAfter;
    if |rest| >= MAX_REPLIES {
      var k := |all| - |rest| + MAX_REPLIES - 1;
      assert rest[MAX_REPLIES - 1] == all[k] && k >= MAX_REPLIES - 1;
      assert all[k] >= all[MAX_REPLIES - 1];
      assert |was| > MAX_REPLIES - 1 ==> all[MAX_REPLIES - 1] == was[MAX_REPLIES - 1];
      assert |was| <= MAX_REPLIES - 1 ==> all[MAX_REPLIES - 1] > |b.messages|;
    }
  }

  // --------------------------------------------------------------------- a peek

  predicate Rising(ids: seq<int>) { forall i, j | 0 <= i < j < |ids| :: ids[i] < ids[j] }

  /** Only the audit log differs. */
  predicate Audited(b: Bus, c: Bus) { c == b.(audit := c.audit) }

  lemma PeekAudits(w: World, g: Gate, b: Bus, a: string, limit: int)
    ensures Audited(b, Peek(w, g, b, a, limit).0)
  {
    hide Page, NewRejects;
  }

  lemma {:induction false} SiftFrame(w: World, g: Gate, b: Bus, c: Bus, a: string, ids: seq<int>)
    requires g.Product? && InTable(b, ids) && Audited(b, c)
    ensures Sift(w, g, c, a, ids, false) == Sift(w, g, b, a, ids, false)
  {
    hide Check;
    if ids != [] {
      SiftFrame(w, g, b, c, a, ids[..|ids| - 1]);
    }
  }

  lemma PeekFrame(w: World, g: Gate, b: Bus, c: Bus, a: string, limit: int)
    requires Audited(b, c)
    ensures Peek(w, g, c, a, limit).1 == Peek(w, g, b, a, limit).1
  {
    assert Page(c, a, limit) == Page(b, a, limit);
    if g.Product? {
      PageInRange(b, a, limit);
      SiftFrame(w, g, b, c, a, Page(b, a, limit));
    }
    hide Page, Sift, NewRejects;
  }

  lemma SiftLast(w: World, g: Gate, b: Bus, a: string, ids: seq<int>)
    requires g.Product? && InTable(b, ids) && ids != [] && Sift(w, g, b, a, ids, false).Sifted?
    ensures InTable(b, ids[..|ids| - 1]) && Sift(w, g, b, a, ids[..|ids| - 1], false).Sifted?
    ensures var so, kept := Sift(w, g, b, a, ids[..|ids| - 1], false).kept, Sift(w, g, b, a, ids, false).kept;
            kept == so || kept == so + [ids[|ids| - 1]]
  {
    hide Check;
  }

  /** Rows kept of some ids, those after the first m kept from the ids after the first n. */
  predicate KeptOf(kept: seq<int>, m: nat, ids: seq<int>, n: nat) {
    && Rising(kept) && (forall i | 0 <= i < |kept| :: kept[i] in ids)
    && (forall i | m <= i < |kept| :: From(ids, n, kept[i]))
  }

  /** Among the ids after the first n. */
  predicate From(ids: seq<int>, n: nat, id: int) { exists k :: n <= k < |ids| && ids[k] == id }

  lemma KeptOneMore(so: seq<int>, m: nat, ids: seq<int>, n: nat)
    requires ids != [] && n < |ids| && m <= |so| && Rising(ids) && KeptOf(so, m, ids[..|ids| - 1], n)
    ensures KeptOf(so, m, ids, n) && KeptOf(so + [ids[|ids| - 1]], m, ids, n)
  {
    var init, last := ids[..|ids| - 1], ids[|ids| - 1];
    KeptMore(so, init, ids);
    assert ids[|ids| - 1] == last;
    assert last in ids;
    var more := so + [last];
    forall i | m <= i < |so| ensures From(ids, n, so[i]) && more[i] == so[i] {
      assert From(init, n, so[i]);
      var k :| n <= k < |init| && init[k] == so[i];
      assert ids[k] == so[i];
    }
    assert From(ids, n, last);
    assert forall i | m <= i < |more| :: more[i] == if i < |so| then so[i] else last;
  }

  /** What a peek without consumption lets through is a row of the page, judged by itself. */
  lemma {:induction false} SiftKept(w: World, g: Gate, b: Bus, a: string, ids: seq<int>, n: nat)
    requires g.Product? && InTable(b, ids) && Rising(ids) && n <= |ids|
    requires Sift(w, g, b, a, ids, false).Sifted?
    ensures InTable(b, ids[..n]) && Sift(w, g, b, a, ids[..n], false).Sifted?
    ensures var kept, so := Sift(w, g, b, a, ids, false).kept, Sift(w, g, b, a, ids[..n], false).kept;
            so <= kept && KeptOf(kept, |so|, ids, n)
  {
    if ids == [] {
      assert ids[..n] == ids;
    } else {
      var init := ids[..|ids| - 1];
      SiftLast(w, g, b, a, ids);
      hide Sift, KeptOf;
      if n < |ids| {
        assert init[..n] == ids[..n];
        SiftKept(w, g, b, a, init, n);
        KeptOneMore(Sift(w, g, b, a, init, false).kept, |Sift(w, g, b, a, ids[..n], false).kept|, ids, n);
      } else {
        assert ids[..n] == ids;
        SiftKept(w, g, b, a, init, |init|);
        KeptOneMore(Sift(w, g, b, a, init, false).kept, |Sift(w, g, b, a, init[..|init|], false).kept|, ids, |init|);
        KeptWhole(Sift(w, g, b, a, ids, false).kept, |Sift(w, g, b, a, init[..|init|], false).kept|, ids, |init|);
      }
    }
  }

  lemma KeptWhole(kept: seq<int>, m: nat, ids: seq<int>, n: nat)
    requires KeptOf(kept, m, ids, n)
    ensures KeptOf(kept, |kept|, ids, |ids|)
  {
  }

  lemma KeptMore(kept: seq<int>, init: seq<int>, ids: seq<int>)
    requires ids != [] && init == ids[..|ids| - 1] && Rising(ids) && Rising(kept)
    requires forall i | 0 <= i < |kept| :: kept[i] in init
    ensures Rising(kept + [ids[|ids| - 1]])
    ensures forall i | 0 <= i < |kept| :: kept[i] in ids
  {
    forall i | 0 <= i < |kept| ensures kept[i] in ids && kept[i] < ids[|ids| - 1] {
      var k :| 0 <= k < |init| && init[k] == kept[i];
      assert ids[k] == kept[i];
    }
  }

  /** What a peek of one agent sees of the mail above its cursor. */
  predicate Seen(b: Bus, a: string, limit: int, rows: seq<int>) {
    Rising(rows) && forall i | 0 <= i < |rows| :: rows[i] in Page(b, a, limit)
  }

  /** The rows beyond the first `n` of the longer peek lie beyond the end of a full page. */
  predicate Beyond(b: Bus, a: string, rows: seq<int>, n: nat) { Over(Reach(b, a), rows, n) }

  predicate Over(reach: Option<int>, rows: seq<int>, n: nat) { forall i | n <= i < |rows| :: Past(reach, rows[i]) }

  predicate Past(reach: Option<int>, id: int) { reach.Some? && id > reach.value }

  lemma PageSplits(b: Bus, a: string, limit: int)
    requires limit >= MAX_REPLIES
    ensures var page, more := Page(b, a, MAX_REPLIES), Page(b, a, limit);
            && Rising(more) && |page| <= |more| && page == more[..|page|]
            && Beyond(b, a, more, |page|)
            && (forall k | 0 <= k < |page| :: InReach(b, a, page[k]))
  {
    var all := IdsAfter(b.messages, a, CurOf(b, a).last);
    hide IdsAfter;
    var page, more := Page(b, a, MAX_REPLIES), Page(b, a, limit);
    assert forall k | 0 <= k < |more| :: more[k] == all[k];
    assert |page| < |more| ==> |page| == MAX_REPLIES;
    forall k | |page| <= k < |more| ensures Past(Reach(b, a), more[k]) {
      assert k < |all|;
      assert Reach(b, a) == Some(all[MAX_REPLIES - 1]);
      assert all[MAX_REPLIES - 1] < all[k];
    }
    assert Beyond(b, a, more, |page|);
  }

  lemma OverKept(reach: Option<int>, kept: seq<int>, m: nat, ids: seq<int>, n: nat)
    requires KeptOf(kept, m, ids, n) && Over(reach, ids, n)
    ensures Over(reach, kept, m)
  {
    forall i | m <= i < |kept| ensures Past(reach, kept[i]) {
      assert From(ids, n, kept[i]);
      var k :| n <= k < |ids| && ids[k] == kept[i];
    }
  }

  lemma KeptSeen(b: Bus, a: string, limit: int, kept: seq<int>, m: nat, n: nat)
    requires KeptOf(kept, m, Page(b, a, limit), n)
    ensures Seen(b, a, limit, kept)
  {
    hide Page;
  }

  /** A short and a long peek at the same tables: the long one raises, or it only adds rows beyond the page. */
  lemma PeeksAgree(w: World, g: Gate, b: Bus, a: string, limit: int)
    requires limit >= MAX_REPLIES
    ensures var rows, more := Peek(w, g, b, a, MAX_REPLIES).1, Peek(w, g, b, a, limit).1;
            && Seen(b, a, MAX_REPLIES, rows) && Seen(b, a, limit, more)
            && (more == [] || (rows <= more && Beyond(b, a, more, |rows|)))
  {
    PageSplits(b, a, limit);
    var page, all := Page(b, a, MAX_REPLIES), Page(b, a, limit);
    if g.Product? {
      ProductPeek(w, g, b, a, MAX_REPLIES);
      ProductPeek(w, g, b, a, limit);
      hide Page, Peek, Reach, Over, Seen, KeptOf, Sift;
      var s, t := Sift(w, g, b, a, page, false), Sift(w, g, b, a, all, false);
      NothingSeen(b, a, MAX_REPLIES);
      NothingSeen(b, a, limit);
      if t.Sifted? {
        SiftKept(w, g, b, a, all, |page|);
        OverKept(Reach(b, a), t.kept, |s.kept|, all, |page|);
        KeptSeen(b, a, limit, t.kept, |s.kept|, |page|);
      }
      if s.Sifted? {
        SiftKept(w, g, b, a, page, |page|);
        KeptSeen(b, a, MAX_REPLIES, s.kept, |Sift(w, g, b, a, page[..|page|], false).kept|, |page|);
      }
    } else {
      hide Page, Reach;
    }
  }

  lemma NothingSeen(b: Bus, a: string, limit: int)
    ensures Seen(b, a, limit, [])
  {
    hide Page;
  }

  lemma ProductPeek(w: World, g: Gate, b: Bus, a: string, limit: int)
    requires g.Product?
    ensures InTable(b, Page(b, a, limit))
    ensures var s := Sift(w, g, b, a, Page(b, a, limit), false);
            Peek(w, g, b, a, limit).1 == if s.Raised? then [] else s.kept
  {
    PageInRange(b, a, limit);
    hide Page, Sift, NewRejects;
  }

  // -------------------------------------------------------------- what is shown

  lemma {:induction false} ShownOf(q: Request, b: Bus, ids: seq<int>)
    requires Rising(ids)
    ensures Rising(Shown(q, b, ids)) && forall i | 0 <= i < |Shown(q, b, ids)| :: Shown(q, b, ids)[i] in ids
  {
    if ids != [] {
      var init := ids[..|ids| - 1];
      ShownOf(q, b, init);
      KeptMore(Shown(q, b, init), init, ids);
      assert ids[|ids| - 1] in ids;
    }
  }

  lemma {:induction false} ShownSplits(q: Request, b: Bus, x: seq<int>, y: seq<int>)
    ensures Shown(q, b, x + y) == Shown(q, b, x) + Shown(q, b, y)
  {
    if y == [] {
      assert x + y == x;
    } else {
      ShownSplits(q, b, x, y[..|y| - 1]);
      assert (x + y)[..|x + y| - 1] == x + y[..|y| - 1];
    }
  }

  lemma {:induction false} ShownFrame(q: Request, b: Bus, c: Bus, ids: seq<int>)
    requires b.messages == c.messages
    ensures Shown(q, c, ids) == Shown(q, b, ids) && RepliesOf(q, c, ids) == RepliesOf(q, b, ids)
  {
    if ids != [] {
      ShownFrame(q, b, c, ids[..|ids| - 1]);
    }
  }

  /** What a round shows of its identity's mail, up to a limit. */
  function Rows(h: Host, q: Request, b: Bus, limit: int): seq<int> {
    Shown(q, b, Peek(h.w, q.gate, b, q.identity, limit).1)
  }

  /** The page handed out, and the measure of what waits. */
  function PageOut(h: Host, q: Request, b: Bus): seq<int> { Rows(h, q, b, MAX_REPLIES) }

  function Measured(h: Host, q: Request, b: Bus): seq<int> { Rows(h, q, b, PEND_LIMIT + 1) }

  lemma PageOutFacts(h: Host, q: Request, b: Bus)
    ensures var ids := PageOut(h, q, b);
            && Rising(ids) && InTable(b, ids)
            && forall i | 0 <= i < |ids| ::
                 ids[i] > CurOf(b, q.identity).last && ids[i] in Mine(b.messages, q.identity) && InReach(b, q.identity, ids[i])
  {
    PageIsPrefix(b, q.identity, MAX_REPLIES);
    PageInRange(b, q.identity, MAX_REPLIES);
    PageSplits(b, q.identity, MAX_REPLIES);
    OnPage(h, q, b);
    hide PageOut, Page, Reach, Mine, Rising;
    var page, ids := Page(b, q.identity, MAX_REPLIES), PageOut(h, q, b);
    forall i | 0 <= i < |ids|
      ensures ids[i] in page && InReach(b, q.identity, ids[i]) && 1 <= ids[i] <= |b.messages| {
      var j :| 0 <= j < |page| && page[j] == ids[i];
    }
  }

  lemma OnPage(h: Host, q: Request, b: Bus)
    ensures Rising(PageOut(h, q, b))
    ensures forall i | 0 <= i < |PageOut(h, q, b)| :: PageOut(h, q, b)[i] in Page(b, q.identity, MAX_REPLIES)
  {
    var rows := Peek(h.w, q.gate, b, q.identity, MAX_REPLIES).1;
    PeeksAgree(h.w, q.gate, b, q.identity, MAX_REPLIES);
    hide Peek, Page, Reach;
    ShownOf(q, b, rows);
    hide Shown;
    var ids := PageOut(h, q, b);
    forall i | 0 <= i < |ids| ensures ids[i] in Page(b, q.identity, MAX_REPLIES) {
      var k :| 0 <= k < |rows| && rows[k] == ids[i];
    }
  }

  /** The measure is empty, or begins with what is given and goes on beyond its reach. */
  lemma MeasuredFacts(h: Host, q: Request, b: Bus)
    ensures var ids, more := PageOut(h, q, b), Measured(h, q, b);
            && Rising(more)
            && (more == [] || (ids <= more && Beyond(b, q.identity, more, |ids|)))
  {
    var id := q.identity;
    var rows, all := Peek(h.w, q.gate, b, id, MAX_REPLIES).1, Peek(h.w, q.gate, b, id, PEND_LIMIT + 1).1;
    PeeksAgree(h.w, q.gate, b, id, PEND_LIMIT + 1);
    hide Peek, Page, Reach;
    ShownOf(q, b, all);
    if all != [] {
      var rest := all[|rows|..];
      assert rows + rest == all;
      ShownSplits(q, b, rows, rest);
      OverShown(q, b, Reach(b, id), all, |rows|);
      hide Shown;
      OverAfter(Reach(b, id), Shown(q, b, rows), Shown(q, b, rest));
    }
  }

  lemma OverShown(q: Request, b: Bus, reach: Option<int>, all: seq<int>, n: nat)
    requires n <= |all| && Rising(all) && Over(reach, all, n)
    ensures Over(reach, Shown(q, b, all[n..]), 0)
  {
    var rest := all[n..];
    ShownOf(q, b, rest);
    var out := Shown(q, b, rest);
    hide Shown;
    forall i | 0 <= i < |out| ensures Past(reach, out[i]) {
      var k :| 0 <= k < |rest| && rest[k] == out[i];
      assert rest[k] == all[n + k];
    }
  }

  lemma OverAfter(reach: Option<int>, x: seq<int>, y: seq<int>)
    requires Over(reach, y, 0)
    ensures x <= x + y && Over(reach, x + y, |x|)
  {
    var z := x + y;
    forall i | |x| <= i < |z| ensures Past(reach, z[i]) {
      assert z[i] == y[i - |x|];
    }
  }

  /** What the queue says: a round that leaves mail behind names a number out of reach. */
  lemma QueueFacts(h: Host, q: Request, b: Bus)
    ensures var ids, more := PageOut(h, q, b), Measured(h, q, b);
            var u := QueueOf(q, ids, more);
            && u.Queue? && u.pending == |more| && u.next >= 0 && (u.pending > |ids| ==> u.next > 0)
            && (u.next > 0 ==> Reach(b, q.identity).Some? && Reach(b, q.identity).value < u.next)
  {
    var ids, more := PageOut(h, q, b), Measured(h, q, b);
    MeasuredFacts(h, q, b);
    ReachBounds(b, q.identity);
    hide PageOut, Measured, Reach;
    var left := (set i | i in more) - (set i | i in ids);
    if |more| > |ids| {
      assert more[|ids|] in more;
      assert forall k | 0 <= k < |ids| :: ids[k] == more[k] < more[|ids|];
      assert more[|ids|] in left;
    }
    if left != {} {
      var n := Least(left);
      assert n in left;
      var k :| 0 <= k < |more| && more[k] == n;
      assert forall j | 0 <= j < |ids| :: ids[j] != n && more != [] && ids[j] == more[j];
    }
  }

  lemma PageOutSmall(h: Host, q: Request, b: Bus)
    ensures |PageOut(h, q, b)| <= MAX_REPLIES
  {
    var rows := Peek(h.w, q.gate, b, q.identity, MAX_REPLIES).1;
    assert |Page(b, q.identity, MAX_REPLIES)| <= MAX_REPLIES;
    PeekShorter(h.w, q.gate, b, q.identity, MAX_REPLIES);
    ShownShorter(q, b, rows);
    hide Page, Peek, Shown;
  }

  lemma PeekShorter(w: World, g: Gate, b: Bus, a: string, limit: int)
    ensures |Peek(w, g, b, a, limit).1| <= |Page(b, a, limit)|
  {
    if g.Product? {
      ProductPeek(w, g, b, a, limit);
      SiftShorter(w, g, b, a, Page(b, a, limit));
    }
    hide Page, Sift, NewRejects;
  }

  lemma {:induction false} SiftShorter(w: World, g: Gate, b: Bus, a: string, ids: seq<int>)
    requires g.Product? && InTable(b, ids)
    ensures var s := Sift(w, g, b, a, ids, false); s.Sifted? ==> |s.kept| <= |ids|
  {
    hide Check;
    if ids != [] {
      SiftShorter(w, g, b, a, ids[..|ids| - 1]);
    }
  }

  lemma {:induction false} ShownShorter(q: Request, b: Bus, ids: seq<int>)
    ensures |Shown(q, b, ids)| <= |ids|
  {
    if ids != [] {
      ShownShorter(q, b, ids[..|ids| - 1]);
    }
  }

  // ------------------------------------------------------------- the round's end

  /** The tables after both peeks: what is handed out is computed on them. */
  lemma BothPeeks(h: Host, q: Request, k: Work)
    requires !k.stopped && !q.f.peek && !q.f.pend
    ensures exists c :: Audited(k.bus, c)
              && RepliesPart(h, q, k)
                 == HandOut(h, q, k.(bus := c), PageOut(h, q, k.bus), QueueOf(q, PageOut(h, q, k.bus), Measured(h, q, k.bus)))
  {
    var id, b := q.identity, k.bus;
    var (b1, rows) := Peek(h.w, q.gate, b, id, MAX_REPLIES);
    var (b2, more) := Peek(h.w, q.gate, b1, id, PEND_LIMIT + 1);
    PeekAudits(h.w, q.gate, b, id, MAX_REPLIES);
    PeekAudits(h.w, q.gate, b1, id, PEND_LIMIT + 1);
    PeekFrame(h.w, q.gate, b, b1, id, PEND_LIMIT + 1);
    ShownFrame(q, b, b1, rows);
    ShownFrame(q, b, b2, more);
    hide Peek, Shown, HandOut, QueueOf;
    assert Audited(b, b2);
  }

  // ------------------------------------------------------------ what a round leaves alone

  /** Nothing of the messages, nor of any cursor; only the identity's own water level may change. */
  ghost predicate LeavesCursors(b: Bus, c: Bus, x: string) {
    && c.messages == b.messages && CurOf(c, x).last == CurOf(b, x).last
    && forall a | a != x :: CurOf(c, a) == CurOf(b, a)
  }

  lemma MarkLeaves(w: World, g: Gate, b: Bus, x: string, ids: seq<int>)
    ensures LeavesCursors(b, MarkDelivered(w, g, b, x, ids), x)
  {
    hide WaterLevel, RefusedIds, RowsFor, Positive, Mine;
  }

  lemma HandOutLeaves(h: Host, q: Request, k: Work, ids: seq<int>, u: Queue)
    requires k.replies == []
    ensures LeavesCursors(k.bus, HandOut(h, q, k, ids, u).bus, q.identity)
    ensures ids == [] ==> HandOut(h, q, k, ids, u).bus == k.bus
  {
    HandOutResult(h, q, k, ids, u);
    MarkLeaves(h.w, q.gate, k.bus, q.identity, ids);
    hide HandOut, MarkDelivered;
  }

  lemma AuditedLeaves(b: Bus, c: Bus, x: string)
    requires Audited(b, c)
    ensures LeavesCursors(b, c, x) && CurOf(c, x) == CurOf(b, x)
  {
  }

  lemma LeavesTwice(b: Bus, c: Bus, d: Bus, x: string)
    requires LeavesCursors(b, c, x) && LeavesCursors(c, d, x)
    ensures LeavesCursors(b, d, x)
  {
  }

  lemma RepliesLeave(h: Host, q: Request, k: Work)
    requires k.replies == []
    ensures LeavesCursors(k.bus, RepliesPart(h, q, k).bus, q.identity)
  {
    var id, b := q.identity, k.bus;
    AuditedLeaves(b, b, id);
    if !k.stopped && !q.f.peek {
      var (b1, rows) := Peek(h.w, q.gate, b, id, MAX_REPLIES);
      var (b2, more) := Peek(h.w, q.gate, b1, id, PEND_LIMIT + 1);
      PeekAudits(h.w, q.gate, b, id, MAX_REPLIES);
      PeekAudits(h.w, q.gate, b1, id, PEND_LIMIT + 1);
      var ids := Shown(q, b1, rows);
      hide Peek, Shown, HandOut, QueueOf, Audited, LeavesCursors;
      AuditedLeaves(b, b1, id);
      AuditedLeaves(b1, b2, id);
      LeavesTwice(b, b1, b2, id);
      var k1, k2 := k.(bus := b1), k.(bus := b2);
      HandOutLeaves(h, q, k1, ids, Unmeasured);
      HandOutLeaves(h, q, k2, ids, QueueOf(q, ids, Shown(q, b2, more)));
      LeavesTwice(b, b1, HandOut(h, q, k1, ids, Unmeasured).bus, id);
      LeavesTwice(b, b2, HandOut(h, q, k2, ids, QueueOf(q, ids, Shown(q, b2, more))).bus, id);
    }
  }

  /** A whole round, up to the replies: the ack moves the cursor, and messages come in. */
  lemma ServedLeaves(h: Host, q: Request, bus: Bus, file: seq<Record>)
    ensures var b := Served(h, q, bus, file).bus;
            && bus.messages <= b.messages && (forall a | a != q.identity :: CurOf(b, a) == CurOf(bus, a))
            && CurOf(b, q.identity).delivered == CurOf(bus, q.identity).delivered
            && (CurOf(b, q.identity).last == CurOf(bus, q.identity).last
                || (q.ack > 0 && CurOf(b, q.identity).last == AckTarget(bus, q.identity, q.ack, q.strict)))
            && Served(h, q, bus, file).replies == []
    ensures !Served(h, q, bus, file).stopped && q.ack > 0 && !q.f.ack ==>
              CurOf(Served(h, q, bus, file).bus, q.identity).last == AckTarget(bus, q.identity, q.ack, q.strict)
  {
    var k0 := Work(bus, file, [], 0, false, [], [], [], false);
    hide AckPart, MessagesPart, AckTarget;
    var k1 := AckPart(h, q, k0);
    AckPartLeaves(h, q, k0);
    MessagesInsert(h, q, k1, |q.messages|);
    NoRepliesYet(h, q, k1, |q.messages|);
    NoRepliesFromAck(h, q, bus, file);
    if k1.stopped {
      StopStays(h, q, k1, |q.messages|);
    }
  }

  lemma AckPartLeaves(h: Host, q: Request, k: Work)
    ensures var b := AckPart(h, q, k).bus;
            && b.messages == k.bus.messages && (forall a | a != q.identity :: CurOf(b, a) == CurOf(k.bus, a))
            && CurOf(b, q.identity).delivered == CurOf(k.bus, q.identity).delivered
            && (CurOf(b, q.identity).last == CurOf(k.bus, q.identity).last
                || (q.ack > 0 && CurOf(b, q.identity).last == AckTarget(k.bus, q.identity, q.ack, q.strict)))
    ensures !k.stopped && !AckPart(h, q, k).stopped && q.ack > 0 && !q.f.ack ==>
              CurOf(AckPart(h, q, k).bus, q.identity).last == AckTarget(k.bus, q.identity, q.ack, q.strict)
  {
    AckHappens(h, q, k);
    hide AckPart, HighWater, Mine, UpTo, Between;
  }

  /** Another identity's cursor stands still over a whole round, wherever it stops. */
  lemma RoundLeavesOthers(h: Host, q: Request, bus: Bus, file: seq<Record>, id: string)
    requires q.identity != id
    ensures var c := Round(h, q, bus, file).bus; bus.messages <= c.messages && CurOf(c, id) == CurOf(bus, id)
  {
    ServedLeaves(h, q, bus, file);
    hide RepliesPart, AckPart, MessagesPart;
    RepliesLeave(h, q, Served(h, q, bus, file));
  }

  /** So it does over any step of the bus that is no receive, ack or delivery report of its own. */
  lemma EventLeaves(w: World, b: Bus, e: Event, id: string)
    requires !((e.Received? || e.Acked? || e.Marked?) && e.a == id)
    ensures b.messages <= Step(w, b, e).messages && CurOf(Step(w, b, e), id) == CurOf(b, id)
  {
    hide SendFault, ReplayAll, MarkDelivered, GateWorks, Candidates, AckTarget, Page, Mine, UpTo, Peek, SiftPage, Between;
    match e
    case Peeked(x, limit, g) => PeekAudits(w, g, b, x, limit);
    case Marked(x, ids, g) => MarkLeaves(w, g, b, x, ids);
    case Replays(x, limit, g) => ReplayAllAdds(w, g, b, x, Candidates(b, x, limit), id);
    case _ =>
  }
}
