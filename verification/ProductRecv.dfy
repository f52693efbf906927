/** Consuming receives in product mode (agent_bus.py, bus_enforce.py): each page splits, each signed content passes once. */
module ProductRecv {
  import opened BusState
  import opened Enforce
  import opened BusOps

  function At(b: Bus, id: int): Msg
    requires 1 <= id <= |b.messages|
  {
    b.messages[id - 1]
  }

  /** The row passes the gate, and nothing with its signed content passed before: not in the store, not on this page. */
  predicate Fresh(w: World, g: Gate, b: Bus, a: string, ids: seq<int>, k: int)
    requires g.Product? && InTable(b, ids) && 0 <= k < |ids|
  {
    && Judge(w, g, At(b, ids[k])) == Pass
    && (a, w.key(At(b, ids[k]))) !in b.seen
    && forall j | 0 <= j < k && Judge(w, g, At(b, ids[j])) == Pass :: w.key(At(b, ids[j])) != w.key(At(b, ids[k]))
  }

  /** The first n verdicts, without a store: what passes, and the keys that go with it. */
  predicate KeysSoFar(w: World, g: Gate, b: Bus, a: string, ids: seq<int>, seen: set<(string, string)>)
    requires g.Product? && InTable(b, ids)
  {
    && b.seen <= seen
    && (forall j | 0 <= j < |ids| && Judge(w, g, At(b, ids[j])) == Pass :: (a, w.key(At(b, ids[j]))) in seen)
    && (forall p | p in seen && p !in b.seen ::
          exists j :: 0 <= j < |ids| && Judge(w, g, At(b, ids[j])) == Pass && p == (a, w.key(At(b, ids[j]))))
  }

  lemma {:induction false} SiftKeys(w: World, g: Gate, b: Bus, a: string, ids: seq<int>)
    requires g.Product? && InTable(b, ids)
    ensures Sift(w, g, b, a, ids, true).Raised? <==> exists j :: 0 <= j < |ids| && Judge(w, g, At(b, ids[j])) == Raise
    ensures Sift(w, g, b, a, ids, true).Sifted? ==> KeysSoFar(w, g, b, a, ids, Sift(w, g, b, a, ids, true).seen)
  {
    hide Judge;
    if ids != [] {
      var init := ids[..|ids| - 1];
      SiftKeys(w, g, b, a, init);
      assert forall j | 0 <= j < |init| :: init[j] == ids[j];
      assert ids[|init|] == ids[|ids| - 1];
    }
  }

  lemma FreshByStore(w: World, g: Gate, b: Bus, a: string, ids: seq<int>, k: int, seen: set<(string, string)>)
    requires g.Product? && InTable(b, ids) && 0 <= k < |ids|
    requires KeysSoFar(w, g, b, a, ids[..k], seen)
    ensures Fresh(w, g, b, a, ids, k)
       <==> Judge(w, g, At(b, ids[k])) == Pass && (a, w.key(At(b, ids[k]))) !in seen
  {
    hide Judge;
    assert forall j | 0 <= j < k :: ids[..k][j] == ids[j];
  }

  predicate Rejects(rejected: seq<(int, string)>, id: int) { exists i :: 0 <= i < |rejected| && rejected[i].0 == id }

  /** The first n rows of a page are kept or rejected, by membership in `good`, in page order and once each. */
  ghost predicate Split(page: seq<int>, n: int, good: set<int>, kept: seq<int>, rejected: seq<(int, string)>)
    requires 0 <= n <= |page|
  {
    && |kept| + |rejected| == n
    && (forall id :: id in kept <==> id in page[..n] && id in good)
    && (forall id :: Rejects(rejected, id) <==> id in page[..n] && id !in good)
    && (forall i, j | 0 <= i < j < |kept| :: kept[i] < kept[j])
    && (forall i, j | 0 <= i < j < |rejected| :: rejected[i].0 < rejected[j].0)
  }

  lemma TakeOne(page: seq<int>, n: nat)
    requires n < |page| && forall i, j | 0 <= i < j < |page| :: page[i] < page[j]
    ensures forall id :: id in page[..n + 1] <==> id in page[..n] || id == page[n]
    ensures forall id | id in page[..n] :: id < page[n]
  {
    assert page[..n + 1] == page[..n] + [page[n]];
  }

  lemma RejectsMore(rejected: seq<(int, string)>, r: (int, string))
    ensures forall id :: Rejects(rejected + [r], id) <==> Rejects(rejected, id) || id == r.0
  {
    forall id ensures Rejects(rejected + [r], id) <==> Rejects(rejected, id) || id == r.0 {
      assert (rejected + [r])[|rejected|] == r;
      if Rejects(rejected, id) {
        var i :| 0 <= i < |rejected| && rejected[i].0 == id;
        assert (rejected + [r])[i].0 == id;
      }
    }
  }

  lemma SplitKeeps(page: seq<int>, n: nat, good: set<int>, kept: seq<int>, rejected: seq<(int, string)>)
    requires n < |page| && forall i, j | 0 <= i < j < |page| :: page[i] < page[j]
    requires Split(page, n, good, kept, rejected) && page[n] in good
    ensures Split(page, n + 1, good, kept + [page[n]], rejected)
  {
    hide Rejects;
    TakeOne(page, n);
    assert forall i | 0 <= i < |kept| :: kept[i] in kept;
  }

  lemma SplitRejects(page: seq<int>, n: nat, good: set<int>, kept: seq<int>, rejected: seq<(int, string)>, why: string)
    requires n < |page| && forall i, j | 0 <= i < j < |page| :: page[i] < page[j]
    requires Split(page, n, good, kept, rejected) && page[n] !in good
    ensures Split(page, n + 1, good, kept, rejected + [(page[n], why)])
  {
    TakeOne(page, n);
    RejectsMore(rejected, (page[n], why));
    forall i | 0 <= i < |rejected| ensures rejected[i].0 < page[n] {
      assert Rejects(rejected, rejected[i].0);
    }
    hide Rejects;
  }

  /** The fresh rows of a page. */
  function FreshIds(w: World, g: Gate, b: Bus, a: string, page: seq<int>): set<int>
    requires g.Product? && InTable(b, page)
  {
    set k | 0 <= k < |page| && Fresh(w, g, b, a, page, k) :: page[k]
  }

  lemma FreshAt(w: World, g: Gate, b: Bus, a: string, page: seq<int>, n: nat)
    requires g.Product? && InTable(b, page) && n < |page|
    requires forall i, j | 0 <= i < j < |page| :: page[i] < page[j]
    requires Sift(w, g, b, a, page[..n], true).Sifted?
    ensures page[n] in FreshIds(w, g, b, a, page)
       <==> && Judge(w, g, At(b, page[n])) == Pass
            && (a, w.key(At(b, page[n]))) !in Sift(w, g, b, a, page[..n], true).seen
  {
    hide Judge, Sift;
    SiftKeys(w, g, b, a, page[..n]);
    FreshByStore(w, g, b, a, page, n, Sift(w, g, b, a, page[..n], true).seen);
    hide Fresh, KeysSoFar;
    if page[n] in FreshIds(w, g, b, a, page) {
      var k :| 0 <= k < |page| && Fresh(w, g, b, a, page, k) && page[k] == page[n];
      assert k == n;
    }
  }

  lemma {:induction false} SiftSplits(w: World, g: Gate, b: Bus, a: string, page: seq<int>, n: nat)
    requires g.Product? && InTable(b, page) && n <= |page|
    requires forall i, j | 0 <= i < j < |page| :: page[i] < page[j]
    requires Sift(w, g, b, a, page[..n], true).Sifted?
    ensures var s := Sift(w, g, b, a, page[..n], true);
            Split(page, n, FreshIds(w, g, b, a, page), s.kept, s.rejected)
  {
    PrefixInTable(b, page, n);
    if n > 0 {
      PrefixInTable(b, page, n - 1);
      hide Judge, FreshIds, Split;
      hide Sift, Check, Fresh, InTable;
      assert page[..n][..n - 1] == page[..n - 1] && page[..n][n - 1] == page[n - 1];
      SiftOne(w, g, b, a, page[..n]);
      SiftSplits(w, g, b, a, page, n - 1);
      FreshAt(w, g, b, a, page, n - 1);
      var s := Sift(w, g, b, a, page[..n - 1], true);
      var v := Check(w, g, s.seen, a, At(b, page[n - 1]), true).0;
      if v == Pass {
        SplitKeeps(page, n - 1, FreshIds(w, g, b, a, page), s.kept, s.rejected);
      } else {
        SplitRejects(page, n - 1, FreshIds(w, g, b, a, page), s.kept, s.rejected, v.why);
      }
    }
  }

  lemma PrefixInTable(b: Bus, page: seq<int>, n: nat)
    requires InTable(b, page) && n <= |page|
    ensures InTable(b, page[..n]) && (n > 0 ==> 1 <= page[n - 1] <= |b.messages|)
  {
  }

  /** The last row of a sifted list goes to one side, by the verdict against the store so far. */
  lemma SiftOne(w: World, g: Gate, b: Bus, a: string, ids: seq<int>)
    requires g.Product? && InTable(b, ids) && ids != [] && Sift(w, g, b, a, ids, true).Sifted?
    ensures InTable(b, ids[..|ids| - 1])
    ensures var s, t, id := Sift(w, g, b, a, ids[..|ids| - 1], true), Sift(w, g, b, a, ids, true), ids[|ids| - 1];
            && s.Sifted?
            && var v := Check(w, g, s.seen, a, At(b, id), true).0;
               && !v.Raise?
               && (v == Pass <==> Judge(w, g, At(b, id)) == Pass && (a, w.key(At(b, id))) !in s.seen)
               && t.kept == (if v == Pass then s.kept + [id] else s.kept)
               && t.rejected == (if v == Pass then s.rejected else s.rejected + [(id, v.why)])
               && t.seen == (if v == Pass then s.seen + {(a, w.key(At(b, id)))} else s.seen)
  {
    hide Judge;
  }

  // ---------------------------------------------------------------- one receive

  /** Some row of the page makes enforcement fail. */
  predicate PageRaises(w: World, g: Gate, b: Bus, page: seq<int>)
    requires g.Product? && InTable(b, page)
  {
    exists j :: 0 <= j < |page| && Judge(w, g, At(b, page[j])) == Raise
  }

  predicate NamesReject(rows: seq<Row>, id: int) { exists i :: 0 <= i < |rows| && rows[i].from == id }

  /** One `enforce_reject` row for each row of the page outside `good`, in page order. */
  ghost predicate RejectLog(rows: seq<Row>, a: string, page: seq<int>, good: set<int>) {
    && (forall i | 0 <= i < |rows| ::
          rows[i].agent == a && rows[i].to == rows[i].from && rows[i].op.EnforceReject? && rows[i].skipped == 1)
    && (forall i, j | 0 <= i < j < |rows| :: rows[i].from < rows[j].from)
    && (forall id :: NamesReject(rows, id) <==> id in page && id !in good)
  }

  lemma RejectRowsAre(a: string, page: seq<int>, good: set<int>, kept: seq<int>, rejected: seq<(int, string)>)
    requires Split(page, |page|, good, kept, rejected)
    ensures RejectLog(RejectRows(a, rejected), a, page, good)
  {
    var rows := RejectRows(a, rejected);
    assert page[..|page|] == page;
    forall id ensures NamesReject(rows, id) <==> Rejects(rejected, id) {
      if Rejects(rejected, id) {
        var i :| 0 <= i < |rejected| && rejected[i].0 == id;
        assert rows[i].from == id;
      }
      if NamesReject(rows, id) {
        var i :| 0 <= i < |rows| && rows[i].from == id;
        assert rejected[i].0 == id;
      }
    }
  }

  predicate Highest(ids: seq<int>, top: int) {
    if ids == [] then top == 0 else top in ids && forall i | 0 <= i < |ids| :: ids[i] <= top
  }

  /** The state after a receive whose page nothing on made enforcement fail. */
  ghost predicate Consumed(w: World, g: Gate, b: Bus, a: string, page: seq<int>, c: Bus, out: seq<int>)
    requires g.Product? && InTable(b, page) && page != []
  {
    var good, top := FreshIds(w, g, b, a, page), page[|page| - 1];
    && (forall id :: id in out <==> id in good)
    && (forall i, j | 0 <= i < j < |out| :: out[i] < out[j])
    && c.messages == b.messages
    && c.read == b.read + good
    && (exists acc :: Highest(out, acc) &&
          c.cursors == b.cursors[a := Cur(top, if CurOf(b, a).delivered > acc then CurOf(b, a).delivered else acc)])
    && |b.audit| < |c.audit| == |b.audit| + (|page| - |out|) + 1
    && c.audit[..|b.audit|] == b.audit
    && RejectLog(c.audit[|b.audit|..|c.audit| - 1], a, page, good)
    && c.audit[|c.audit| - 1] == Row(a, CurOf(b, a).last, top, RecvMark, |page| - |out|)
  }

  lemma PageFacts(b: Bus, a: string, limit: int)
    ensures InTable(b, Page(b, a, limit))
    ensures forall i, j | 0 <= i < j < |Page(b, a, limit)| :: Page(b, a, limit)[i] < Page(b, a, limit)[j]
  {
    PageInRange(b, a, limit);
    PageIsPrefix(b, a, limit);
  }

  lemma Tail(x: seq<Row>, y: seq<Row>, r: Row)
    ensures var z := x + y + [r];
            && |z| == |x| + |y| + 1 && z[..|x|] == x && z[|x|..|z| - 1] == y && z[|z| - 1] == r
  {
  }

  lemma GoodOnPage(w: World, g: Gate, b: Bus, a: string, page: seq<int>)
    requires g.Product? && InTable(b, page)
    ensures forall id | id in FreshIds(w, g, b, a, page) :: id in page
  {
    hide Fresh;
  }

  lemma SplitSets(page: seq<int>, good: set<int>, kept: seq<int>, rejected: seq<(int, string)>)
    requires Split(page, |page|, good, kept, rejected)
    ensures forall id :: id in kept <==> id in page && id in good
    ensures forall i, j | 0 <= i < j < |kept| :: kept[i] < kept[j]
    ensures |rejected| == |page| - |kept|
  {
    assert page[..|page|] == page;
  }

  lemma EnforcedFields(w: World, g: Gate, b: Bus, a: string, limit: int, s: Sifted)
    requires g.Product? && Page(b, a, limit) != []
    requires InTable(b, Page(b, a, limit)) && s == Sift(w, g, b, a, Page(b, a, limit), true) && s.Sifted?
    requires forall i, j | 0 <= i < j < |s.kept| :: s.kept[i] < s.kept[j]
    ensures var (c, out) := RecvEnforced(w, g, b, a, limit);
            var page := Page(b, a, limit);
            var top := page[|page| - 1];
            && out == s.kept
            && c.messages == b.messages
            && c.read == b.read + (set i | i in s.kept)
            && (exists acc :: Highest(out, acc) &&
                  c.cursors == b.cursors[a := Cur(top, if CurOf(b, a).delivered > acc then CurOf(b, a).delivered else acc)])
            && c.audit == b.audit + RejectRows(a, s.rejected) + [Row(a, CurOf(b, a).last, top, RecvMark, |s.rejected|)]
            && c.seen == s.seen
  {
    hide Sift, Page, CurOf;
    var acc := if s.kept == [] then 0 else s.kept[|s.kept| - 1];
    assert Highest(s.kept, acc);
  }

  /**
    A consuming receive in product mode: the page's fresh rows are handed out and
    read, every other row keeps its read mark and gets one `enforce_reject` row, and
    their number is the skip count of the `recv_mark` row. If enforcement fails on
    any row, nothing changes.
  */
  lemma ReceiveSplitsPage(w: World, g: Gate, b: Bus, a: string, limit: int)
    requires g.Product?
    ensures InTable(b, Page(b, a, limit))
    ensures var (c, out) := RecvEnforced(w, g, b, a, limit);
            var page := Page(b, a, limit);
            if page == [] || PageRaises(w, g, b, page) then c == b && out == []
            else Consumed(w, g, b, a, page, c, out)
  {
    var (c, out) := RecvEnforced(w, g, b, a, limit);
    var page := Page(b, a, limit);
    PageFacts(b, a, limit);
    SiftKeys(w, g, b, a, page);
    assert page[..|page|] == page;
    if page != [] && !PageRaises(w, g, b, page) {
      SiftSplits(w, g, b, a, page, |page|);
      var s, good := Sift(w, g, b, a, page, true), FreshIds(w, g, b, a, page);
      RejectRowsAre(a, page, good, s.kept, s.rejected);
      hide Sift, FreshIds, RejectLog, Judge, Page;
      SplitSets(page, good, s.kept, s.rejected);
      EnforcedFields(w, g, b, a, limit, s);
      var top := page[|page| - 1];
      Tail(b.audit, RejectRows(a, s.rejected), Row(a, CurOf(b, a).last, top, RecvMark, |s.rejected|));
      GoodOnPage(w, g, b, a, page);
    }
  }

  // ---------------------------------------------------------------------- runs

  function KeysOf(w: World, b: Bus, ids: seq<int>): seq<string> {
    if ids == [] then []
    else
      var id := ids[|ids| - 1];
      var so := KeysOf(w, b, ids[..|ids| - 1]);
      if 1 <= id <= |b.messages| then so + [w.key(At(b, id))] else so
  }

  /** The contents one event lets through to the agent. */
  function AcceptedBy(w: World, b: Bus, e: Event, a: string): seq<string> {
    if e.Received? && e.a == a && e.g.Product? then KeysOf(w, b, RecvEnforced(w, e.g, b, a, e.limit).1) else []
  }

  /** All the signed contents a run lets through to the agent, in order. */
  function Accepted(w: World, events: seq<Event>, a: string): seq<string> {
    if events == [] then []
    else
      var init := events[..|events| - 1];
      Accepted(w, init, a) + AcceptedBy(w, Run(w, init), events[|events| - 1], a)
  }

  /** The keys of the store are those let through, each once. */
  ghost predicate OnceEach(keys: seq<string>, a: string, seen: set<(string, string)>) {
    && (forall i, j | 0 <= i < j < |keys| :: keys[i] != keys[j])
    && (forall k :: (a, k) in seen <==> k in keys)
  }

  lemma {:induction false} SiftAdds(w: World, g: Gate, b: Bus, a: string, ids: seq<int>, keys: seq<string>)
    requires g.Product? && InTable(b, ids) && OnceEach(keys, a, b.seen)
    requires Sift(w, g, b, a, ids, true).Sifted?
    ensures var s := Sift(w, g, b, a, ids, true);
            OnceEach(keys + KeysOf(w, b, s.kept), a, s.seen)
    ensures forall p | p in Sift(w, g, b, a, ids, true).seen :: p in b.seen || p.0 == a
    ensures b.seen <= Sift(w, g, b, a, ids, true).seen
    ensures InTable(b, Sift(w, g, b, a, ids, true).kept)
  {
    hide Judge, Check, InTable;
    if ids == [] {
      assert keys + KeysOf(w, b, []) == keys;
    } else {
      var init, id := ids[..|ids| - 1], ids[|ids| - 1];
      PrefixInTable(b, ids, |ids|);
      SiftOne(w, g, b, a, ids);
      hide Sift;
      SiftAdds(w, g, b, a, init, keys);
      var s, t := Sift(w, g, b, a, init, true), Sift(w, g, b, a, ids, true);
      if t.kept != s.kept {
        OneMoreKey(w, b, a, s.kept, id, keys, s.seen);
        TableMore(b, s.kept, id);
      }
    }
  }

  lemma TableMore(b: Bus, ids: seq<int>, id: int)
    requires InTable(b, ids) && 1 <= id <= |b.messages|
    ensures InTable(b, ids + [id])
  {
  }

  lemma OneMoreKey(w: World, b: Bus, a: string, kept: seq<int>, id: int, keys: seq<string>, seen: set<(string, string)>)
    requires 1 <= id <= |b.messages| && OnceEach(keys + KeysOf(w, b, kept), a, seen) && (a, w.key(At(b, id))) !in seen
    ensures OnceEach(keys + KeysOf(w, b, kept + [id]), a, seen + {(a, w.key(At(b, id)))})
  {
    hide OnceEach;
    var k := w.key(At(b, id));
    assert (kept + [id])[..|kept|] == kept;
    OnceMore(keys + KeysOf(w, b, kept), a, seen, k);
    assert keys + KeysOf(w, b, kept + [id]) == keys + KeysOf(w, b, kept) + [k];
  }

  lemma OnceMore(keys: seq<string>, a: string, seen: set<(string, string)>, k: string)
    requires OnceEach(keys, a, seen) && (a, k) !in seen
    ensures OnceEach(keys + [k], a, seen + {(a, k)})
  {
    assert k !in keys;
    forall i | 0 <= i < |keys| ensures keys[i] != k {
      assert keys[i] in keys;
    }
  }

  /** The store and the rows handed out after a receive are what the sifting of the page leaves. */
  lemma EnforcedSeen(w: World, g: Gate, b: Bus, x: string, limit: int)
    requires g.Product?
    ensures var (c, out) := RecvEnforced(w, g, b, x, limit);
            var s := SiftPage(w, g, b, x, limit, true);
            if s.Raised? || Page(b, x, limit) == [] then c.seen == b.seen && out == [] else c.seen == s.seen && out == s.kept
  {
    hide SiftPage, Page;
  }

  lemma AcceptKeeps(w: World, b: Bus, x: string, limit: int, g: Gate, a: string, keys: seq<string>)
    requires OnceEach(keys, a, b.seen)
    ensures OnceEach(keys + AcceptedBy(w, b, Received(x, limit, g), a), a, Recv(w, g, b, x, limit).0.seen)
  {
    assert keys + [] == keys;
    if g.Product? {
      EnforcedSeen(w, g, b, x, limit);
      PageFacts(b, x, limit);
      var page := Page(b, x, limit);
      hide RecvEnforced, Page, Sift, OnceEach;
      if Sift(w, g, b, x, page, true).Sifted? && page != [] {
        if x == a {
          SiftAdds(w, g, b, a, page, keys);
        } else {
          OthersKeys(w, g, b, x, page, a);
          SameKeys(keys, a, b.seen, Sift(w, g, b, x, page, true).seen);
        }
      }
    }
  }

  lemma SameKeys(keys: seq<string>, a: string, seen: set<(string, string)>, now: set<(string, string)>)
    requires OnceEach(keys, a, seen) && forall k :: (a, k) in now <==> (a, k) in seen
    ensures OnceEach(keys, a, now)
  {
  }

  lemma {:induction false} OthersKeys(w: World, g: Gate, b: Bus, x: string, ids: seq<int>, a: string)
    requires g.Product? && InTable(b, ids) && x != a && Sift(w, g, b, x, ids, true).Sifted?
    ensures forall k :: (a, k) in Sift(w, g, b, x, ids, true).seen <==> (a, k) in b.seen
  {
    hide Judge;
    if ids != [] {
      OthersKeys(w, g, b, x, ids[..|ids| - 1], a);
    }
  }

  lemma {:induction false} ReplaySeen(w: World, g: Gate, b: Bus, x: string, ids: seq<int>)
    ensures ReplayAll(w, g, b, x, ids).seen == b.seen
    decreases |ids|
  {
    hide Carries, SendFault, Copy, ReplayedFrom;
    if ids != [] && 1 <= ids[0] <= |b.messages| && ReplayOne(w, g, b, x, ids[0]).Some? {
      ReplaySeen(w, g, ReplayOne(w, g, b, x, ids[0]).value, x, ids[1..]);
    }
  }

  lemma SeenStays(w: World, b: Bus, e: Event)
    requires !e.Received? && !e.Replays?
    ensures Step(w, b, e).seen == b.seen
  {
    hide SendFault, SiftPage, NewRejects, AckTarget, RefusedIds, WaterLevel, Mine, UpTo, Between;
  }

  lemma SeenByStep(w: World, b: Bus, e: Event, a: string, keys: seq<string>)
    requires OnceEach(keys, a, b.seen)
    ensures OnceEach(keys + AcceptedBy(w, b, e, a), a, Step(w, b, e).seen)
  {
    hide OnceEach, Recv, ReplayAll, Candidates, GateWorks;
    if e.Received? {
      AcceptKeeps(w, b, e.a, e.limit, e.g, a, keys);
    } else {
      assert keys + [] == keys;
      if e.Replays? {
        ReplaySeen(w, e.g, b, e.a, Candidates(b, e.a, e.limit));
      } else {
        SeenStays(w, b, e);
      }
    }
  }

  /** Over any run, no signed content is let through to the agent twice. */
  lemma {:induction false} EachContentOnce(w: World, events: seq<Event>, a: string)
    ensures OnceEach(Accepted(w, events, a), a, Run(w, events).seen)
  {
    if events != [] {
      hide OnceEach, Step, AcceptedBy;
      var init := events[..|events| - 1];
      EachContentOnce(w, init, a);
      SeenByStep(w, Run(w, init), events[|events| - 1], a, Accepted(w, init, a));
    }
  }
}
