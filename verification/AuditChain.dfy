/**
  The hash chain of the cursor audit (agent_bus.py): one chain per agent, exported
  from a number on, and checked on the other side. An export that verifies from the
  first row on and ends in a hash of the chain is the chain up to there.
*/
module AuditChain {
  import opened Wrappers
  import opened NotaryLog

  /** What a row's hash covers. */
  datatype Content = Content(num: int, ts: int, agent: string, op: string, from: int, to: int, skipped: int, prev: string)

  datatype ChainRow = ChainRow(c: Content, hash: string)

  /** `_audit_row_hash`, which tells contents apart. */
  type Hasher = Content -> string

  ghost predicate TellsContents(h: Hasher) { forall x, y :: h(x) == h(y) ==> x == y }

  // ---------------------------------------------------------------- the table

  /** One agent's rows, oldest first. */
  function OfAgent(rows: seq<ChainRow>, a: string): (out: seq<ChainRow>)
    ensures forall i | 0 <= i < |out| :: out[i].c.agent == a
  {
    if rows == [] then []
    else
      var r := rows[|rows| - 1];
      if r.c.agent == a then OfAgent(rows[..|rows| - 1], a) + [r] else OfAgent(rows[..|rows| - 1], a)
  }

  function NextRow(h: Hasher, rows: seq<ChainRow>, a: string, op: string, from: int, to: int, skipped: int, ts: int): ChainRow {
    var mine := OfAgent(rows, a);
    var c := Content(if mine == [] then 0 else mine[|mine| - 1].c.num + 1, ts, a, op, from, to, skipped,
                     if mine == [] then GENESIS else mine[|mine| - 1].hash);
    ChainRow(c, h(c))
  }

  datatype Append = Append(a: string, op: string, from: int, to: int, skipped: int, ts: int)

  function TableAfter(h: Hasher, calls: seq<Append>): seq<ChainRow> {
    if calls == [] then []
    else
      var rows, x := TableAfter(h, calls[..|calls| - 1]), calls[|calls| - 1];
      rows + [NextRow(h, rows, x.a, x.op, x.from, x.to, x.skipped, x.ts)]
  }

  /** `audit_export`: the agent's rows from a number on. */
  function Export(rows: seq<ChainRow>, a: string, from: int): seq<ChainRow> { FromNum(OfAgent(rows, a), from) }

  function FromNum(rows: seq<ChainRow>, from: int): seq<ChainRow> {
    if rows == [] then []
    else if rows[|rows| - 1].c.num >= from then FromNum(rows[..|rows| - 1], from) + [rows[|rows| - 1]]
    else FromNum(rows[..|rows| - 1], from)
  }

  // ------------------------------------------------------------------ the check

  datatype Fault = HashMismatch | ChainBreak | SeqGap | WrongStart

  datatype Report = Report(ok: bool, chainOk: bool, errors: seq<(int, Fault)>, anchored: bool)

  /** The errors of the first n rows. */
  function Errors(h: Hasher, rows: seq<ChainRow>, n: nat): seq<(int, Fault)>
    requires n <= |rows|
  {
    if n == 0 then []
    else
      var r := rows[n - 1];
      Errors(h, rows, n - 1)
      + (if h(r.c) != r.hash then [(r.c.num, HashMismatch)] else [])
      + (if n > 1 && r.c.prev != rows[n - 2].hash then [(r.c.num, ChainBreak)] else [])
      + (if n > 1 && r.c.num != rows[n - 2].c.num + 1 then [(r.c.num, SeqGap)] else [])
  }

  predicate AnchoredAt(rows: seq<ChainRow>, start: Option<string>) {
    rows != [] && if start.Some? then rows[0].c.prev == start.value else rows[0].c.num == 0 && rows[0].c.prev == GENESIS
  }

  /** `audit_chain_verify`: the chain's integrity, and whether the slice is anchored. */
  function Verified(h: Hasher, rows: seq<ChainRow>, start: Option<string>): Report {
    var errors := Errors(h, rows, |rows|);
    var anchored := AnchoredAt(rows, start);
    var all := if rows != [] && start.Some? && !anchored then errors + [(rows[0].c.num, WrongStart)] else errors;
    Report(all == [] && anchored, all == [], all, anchored)
  }

  method VerifyChain(h: Hasher, rows: seq<ChainRow>, start: Option<string>) returns (rep: Report)
    ensures rep == Verified(h, rows, start)
  {
    var errors: seq<(int, Fault)> := [];
    var prev: Option<ChainRow> := None;
    for i := 0 to |rows|
      invariant errors == Errors(h, rows, i)
      invariant prev == if i == 0 then None else Some(rows[i - 1])
    {
      var r := rows[i];
      if h(r.c) != r.hash {
        errors := errors + [(r.c.num, HashMismatch)];
      }
      if prev.Some? {
        if r.c.prev != prev.value.hash {
          errors := errors + [(r.c.num, ChainBreak)];
        }
        if r.c.num != prev.value.c.num + 1 {
          errors := errors + [(r.c.num, SeqGap)];
        }
      }
      prev := Some(r);
    }
    var anchored := AnchoredAt(rows, start);
    if rows != [] && start.Some? && !anchored {
      errors := errors + [(rows[0].c.num, WrongStart)];
    }
    rep := Report(errors == [] && anchored, errors == [], errors, anchored);
  }

  class AuditTable {
    const h: Hasher
    var rows: seq<ChainRow>

    constructor (h: Hasher)
      ensures this.h == h && rows == []
    {
      this.h := h;
      rows := [];
    }

    /** In the caller's transaction: the row continues the agent's own chain. */
    method AppendRow(a: string, op: string, from: int, to: int, skipped: int, ts: int)
      modifies this`rows
      ensures rows == old(rows) + [NextRow(h, old(rows), a, op, from, to, skipped, ts)]
    {
      var last: Option<ChainRow> := None;
      for i := 0 to |rows|
        invariant rows == old(rows)
        invariant var mine := OfAgent(rows[..i], a);
                  last == if mine == [] then None else Some(mine[|mine| - 1])
      {
        assert rows[..i + 1][..i] == rows[..i];
        if rows[i].c.agent == a {
          last := Some(rows[i]);
        }
      }
      assert rows[..|rows|] == rows;
      var c := if last.Some? then Content(last.value.c.num + 1, ts, a, op, from, to, skipped, last.value.hash)
               else Content(0, ts, a, op, from, to, skipped, GENESIS);
      rows := rows + [ChainRow(c, h(c))];
    }
  }

  // ----------------------------------------------------------------- the chain

  /** Row i has number i, its own hash, and its predecessor's. */
  predicate LinkOk(h: Hasher, rows: seq<ChainRow>, i: nat)
    requires i < |rows|
  {
    rows[i].c.num == i && rows[i].hash == h(rows[i].c) && rows[i].c.prev == if i == 0 then GENESIS else rows[i - 1].hash
  }

  predicate Chain(h: Hasher, rows: seq<ChainRow>) { forall i | 0 <= i < |rows| :: LinkOk(h, rows, i) }

  lemma ChainMore(h: Hasher, rows: seq<ChainRow>, r: ChainRow)
    requires Chain(h, rows) && r.c.num == |rows| && r.hash == h(r.c)
    requires r.c.prev == if rows == [] then GENESIS else rows[|rows| - 1].hash
    ensures Chain(h, rows + [r])
  {
    forall i | 0 <= i < |rows + [r]| ensures LinkOk(h, rows + [r], i) {
      assert i < |rows| ==> LinkOk(h, rows, i);
    }
  }

  /** Every agent's rows form one chain, however the appends interleave. */
  lemma {:induction false} EveryTableIsChained(h: Hasher, calls: seq<Append>, a: string)
    ensures Chain(h, OfAgent(TableAfter(h, calls), a))
  {
    if calls != [] {
      EveryTableIsChained(h, calls[..|calls| - 1], a);
      var rows, x := TableAfter(h, calls[..|calls| - 1]), calls[|calls| - 1];
      var r := NextRow(h, rows, x.a, x.op, x.from, x.to, x.skipped, x.ts);
      assert (rows + [r])[..|rows|] == rows;
      if x.a == a {
        var mine := OfAgent(rows, a);
        assert mine != [] ==> LinkOk(h, mine, |mine| - 1);
        ChainMore(h, mine, r);
      }
    }
  }

  lemma {:induction false} FromNumOfChain(h: Hasher, rows: seq<ChainRow>, from: int)
    requires Chain(h, rows)
    ensures FromNum(rows, from) == rows[if from < 0 then 0 else if from < |rows| then from else |rows|..]
  {
    if rows != [] {
      var init := rows[..|rows| - 1];
      assert Chain(h, init) by {
        forall i | 0 <= i < |init| ensures LinkOk(h, init, i) {
          assert LinkOk(h, rows, i);
        }
      }
      FromNumOfChain(h, init, from);
      assert LinkOk(h, rows, |rows| - 1);
      var k := if from < 0 then 0 else from;
      if k <= |init| {
        assert rows[k..] == init[k..] + [rows[|rows| - 1]];
      }
    }
  }

  lemma {:induction false} SliceHasNoErrors(h: Hasher, rows: seq<ChainRow>, k: nat, n: nat)
    requires Chain(h, rows) && k <= |rows| && n <= |rows| - k
    ensures Errors(h, rows[k..], n) == []
  {
    if n > 0 {
      SliceHasNoErrors(h, rows, k, n - 1);
      assert LinkOk(h, rows, k + n - 1);
      assert rows[k..][n - 1] == rows[k + n - 1];
      if n > 1 {
        assert LinkOk(h, rows, k + n - 2);
        assert rows[k..][n - 2] == rows[k + n - 2];
      }
    }
  }

  /**
    Every export of every table passes the check; it counts as anchored by itself
    exactly if it begins with the agent's first row, and from any later row if the
    hash before it is known.
  */
  lemma EveryExportVerifies(h: Hasher, calls: seq<Append>, a: string, from: int)
    ensures var all, x := OfAgent(TableAfter(h, calls), a), Export(TableAfter(h, calls), a, from);
            && Verified(h, x, None).chainOk
            && (Verified(h, x, None).ok <==> from <= 0 && all != [])
            && (0 < from < |all| ==> Verified(h, x, Some(all[from - 1].hash)).ok)
  {
    var all := OfAgent(TableAfter(h, calls), a);
    EveryTableIsChained(h, calls, a);
    FromNumOfChain(h, all, from);
    var k := if from < 0 then 0 else if from < |all| then from else |all|;
    SliceHasNoErrors(h, all, k, |all| - k);
    if k < |all| {
      assert LinkOk(h, all, k);
    }
  }

  /** A chain without errors: hashes recompute and each row names the one before. */
  lemma {:induction false} NoErrorsMeans(h: Hasher, rows: seq<ChainRow>, n: nat)
    requires n <= |rows| && Errors(h, rows, n) == []
    ensures forall i | 0 <= i < n :: h(rows[i].c) == rows[i].hash
    ensures forall i | 1 <= i < n :: rows[i].c.prev == rows[i - 1].hash && rows[i].c.num == rows[i - 1].c.num + 1
  {
    if n > 0 {
      NoErrorsMeans(h, rows, n - 1);
    }
  }

  lemma {:induction false} NumbersCount(rows: seq<ChainRow>, n: nat)
    requires n < |rows| && rows[0].c.num == 0
    requires forall i | 1 <= i < |rows| :: rows[i].c.num == rows[i - 1].c.num + 1
    ensures rows[n].c.num == n
  {
    if n > 0 {
      NumbersCount(rows, n - 1);
    }
  }

  /** Backwards from a shared hash, every row agrees. */
  lemma {:induction false} SharedHashAgrees(h: Hasher, x: seq<ChainRow>, all: seq<ChainRow>, m: nat, d: nat)
    requires TellsContents(h) && Chain(h, all) && d <= m < |x| && m < |all| && x[m].hash == all[m].hash
    requires forall i | 0 <= i < |x| :: h(x[i].c) == x[i].hash
    requires forall i | 1 <= i < |x| :: x[i].c.prev == x[i - 1].hash
    ensures x[m - d] == all[m - d]
  {
    assert LinkOk(h, all, m - d);
    if d > 0 {
      SharedHashAgrees(h, x, all, m, d - 1);
      assert LinkOk(h, all, m - d + 1);
    }
  }

  /**
    Tamper evidence: an export that verifies from the first row on and ends in the
    hash of row m of the chain is exactly the chain's first m + 1 rows.
  */
  lemma VerifiedExportIsTheChain(h: Hasher, calls: seq<Append>, a: string, x: seq<ChainRow>, m: nat)
    requires TellsContents(h) && Verified(h, x, None).ok
    requires m < |OfAgent(TableAfter(h, calls), a)| && x[|x| - 1].hash == OfAgent(TableAfter(h, calls), a)[m].hash
    ensures x == OfAgent(TableAfter(h, calls), a)[..m + 1]
  {
    var all := OfAgent(TableAfter(h, calls), a);
    EveryTableIsChained(h, calls, a);
    NoErrorsMeans(h, x, |x|);
    NumbersCount(x, |x| - 1);
    assert LinkOk(h, all, m);
    assert x[|x| - 1].c == all[m].c;
    assert |x| - 1 == m;
    forall i | 0 <= i <= m ensures x[i] == all[i] {
      SharedHashAgrees(h, x, all, m, m - i);
    }
  }
}
