/** What the attachment store keeps over any calls, and that a transfer cut into pieces arrives whole (bus_attach.py). */
module AttachTransfer {
  import opened Wrappers
  import opened NotaryLog
  import opened AttachStore

  datatype Op = PutOp(data: Bytes, media: string) | ChunkOp(d: Desc, c: Chunk, now: int)

  function OpStep(v: Env, f: Files, op: Op): Files {
    match op
    case PutOp(data, media) => Put(v, f, data, media).0
    case ChunkOp(d, c, now) => ReceiveChunk(v, f, d, c, now).0
  }

  function After(v: Env, f: Files, ops: seq<Op>): Files {
    if ops == [] then f else OpStep(v, After(v, f, ops[..|ops| - 1]), ops[|ops| - 1])
  }

  // ---------------------------------------------------------------- integrity

  /** Every stored object hashes to its name. */
  predicate Intact(v: Env, f: Files) { forall h | h in f.objects :: v.digest(f.objects[h]) == h }

  predicate OnlyGrows(f: Files, g: Files) { forall h | h in f.objects :: h in g.objects && g.objects[h] == f.objects[h] }

  lemma OpKeepsObjects(v: Env, f: Files, op: Op)
    requires Intact(v, f)
    ensures Intact(v, OpStep(v, f, op)) && OnlyGrows(f, OpStep(v, f, op))
  {
    hide DescOk;
  }

  /** Under any calls every object hashes to its name, and none ever changes or goes. */
  lemma {:induction false} ObjectsAreForever(v: Env, ops: seq<Op>, n: nat)
    requires n <= |ops|
    ensures Intact(v, After(v, NO_FILES, ops))
    ensures OnlyGrows(After(v, NO_FILES, ops[..n]), After(v, NO_FILES, ops))
  {
    hide OpStep;
    if n == |ops| {
      assert ops[..n] == ops;
    }
    if ops != [] {
      var init := ops[..|ops| - 1];
      ObjectsAreForever(v, init, if n <= |init| then n else |init|);
      OpKeepsObjects(v, After(v, NO_FILES, init), ops[|ops| - 1]);
      if n <= |init| {
        assert init[..n] == ops[..n];
      }
    }
  }

  // --------------------------------------------------------------- refusals

  predicate Live(v: Env, f: Files, h: string, now: int) {
    h in f.parts && f.parts[h].next > 0 && now - f.parts[h].touched < v.stale
  }

  /** The piece completes its transfer, and the whole does not match the descriptor. */
  predicate FailsWhole(v: Env, f: Files, d: Desc, c: Chunk) {
    && c.last && c.num == Expected(f, d.sha) && c.data.Some?
    && |Arrived(f, d.sha)| + |c.data.value| <= d.size
    && !FileOk(v, Arrived(f, d.sha) + c.data.value, d.sha, d.size)
  }

  /**
    Whatever is refused leaves a live transfer, and everything else, as it was; only a
    last piece that fails the check of the whole ends it.
  */
  lemma RefusalLeavesLive(v: Env, f: Files, d: Desc, c: Chunk, now: int)
    requires Live(v, f, d.sha, now) && ReceiveChunk(v, f, d, c, now).1.Err?
    ensures ReceiveChunk(v, f, d, c, now).0 == f || (d.sha !in f.objects && FailsWhole(v, f, d, c))
    ensures !FailsWhole(v, f, d, c) ==> ReceiveChunk(v, f, d, c, now).0 == f
  {
    hide DescOk;
  }

  /** A piece that names another number or overruns the size is refused, and a live transfer stays. */
  lemma OutOfOrderIsRefused(v: Env, f: Files, d: Desc, c: Chunk, now: int)
    requires Live(v, f, d.sha, now) && d.sha !in f.objects
    requires c.num != f.parts[d.sha].next || (c.data.Some? && |f.parts[d.sha].content| + |c.data.value| > d.size)
    ensures ReceiveChunk(v, f, d, c, now) == (f, Err("AttachmentError"))
  {
    hide DescOk;
  }

  /** A name with a trailing newline, which a descriptor may carry, is no digest: nothing is ever stored under it. */
  lemma NewlineNameNeverStored(v: Env, ops: seq<Op>, sha: string)
    requires forall x :: IsHex64(v.digest(x))
    requires sha != "" && sha[|sha| - 1] == '\n'
    ensures sha !in After(v, NO_FILES, ops).objects
  {
    ObjectsAreForever(v, ops, 0);
  }

  // --------------------------------------------------------------- restarts

  /**
    A piece numbered 0 restarts an orphaned transfer of the same content, if there is room:
    it begins anew with that piece, and what had arrived stays in the work files.
  */
  lemma OrphanIsRestarted(v: Env, f: Files, d: Desc, c: Chunk, now: int)
    requires DescOk(v, d) && c.sha == d.sha && c.num == 0 && c.data.Some? && !c.last && |c.data.value| <= d.size
    requires d.sha !in f.objects && Orphaned(v, f, d.sha, now)
    ensures var (g, r) := ReceiveChunk(v, f, d, c, now);
            if f.used + d.size <= v.maxWork then
              r == Ok(None) && g.parts == f.parts[d.sha := Part(c.data.value, 1, now)]
              && g.used == f.used + |c.data.value| && g.objects == f.objects
            else r.Err? && g == f.(parts := f.parts - {d.sha})
  {
    hide DescOk;
    var p := Part(c.data.value, 1, now);
    assert [] + c.data.value == c.data.value;
    assert (f.parts - {d.sha})[d.sha := p] == f.parts[d.sha := p];
  }

  // ------------------------------------------------------------- the round trip

  /**
    A call that leaves the transfer of content h as it is: one for other content, any
    `put`, and a piece of h that is refused without ending or restarting its transfer, or
    that is not needed because h is already stored.
  */
  predicate Benign(v: Env, h: string, g: Files, op: Op) {
    match op
    case PutOp(_, _) => true
    case ChunkOp(d, c, now) =>
      || d.sha != h || h in g.objects
      || (ReceiveChunk(v, g, d, c, now).1.Err? && !(c.num == 0 && Orphaned(v, g, h, now)) && !FailsWhole(v, g, d, c))
  }

  predicate AllBenign(v: Env, h: string, f: Files, ops: seq<Op>) {
    ops == [] || (AllBenign(v, h, f, ops[..|ops| - 1]) && Benign(v, h, After(v, f, ops[..|ops| - 1]), ops[|ops| - 1]))
  }

  /** Stored, or the transfer as it was. */
  predicate LeftAs(f: Files, g: Files, h: string) {
    h in g.objects || (h !in f.objects && (h in g.parts <==> h in f.parts) && (h in f.parts ==> g.parts[h] == f.parts[h]))
  }

  lemma BenignLeaves(v: Env, g: Files, h: string, op: Op)
    requires Benign(v, h, g, op)
    ensures LeftAs(g, OpStep(v, g, op), h)
  {
    hide DescOk;
  }

  lemma {:induction false} AllBenignLeave(v: Env, f: Files, h: string, ops: seq<Op>)
    requires AllBenign(v, h, f, ops) && Intact(v, f)
    ensures LeftAs(f, After(v, f, ops), h) && Intact(v, After(v, f, ops)) && OnlyGrows(f, After(v, f, ops))
  {
    hide OpStep, Benign;
    if ops != [] {
      AllBenignLeave(v, f, h, ops[..|ops| - 1]);
      var g := After(v, f, ops[..|ops| - 1]);
      OpKeepsObjects(v, g, ops[|ops| - 1]);
      BenignLeaves(v, g, h, ops[|ops| - 1]);
    }
  }

  /** The first k pieces of the data, with other calls before each of them. */
  function Fed(v: Env, f: Files, d: Desc, data: Bytes, piece: nat, between: seq<seq<Op>>, times: seq<int>, k: nat): Files
    requires piece > 0 && k <= |between| && k <= |times|
  {
    if k == 0 then f
    else
      var g := After(v, Fed(v, f, d, data, piece, between, times, k - 1), between[k - 1]);
      ReceiveChunk(v, g, d, Piece(d.sha, data, piece, k - 1), times[k - 1]).0
  }

  /** The number of pieces is the least that covers the data. */
  lemma PiecesCover(size: nat, piece: nat)
    requires piece > 0
    ensures PieceCount(size, piece) >= 1
    ensures size <= PieceCount(size, piece) * piece
    ensures size > 0 ==> (PieceCount(size, piece) - 1) * piece < size
  {
    if size > 0 {
      var n := size + piece - 1;
      assert n == piece * (n / piece) + n % piece;
      assert 0 <= n % piece < piece;
      DivAtLeast(n, piece);
    }
  }

  lemma DivAtLeast(n: nat, piece: nat)
    requires piece > 0 && n >= piece
    ensures n / piece >= 1
  {
    assert n == piece * (n / piece) + n % piece;
    assert n % piece < piece;
  }

  /** How much of the data the first k pieces carry. */
  function Carried(size: nat, piece: nat, k: nat): nat { if k * piece < size then k * piece else size }

  lemma CarriedSteps(data: Bytes, piece: nat, k: nat, sha: string)
    requires piece > 0
    ensures data[..Carried(|data|, piece, k)] + Piece(sha, data, piece, k).data.value == data[..Carried(|data|, piece, k + 1)]
  {
    assert (k + 1) * piece == k * piece + piece;
  }

  lemma CarriedAll(size: nat, piece: nat, k: nat)
    requires piece > 0
    ensures k >= PieceCount(size, piece) ==> Carried(size, piece, k) == size
  {
    PiecesCover(size, piece);
    if k >= PieceCount(size, piece) {
      MulGrows(PieceCount(size, piece), k, piece);
    }
  }

  lemma MulGrows(a: nat, b: nat, c: nat)
    requires a <= b
    ensures a * c <= b * c
  {
  }

  /** The content is stored, or its first k pieces have arrived. */
  predicate Underway(v: Env, g: Files, data: Bytes, piece: nat, k: nat) {
    var h := v.digest(data);
    h in g.objects || (h in g.parts && g.parts[h].next == k && g.parts[h].content == data[..Carried(|data|, piece, k)])
  }

  /** The content is stored, or its first piece would be taken: no live transfer is in the way, and there is room. */
  predicate CanStart(v: Env, g: Files, h: string, size: nat, now: int) {
    h in g.objects || ((h !in g.parts || Orphaned(v, g, h, now)) && g.used + size <= v.maxWork)
  }

  lemma PieceTaken(v: Env, g: Files, data: Bytes, media: string, piece: nat, k: nat, now: int)
    requires piece > 0 && DescOk(v, DescOf(v, data, media)) && k < PieceCount(|data|, piece)
    requires v.digest(data) !in g.objects
    requires if k == 0 then CanStart(v, g, v.digest(data), |data|, now) else Underway(v, g, data, piece, k)
    ensures var h, c := v.digest(data), Piece(v.digest(data), data, piece, k);
            var g1 := Restarted(v, g, h, k, now);
            && g1.objects == g.objects && Expected(g1, h) == k && Arrived(g1, h) == data[..Carried(|data|, piece, k)]
            && Arrived(g1, h) + c.data.value == data[..Carried(|data|, piece, k + 1)]
            && ReceiveChunk(v, g, DescOf(v, data, media), c, now)
               == Append(v, g1, DescOf(v, data, media), c.last, c.data.value, now)
  {
    hide DescOk;
    var h, c := v.digest(data), Piece(v.digest(data), data, piece, k);
    CarriedSteps(data, piece, k, h);
    assert data[..Carried(|data|, piece, 0)] == [];
    hide PieceCount, Slice, Append;
    assert |data[..Carried(|data|, piece, k + 1)]| <= |data|;
  }

  /** One piece of the right number continues the transfer; the last one stores the whole. */
  lemma PieceArrives(v: Env, g: Files, data: Bytes, media: string, piece: nat, k: nat, now: int)
    requires piece > 0 && DescOk(v, DescOf(v, data, media)) && k < PieceCount(|data|, piece)
    requires if k == 0 then CanStart(v, g, v.digest(data), |data|, now) else Underway(v, g, data, piece, k)
    ensures var f := ReceiveChunk(v, g, DescOf(v, data, media), Piece(v.digest(data), data, piece, k), now).0;
            Underway(v, f, data, piece, k + 1) && (k + 1 == PieceCount(|data|, piece) ==> v.digest(data) in f.objects)
  {
    hide DescOk;
    if v.digest(data) !in g.objects {
      PieceTaken(v, g, data, media, piece, k, now);
      CarriedAll(|data|, piece, k + 1);
      assert data[..|data|] == data;
      hide PieceCount, Carried, Slice, Restarted, ReceiveChunk;
    } else {
      hide Append;
    }
  }

  /** Before each piece, only calls that leave the transfer as it is. */
  predicate KeptClear(v: Env, f: Files, d: Desc, data: Bytes, piece: nat, between: seq<seq<Op>>, times: seq<int>)
    requires piece > 0 && |between| == |times|
  {
    forall k | 0 <= k < |between| :: AllBenign(v, d.sha, Fed(v, f, d, data, piece, between, times, k), between[k])
  }

  /** When its first piece comes, the transfer can start. */
  predicate Opens(v: Env, f: Files, h: string, size: nat, between: seq<seq<Op>>, times: seq<int>) {
    between != [] && times != [] ==> CanStart(v, After(v, f, between[0]), h, size, times[0])
  }

  lemma ReceiveKeepsObjects(v: Env, f: Files, d: Desc, c: Chunk, now: int)
    requires Intact(v, f)
    ensures Intact(v, ReceiveChunk(v, f, d, c, now).0)
  {
    OpKeepsObjects(v, f, ChunkOp(d, c, now));
  }

  /** What stays underway over benign calls. */
  lemma StaysUnderway(v: Env, f: Files, data: Bytes, piece: nat, k: nat, ops: seq<Op>)
    requires Underway(v, f, data, piece, k) && Intact(v, f) && AllBenign(v, v.digest(data), f, ops)
    ensures Underway(v, After(v, f, ops), data, piece, k)
  {
    AllBenignLeave(v, f, v.digest(data), ops);
    hide AllBenign, After;
  }

  lemma {:induction false} FeedProceeds(v: Env, f: Files, data: Bytes, media: string, piece: nat,
                                        between: seq<seq<Op>>, times: seq<int>, k: nat)
    requires Intact(v, f) && piece > 0 && DescOk(v, DescOf(v, data, media)) && k <= PieceCount(|data|, piece) == |between| == |times|
    requires KeptClear(v, f, DescOf(v, data, media), data, piece, between, times)
    requires Opens(v, f, v.digest(data), |data|, between, times)
    ensures var g := Fed(v, f, DescOf(v, data, media), data, piece, between, times, k);
            && Intact(v, g) && (k == 0 ==> g == f) && (k > 0 ==> Underway(v, g, data, piece, k))
            && (k > 0 && k == PieceCount(|data|, piece) ==> v.digest(data) in g.objects)
  {
    hide DescOk, ReceiveChunk, Piece, AllBenign, PieceCount, Intact, Underway, CanStart, OnlyGrows;
    if k > 0 {
      var d := DescOf(v, data, media);
      FeedProceeds(v, f, data, media, piece, between, times, k - 1);
      var so := Fed(v, f, d, data, piece, between, times, k - 1);
      var g := After(v, so, between[k - 1]);
      AllBenignLeave(v, so, d.sha, between[k - 1]);
      if k > 1 {
        StaysUnderway(v, so, data, piece, k - 1, between[k - 1]);
      }
      PieceArrives(v, g, data, media, piece, k - 1, times[k - 1]);
      ReceiveKeepsObjects(v, g, d, Piece(d.sha, data, piece, k - 1), times[k - 1]);
    }
  }

  /**
    Feeding all the pieces of some data in order makes it available whole, whatever the
    piece size, even if it is empty, even where an orphaned transfer of the same content was
    left behind, and with calls in between: for other content, refused pieces of the same, or
    a `put` of it.
  */
  lemma TransferArrivesWhole(v: Env, f: Files, data: Bytes, media: string, piece: nat, between: seq<seq<Op>>, times: seq<int>)
    requires TellsApart(v) && Intact(v, f) && piece > 0 && DescOk(v, DescOf(v, data, media))
    requires PieceCount(|data|, piece) == |between| == |times|
    requires KeptClear(v, f, DescOf(v, data, media), data, piece, between, times)
    requires Opens(v, f, v.digest(data), |data|, between, times)
    ensures var g := Fed(v, f, DescOf(v, data, media), data, piece, between, times, |between|);
            Get(v, g, DescOf(v, data, media)) == Ok(data)
  {
    hide DescOk, Fed, KeptClear, Opens, PieceCount, Get;
    PiecesCover(|data|, piece);
    FeedProceeds(v, f, data, media, piece, between, times, |between|);
    var g := Fed(v, f, DescOf(v, data, media), data, piece, between, times, |between|);
    assert v.digest(g.objects[v.digest(data)]) == v.digest(data);
    StoredIsGot(v, g, data, media);
  }

  lemma StoredIsGot(v: Env, g: Files, data: Bytes, media: string)
    requires DescOk(v, DescOf(v, data, media))
    ensures v.digest(data) in g.objects && g.objects[v.digest(data)] == data ==> Get(v, g, DescOf(v, data, media)) == Ok(data)
  {
    hide DescOk;
  }

  /** What was put can be had back, and cut into pieces. */
  lemma PutThenGet(v: Env, f: Files, data: Bytes, media: string)
    requires TellsApart(v) && Intact(v, f) && Put(v, f, data, media).1.Ok?
    ensures Get(v, Put(v, f, data, media).0, Put(v, f, data, media).1.value) == Ok(data)
  {
    hide DescOk;
    if v.digest(data) in f.objects {
      assert f.objects[v.digest(data)] == data;
    }
  }
}
