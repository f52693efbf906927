/** Every log the writer built passes its own verifier, from whatever entry the export starts. */
module VerifyHonest {
  import opened Wrappers
  import opened NotaryLog
  import opened NotaryVerify
  import IntSets

  /** The verifier's state after the chained entries `from..upto`. */
  ghost predicate AfterEntries(st: VState, es: seq<Entry>, from: nat, upto: nat)
    requires 1 <= from <= upto <= |es|
  {
    && st.errors == [] && st.reports == []
    && st.lastSeq == Some(upto) && st.lastHash == es[upto - 1].entryHash
    && (forall k :: k in st.computed <==> k.N? && from <= k.n <= upto)
    && (forall n | from <= n <= upto :: st.computed[N(n)] == es[n - 1].entryHash)
  }

  predicate StartsFrom(g: Given, es: seq<Entry>, from: nat)
    requires 1 <= from <= |es|
  {
    g.startPrev.Some? ==> g.startPrev.value == es[from - 1].prevHash
  }

  lemma StepChained(c: Crypto, g: Given, es: seq<Entry>, from: nat, upto: nat, st: VState)
    requires Chained(c, es) && 1 <= from <= upto <= |es| && StartsFrom(g, es, from)
    requires if upto == from then st == START else AfterEntries(st, es, from, upto - 1)
    ensures AfterEntries(EntryStep(c, g, st, es[upto - 1]), es, from, upto)
  {
    hide EntryHash;
    assert LinkAt(c, es, upto - 1);
  }

  lemma {:induction false} ScanChained(c: Crypto, g: Given, es: seq<Entry>, from: nat, upto: nat)
    requires Chained(c, es) && 1 <= from <= upto <= |es| && StartsFrom(g, es, from)
    ensures AfterEntries(Scan(c, g, START, AsRecords(es[from - 1..upto])), es, from, upto)
    decreases upto
  {
    hide EntryStep, Chained;
    var rs := AsRecords(es[from - 1..upto]);
    assert es[from - 1..upto][..upto - from] == es[from - 1..upto - 1];
    assert rs[..|rs| - 1] == AsRecords(es[from - 1..upto - 1]);
    if upto > from {
      ScanChained(c, g, es, from, upto - 1);
    }
    StepChained(c, g, es, from, upto, Scan(c, g, START, rs[..|rs| - 1]));
  }

  /** The writer's checkpoint raises no complaint after the entries it may or may not cover. */
  lemma OwnCkptAccepted(c: Crypto, pub: string, g: Given, es: seq<Entry>, from: nat, st: VState, k: Checkpoint)
    requires SignsFor(c, pub) && CkptFor(c, pub, k, es)
    requires 1 <= from <= |es| && AfterEntries(st, es, from, |es|)
    requires g.trustedPub == "" || g.trustedPub == pub
    ensures CkptFault(c, g, st, k) == None
  {
    hide CkptBody;
    assert SignatureOk(c, k);
  }

  lemma ScanAppend(c: Crypto, g: Given, st: VState, rs: seq<Record>, r: Record)
    ensures Scan(c, g, st, rs + [r]) == Step(c, g, Scan(c, g, st, rs), r)
  {
    assert (rs + [r])[..|rs|] == rs;
  }

  function OwnReport(g: Given, k: Checkpoint): CkptReport {
    CkptReport(k, true, g.trustedPub != "" && k.pub == g.trustedPub)
  }

  function OwnReports(g: Given, k: Option<Checkpoint>): seq<CkptReport> {
    match k
    case Some(ckpt) => [OwnReport(g, ckpt)]
    case None => []
  }

  lemma ExportShape(c: Crypto, file: seq<Record>, from: nat)
    requires Chained(c, Entries(file)) && 1 <= from <= |Entries(file)|
    ensures Export(file, from) == AsRecords(Entries(file)[from - 1..|Entries(file)|]) + CkptTail(LastCkpt(file))
  {
    hide Chained;
    FromSeqOfChain(c, Entries(file), from);
    assert Entries(file)[from - 1..] == Entries(file)[from - 1..|Entries(file)|];
  }

  /** What the verifier holds at the end of an export: no error, and at most the one own checkpoint. */
  lemma ScanExport(c: Crypto, pub: string, g: Given, file: seq<Record>, from: nat)
    requires SignsFor(c, pub) && WellBuilt(c, pub, file) && 1 <= from <= |Entries(file)|
    requires g.trustedPub == "" || g.trustedPub == pub
    requires StartsFrom(g, Entries(file), from)
    ensures var st := Scan(c, g, START, Export(file, from));
            && AfterEntries(st.(reports := []), Entries(file), from, |Entries(file)|)
            && st.reports == OwnReports(g, LastCkpt(file))
  {
    hide EntryStep, HashOk, CkptFor, SignatureOk, Chained, AfterEntries, CkptFault;
    var es := Entries(file);
    ExportShape(c, file, from);
    ScanChained(c, g, es, from, |es|);
    var rs := AsRecords(es[from - 1..|es|]);
    AfterOwnCkpt(c, pub, g, es, from, Scan(c, g, START, rs), LastCkpt(file));
    LastCkptIn(file);
    match LastCkpt(file)
    case None =>
      assert rs + [] == rs;
    case Some(k) =>
      ScanAppend(c, g, START, rs, CkptRec(k));
  }

  lemma AfterOwnCkpt(c: Crypto, pub: string, g: Given, es: seq<Entry>, from: nat, st: VState, k: Option<Checkpoint>)
    requires SignsFor(c, pub) && 1 <= from <= |es| && AfterEntries(st, es, from, |es|)
    requires g.trustedPub == "" || g.trustedPub == pub
    ensures st.(reports := []) == st
    ensures k.Some? && CkptFor(c, pub, k.value, es) ==>
              Step(c, g, st, CkptRec(k.value)) == st.(reports := OwnReports(g, k))
  {
    if k.Some? && CkptFor(c, pub, k.value, es) {
      OwnCkptAccepted(c, pub, g, es, from, st, k.value);
    }
  }

  lemma {:induction false} RangeSize(s: set<int>, lo: int, hi: int)
    requires lo <= hi && forall n :: n in s <==> lo < n <= hi
    ensures |s| == hi - lo
    decreases hi - lo
  {
    if lo == hi {
      assert forall n :: n !in s;
      assert s == {};
    } else {
      RangeSize(s - {hi}, lo, hi - 1);
    }
  }

  lemma KeysOfRange(m: map<SeqVal, string>, from: nat, upto: nat)
    requires forall k :: k in m <==> k.N? && from <= k.n <= upto
    ensures forall n :: n in IntKeys(m) <==> from <= n <= upto
    ensures from <= upto ==> MinOf(IntKeys(m)) == Some(from)
  {
    forall n ensures n in IntKeys(m) <==> from <= n <= upto {
      assert n in IntKeys(m) <==> N(n) in m;
    }
    if from <= upto {
      assert from in IntKeys(m);
      assert IntSets.LeastOf(IntSets.Least(IntKeys(m)), IntKeys(m));
    }
  }

  /** `verify(export(log, from))` is ok for every `from` up to the head. */
  lemma HonestExportVerifies(c: Crypto, pub: string, g: Given, file: seq<Record>, from: nat)
    requires SignsFor(c, pub) && WellBuilt(c, pub, file) && 1 <= from <= |Entries(file)|
    requires g.trustedPub == "" || g.trustedPub == pub
    requires StartsFrom(g, Entries(file), from)
    ensures var rep := Verified(c, g, Export(file, from));
            && rep.ok && rep.headSeq == Some(|Entries(file)|) && rep.headHash == HeadOf(Entries(file))
            && rep.sliceStart == Some(from)
  {
    hide WellBuilt, Scan, SignsFor;
    ScanExport(c, pub, g, file, from);
    var st := Scan(c, g, START, Export(file, from)).(reports := []);
    KeysOfRange(st.computed, from, |Entries(file)|);
  }

  /**
    From genesis and with the writer's own key trusted, the entries no
    signature covers are exactly those written since the last checkpoint, and
    the whole slice is trusted when there are none and something was signed.
  */
  lemma HonestUnverifiedTail(c: Crypto, pub: string, file: seq<Record>)
    requires SignsFor(c, pub) && pub != "" && WellBuilt(c, pub, file) && Entries(file) != []
    ensures var rep := Verified(c, Given(pub, None), Export(file, 1));
            && rep.unverifiedTail == TailOf(file).since
            && (rep.trusted <==> TailOf(file).since == 0)
  {
    hide WellBuilt, Scan, SignsFor;
    var g, es := Given(pub, None), Entries(file);
    HonestExportVerifies(c, pub, g, file, 1);
    ScanExport(c, pub, g, file, 1);
    OwnCkptRange(c, pub, file);
    var st := Scan(c, g, START, Export(file, 1));
    var m := st.(reports := []).computed;
    KeysOfRange(m, 1, |es|);
    var signed := SignedUpTo(file);
    assert N(signed) in m <==> 1 <= signed;
    CoveredOfOne(st);
    var covered := CoveredTo(st, st.reports);
    assert covered == if signed == 0 then None else Some(signed);
    RangeSize(Uncovered(m, covered), signed, |es|);
  }

  lemma OwnCkptRange(c: Crypto, pub: string, file: seq<Record>)
    requires WellBuilt(c, pub, file)
    ensures 0 <= SignedUpTo(file) <= |Entries(file)| == SignedUpTo(file) + TailOf(file).since
    ensures LastCkpt(file).Some? ==> LastCkpt(file).value.pub == pub
  {
    hide Chained;
    LastCkptIn(file);
  }

  lemma CoveredOfOne(st: VState)
    requires |st.reports| <= 1
    ensures CoveredTo(st, st.reports)
         == if st.reports != [] && Binds(st, st.reports[0]) then Some(st.reports[0].c.seqNo) else None
  {
    if st.reports != [] {
      assert st.reports[..0] == [];
    }
  }

  /**
    For every history of `record` and `checkpoint` calls, with one key and one
    interval: the export from any entry up to the head verifies, with or
    without the right starting hash.
  */
  lemma EveryWriterLogVerifies(c: Crypto, pub: string, every: nat, calls: seq<Call>, g: Given, from: nat)
    requires SignsFor(c, pub) && (g.trustedPub == "" || g.trustedPub == pub)
    requires 1 <= from <= |Entries(LogAfter(c, pub, every, calls))|
    requires StartsFrom(g, Entries(LogAfter(c, pub, every, calls)), from)
    ensures Verified(c, g, Export(LogAfter(c, pub, every, calls), from)).ok
  {
    EveryLogIsWellBuilt(c, pub, every, calls);
    HonestExportVerifies(c, pub, g, LogAfter(c, pub, every, calls), from);
  }

  /** And from genesis the part no signature covers stays below the interval, but for calls whose signature raised. */
  lemma EveryWriterTailIsShort(c: Crypto, pub: string, every: nat, calls: seq<Call>)
    requires SignsFor(c, pub) && pub != "" && every >= 1
    requires Entries(LogAfter(c, pub, every, calls)) != []
    ensures Verified(c, Given(pub, None), Export(LogAfter(c, pub, every, calls), 1)).unverifiedTail
          < every + Raised(c, pub, every, calls)
  {
    EveryLogIsWellBuilt(c, pub, every, calls);
    UnsignedTailIsShort(c, pub, every, calls);
    HonestUnverifiedTail(c, pub, LogAfter(c, pub, every, calls));
  }
}
