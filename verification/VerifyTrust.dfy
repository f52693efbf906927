/**
  What `trusted` is worth. With a collision-free hash and only notary-made
  signatures, the entries of a trusted slice are the first entries the notary
  wrote, in order - provided they carry integer sequence numbers, for the
  verifier lets a leading entry whose `seq` is no integer pass unnoticed.
*/
module VerifyTrust {
  import opened Wrappers
  import opened CanonicalJson
  import opened NotaryLog
  import opened NotaryVerify
  import IntSets
  import VerifyHonest

  /** The entries whose `seq` Python counts as an integer. */
  function Numbered(records: seq<Record>): seq<Entry> {
    if records == [] then []
    else
      var rest, r := Numbered(records[..|records| - 1]), records[|records| - 1];
      if r.EntryRec? && SeqInt(r.e.seqNo).Some? then rest + [r.e] else rest
  }

  function NumberAt(es: seq<Entry>, i: nat): int
    requires i < |es| && SeqInt(es[i].seqNo).Some?
  {
    SeqInt(es[i].seqNo).value
  }

  predicate AllNumbered(es: seq<Entry>) { forall i | 0 <= i < |es| :: SeqInt(es[i].seqNo).Some? }

  /** Consecutive numbers, recomputed hashes, and links that hold. */
  ghost predicate Run(c: Crypto, es: seq<Entry>) {
    && Linked(c, es)
    && AllNumbered(es)
    && (forall i | 0 <= i < |es| :: NumberAt(es, i) == NumberAt(es, 0) + i)
  }

  /** The verifier's tables describe the run seen so far. */
  ghost predicate Describes(st: VState, es: seq<Entry>)
    requires AllNumbered(es)
  {
    && (es == [] ==> st.lastSeq == None)
    && (es != [] ==> st.lastSeq == Some(NumberAt(es, 0) + |es| - 1) && st.lastHash == es[|es| - 1].entryHash)
    && (forall n :: N(n) in st.computed <==> es != [] && NumberAt(es, 0) <= n < NumberAt(es, 0) + |es|)
    && (forall i | 0 <= i < |es| :: N(NumberAt(es, 0) + i) in st.computed
                                    && st.computed[N(NumberAt(es, 0) + i)] == es[i].entryHash)
  }

  function Top(st: VState): int { if st.lastSeq.Some? && st.lastSeq.value > 0 then st.lastSeq.value else 0 }

  /** A checkpoint reported ok is signed, lies behind the head, and fits the entry it names. */
  ghost predicate ReportFits(c: Crypto, g: Given, st: VState, r: CkptReport) {
    r.ok ==>
      && SignatureOk(c, r.c)
      && (r.trusted ==> r.c.pub == g.trustedPub)
      && r.c.seqNo <= Top(st)
      && (r.c.seqNo >= 1 && N(r.c.seqNo) in st.computed ==> st.computed[N(r.c.seqNo)] == r.c.headHash)
  }

  ghost predicate Sound(c: Crypto, g: Given, st: VState, records: seq<Record>) {
    var es := Numbered(records);
    && AllNumbered(es)
    && Run(c, es)
    && Describes(st, es)
    && (forall r | r in st.reports :: ReportFits(c, g, st, r) && CkptRec(r.c) in records)
  }

  lemma ErrorsOnlyGrow(c: Crypto, g: Given, st: VState, r: Record)
    requires Step(c, g, st, r).errors == []
    ensures st.errors == []
  {
    hide EntryHash, SignatureOk;
    if r.EntryRec? && EntryHash(c, r.e).Ok? {
      var more := EntryErrors(g, st, r.e, EntryHash(c, r.e).value);
      assert |(st.errors + more)| == |st.errors| + |more|;
    }
  }

  lemma NumberedAppend(records: seq<Record>, r: Record)
    ensures Numbered(records + [r])
         == if r.EntryRec? && SeqInt(r.e.seqNo).Some? then Numbered(records) + [r.e] else Numbered(records)
  {
    assert (records + [r])[..|records|] == records;
  }

  lemma NoErrors(g: Given, st: VState, e: Entry, h: string)
    requires EntryErrors(g, st, e, h) == []
    ensures h == e.entryHash
    ensures st.lastSeq.Some? ==> SeqInt(e.seqNo) == Some(st.lastSeq.value + 1) && e.prevHash == st.lastHash
  {
  }

  lemma RunExtends(c: Crypto, es: seq<Entry>, e: Entry)
    requires Run(c, es) && HashOk(c, e) && SeqInt(e.seqNo).Some?
    requires es != [] ==> SeqInt(e.seqNo).value == NumberAt(es, 0) + |es| && e.prevHash == es[|es| - 1].entryHash
    ensures Run(c, es + [e])
  {
    hide HashOk;
    var fs := es + [e];
    forall i | 0 <= i < |fs| ensures HashOk(c, fs[i]) && SeqInt(fs[i].seqNo).Some? {
      assert fs[i] == if i < |es| then es[i] else e;
    }
    forall i | 1 <= i < |fs| ensures fs[i].prevHash == fs[i - 1].entryHash {
      assert i < |es| ==> es[i].prevHash == es[i - 1].entryHash;
    }
    forall i | 0 <= i < |fs| ensures NumberAt(fs, i) == NumberAt(fs, 0) + i {
      assert i < |es| ==> NumberAt(es, i) == NumberAt(es, 0) + i;
    }
  }

  /** A numbered entry without complaint extends the run and its description. */
  lemma NumberedEntryKeeps(c: Crypto, g: Given, st: VState, es: seq<Entry>, e: Entry)
    requires AllNumbered(es) && Run(c, es) && Describes(st, es)
    requires SeqInt(e.seqNo).Some? && EntryStep(c, g, st, e).errors == []
    ensures AllNumbered(es + [e]) && Run(c, es + [e]) && Describes(EntryStep(c, g, st, e), es + [e])
    ensures SeqInt(e.seqNo).value > (if es == [] then SeqInt(e.seqNo).value - 1 else st.lastSeq.value)
  {
    hide EntryHash, Run, EntryErrors;
    var h := EntryHash(c, e).value;
    ErrorsOnlyGrow(c, g, st, EntryRec(e));
    assert EntryErrors(g, st, e, h) == [] + EntryErrors(g, st, e, h);
    NoErrors(g, st, e, h);
    RunExtends(c, es, e);
    DescriptionExtends(st, EntryStep(c, g, st, e), es, e);
  }

  lemma DescriptionExtends(st: VState, st': VState, es: seq<Entry>, e: Entry)
    requires AllNumbered(es)
    requires Describes(st, es) && SeqInt(e.seqNo).Some?
    requires es != [] ==> SeqInt(e.seqNo).value == NumberAt(es, 0) + |es|
    requires st'.lastSeq == SeqInt(e.seqNo) && st'.lastHash == e.entryHash
    requires st'.computed == st.computed[N(SeqInt(e.seqNo).value) := e.entryHash]
    ensures AllNumbered(es + [e])
    ensures Describes(st', es + [e])
  {
    var fs := es + [e];
    assert NumberAt(fs, 0) == if es == [] then SeqInt(e.seqNo).value else NumberAt(es, 0);
  }

  lemma ReportsSurviveEntry(c: Crypto, g: Given, st: VState, e: Entry, r: CkptReport)
    requires ReportFits(c, g, st, r) && EntryStep(c, g, st, e).errors == []
    requires st.lastSeq.Some? && SeqInt(e.seqNo).Some? ==> SeqInt(e.seqNo).value > st.lastSeq.value
    ensures ReportFits(c, g, EntryStep(c, g, st, e), r)
  {
    hide EntryHash, SignatureOk, EntryErrors;
  }

  lemma ForeignEntryKeeps(c: Crypto, g: Given, st: VState, es: seq<Entry>, e: Entry)
    requires AllNumbered(es)
    requires Describes(st, es) && SeqInt(e.seqNo).None?
    ensures Describes(EntryStep(c, g, st, e), es)
  {
    hide EntryHash, EntryErrors;
  }

  lemma CkptStepFits(c: Crypto, g: Given, st: VState, k: Checkpoint)
    requires CkptStep(c, g, st, k).errors == []
    requires forall n :: N(n) in st.computed ==> st.lastSeq.Some? && n <= st.lastSeq.value
    ensures CkptFault(c, g, st, k) == None
    ensures ReportFits(c, g, st, CkptReport(k, true, g.trustedPub != "" && k.pub == g.trustedPub))
  {
    hide SignatureOk;
  }

  lemma StepKeepsSound(c: Crypto, g: Given, records: seq<Record>, st: VState, r: Record)
    requires Sound(c, g, st, records) && Step(c, g, st, r).errors == []
    ensures Sound(c, g, Step(c, g, st, r), records + [r])
  {
    hide EntryHash, SignatureOk, ReportFits, Run, EntryErrors, HashOk;
    var es, st' := Numbered(records), Step(c, g, st, r);
    NumberedAppend(records, r);
    match r
    case EntryRec(e) =>
      if SeqInt(e.seqNo).Some? {
        NumberedEntryKeeps(c, g, st, es, e);
      } else {
        ForeignEntryKeeps(c, g, st, es, e);
      }
      forall q | q in st'.reports ensures ReportFits(c, g, st', q) && CkptRec(q.c) in records + [r] {
        ReportsSurviveEntry(c, g, st, e, q);
      }
    case CkptRec(k) =>
      CkptStepFits(c, g, st, k);
      ReportsSurviveCkpt(c, g, st, st');
    case _ =>
  }

  lemma ReportsSurviveCkpt(c: Crypto, g: Given, st: VState, st': VState)
    requires st'.computed == st.computed && st'.lastSeq == st.lastSeq
    ensures forall q :: ReportFits(c, g, st, q) ==> ReportFits(c, g, st', q)
  {
  }

  lemma SoundAtStart(c: Crypto, g: Given)
    ensures Sound(c, g, START, [])
  {
  }

  lemma {:induction false} ScanIsSound(c: Crypto, g: Given, records: seq<Record>)
    requires Scan(c, g, START, records).errors == []
    ensures Sound(c, g, Scan(c, g, START, records), records)
  {
    hide Sound, Step;
    if records == [] {
      SoundAtStart(c, g);
    } else {
      var init, r := records[..|records| - 1], records[|records| - 1];
      ErrorsOnlyGrow(c, g, Scan(c, g, START, init), r);
      ScanIsSound(c, g, init);
      StepKeepsSound(c, g, init, Scan(c, g, START, init), r);
      assert records == init + [r];
    }
  }

  // ------------------------------------------------------------ the main results

  /** Unforgeability: whatever verifies under the notary's key is a payload its log holds. */
  ghost predicate NotarySigned(c: Crypto, pub: string, log: seq<Record>, records: seq<Record>) {
    forall r | r in records && r.CkptRec? && r.c.pub == pub && SignatureOk(c, r.c) ::
      exists own :: CkptRec(own) in log && CkptBody(own) == CkptBody(r.c)
  }

  lemma {:induction false} CoveredWitness(st: VState, reports: seq<CkptReport>)
    requires CoveredTo(st, reports).Some?
    ensures exists r :: r in reports && Binds(st, r) && r.c.seqNo == CoveredTo(st, reports).value
  {
    var r := reports[|reports| - 1];
    if Binds(st, r) && CoveredTo(st, reports).value == r.c.seqNo {
      assert r in reports;
    } else {
      CoveredWitness(st, reports[..|reports| - 1]);
    }
  }

  lemma StartIsFirst(st: VState, es: seq<Entry>)
    requires AllNumbered(es) && Describes(st, es) && MinOf(IntKeys(st.computed)) == Some(1)
    ensures es != [] && NumberAt(es, 0) == 1
  {
    var keys := IntKeys(st.computed);
    assert IntSets.LeastOf(1, keys);
    assert N(1) in st.computed;
    assert N(NumberAt(es, 0)) in st.computed;
    assert NumberAt(es, 0) in keys;
  }

  lemma NothingBeyondCovered(st: VState, es: seq<Entry>, covered: int)
    requires AllNumbered(es) && Describes(st, es) && es != [] && NumberAt(es, 0) == 1
    requires N(covered) in st.computed && Uncovered(st.computed, Some(covered)) == {}
    ensures covered == |es|
  {
    assert N(|es|) in st.computed;
    assert |es| in IntKeys(st.computed);
    assert |es| > covered ==> |es| in Uncovered(st.computed, Some(covered));
  }

  /** The binding checkpoint names the last entry of the slice and the same entry of the notary's log. */
  lemma AnchorsAgree(c: Crypto, g: Given, records: seq<Record>, log: seq<Record>, st: VState, r: CkptReport)
    requires Sound(c, g, st, records) && r in st.reports && Binds(st, r) && r.c.seqNo == |Numbered(records)| >= 1
    requires NumberAt(Numbered(records), 0) == 1
    requires WellBuilt(c, g.trustedPub, log) && NotarySigned(c, g.trustedPub, log, records)
    ensures |Numbered(records)| <= |Entries(log)|
    ensures Numbered(records)[r.c.seqNo - 1].entryHash == Entries(log)[r.c.seqNo - 1].entryHash
  {
    hide SignatureOk, Run, Chained, TailOf;
    var es := Numbered(records);
    assert ReportFits(c, g, st, r);
    assert CkptRec(r.c) in records;
    var own :| CkptRec(own) in log && CkptBody(own) == CkptBody(r.c);
    CkptBodyInjective(own, r.c);
    assert own.seqNo == own.(sig := "").seqNo && r.c.seqNo == r.c.(sig := "").seqNo;
    assert own.headHash == own.(sig := "").headHash && r.c.headHash == r.c.(sig := "").headHash;
    assert CkptFor(c, g.trustedPub, own, Entries(log));
    assert N(NumberAt(es, 0) + (|es| - 1)) in st.computed;
  }

  /**
    A trusted slice, anchored at genesis, is a prefix: its numbered entries
    agree in order, on every hashed field, with the first `coveredTo` entries
    of the notary's log, whatever else was altered or inserted.
  */
  lemma TrustedSliceIsPrefix(c: Crypto, g: Given, records: seq<Record>, log: seq<Record>)
    requires CollisionFree(c) && g.startPrev.None?
    requires WellBuilt(c, g.trustedPub, log) && NotarySigned(c, g.trustedPub, log, records)
    requires Verified(c, g, records).trusted
    ensures Verified(c, g, records).coveredTo == Some(|Numbered(records)|)
    ensures 1 <= |Numbered(records)| <= |Entries(log)|
    ensures forall i | 0 <= i < |Numbered(records)| ::
              SameHashed(Numbered(records)[i], Entries(log)[i])
              && Numbered(records)[i].entryHash == Entries(log)[i].entryHash
  {
    hide Scan, HashOk, SameHashed, ReportFits, WellBuilt, NotarySigned;
    var st := Scan(c, g, START, records);
    var es := Numbered(records);
    ScanIsSound(c, g, records);
    CoveredWitness(st, st.reports);
    StartIsFirst(st, es);
    var covered := CoveredTo(st, st.reports).value;
    NothingBeyondCovered(st, es, covered);
    var r :| r in st.reports && Binds(st, r) && r.c.seqNo == covered;
    AnchorsAgree(c, g, records, log, st, r);
    LogIsLinked(c, g.trustedPub, log);
    forall i | 0 <= i < |es|
      ensures SameHashed(es[i], Entries(log)[i]) && es[i].entryHash == Entries(log)[i].entryHash
    {
      BackwardAgreement(c, es, Entries(log), |es| - 1, |es| - 1, |es| - 1 - i);
    }
  }

  lemma LogIsLinked(c: Crypto, pub: string, log: seq<Record>)
    requires WellBuilt(c, pub, log)
    ensures Linked(c, Entries(log))
  {
    ChainedIsLinked(c, Entries(log));
  }

  /** The entries of the slice, all of them, are the notary's first entries. */
  predicate WholeSliceIsPrefix(records: seq<Record>, log: seq<Record>) {
    && |Entries(records)| <= |Entries(log)|
    && forall i | 0 <= i < |Entries(records)| :: SameHashed(Entries(records)[i], Entries(log)[i])
  }

  predicate EverySeqIsInt(records: seq<Record>) {
    forall r | r in records :: r.EntryRec? ==> SeqInt(r.e.seqNo).Some?
  }

  lemma {:induction false} NumberedIsAll(records: seq<Record>)
    ensures EverySeqIsInt(records) ==> Numbered(records) == Entries(records)
    ensures !EverySeqIsInt(records) ==> exists i :: 0 <= i < |Entries(records)| && SeqInt(Entries(records)[i].seqNo).None?
  {
    if records != [] {
      var init, r := records[..|records| - 1], records[|records| - 1];
      NumberedIsAll(init);
      assert records == init + [r];
      if r.EntryRec? && SeqInt(r.e.seqNo).None? {
        assert Entries(records)[|Entries(init)|] == r.e;
      } else if !EverySeqIsInt(init) {
        var i :| 0 <= i < |Entries(init)| && SeqInt(Entries(init)[i].seqNo).None?;
        assert Entries(records)[i] == Entries(init)[i];
      }
    }
  }

  /** The exact reach of `trusted`: the whole slice is a prefix just when every entry's seq is an integer. */
  lemma TrustedWholeSliceIff(c: Crypto, g: Given, records: seq<Record>, log: seq<Record>)
    requires CollisionFree(c) && g.startPrev.None?
    requires WellBuilt(c, g.trustedPub, log) && NotarySigned(c, g.trustedPub, log, records)
    requires Verified(c, g, records).trusted
    ensures WholeSliceIsPrefix(records, log) <==> EverySeqIsInt(records)
  {
    hide Verified, NotarySigned, HashOk, TailOf, CkptsFor;
    TrustedSliceIsPrefix(c, g, records, log);
    NumberedIsAll(records);
    if WholeSliceIsPrefix(records, log) {
      PrefixIsNumbered(c, records, log);
    }
  }

  lemma PrefixIsNumbered(c: Crypto, records: seq<Record>, log: seq<Record>)
    requires Chained(c, Entries(log)) && WholeSliceIsPrefix(records, log)
    ensures forall i | 0 <= i < |Entries(records)| :: SeqInt(Entries(records)[i].seqNo).Some?
  {
    hide HashOk;
    forall i | 0 <= i < |Entries(records)| ensures SeqInt(Entries(records)[i].seqNo).Some? {
      assert LinkAt(c, Entries(log), i);
      assert Entries(records)[i].(cursor := None, entryHash := "").seqNo == N(i + 1);
    }
  }

  // ---------------------------------------------- the entry nobody looks at

  /** Two states that differ at most in what they remember of non-integer seqs. */
  ghost predicate Alike(a: VState, b: VState) {
    && a.errors == b.errors && a.reports == b.reports && a.lastSeq == b.lastSeq && a.lastHash == b.lastHash
    && (forall n :: N(n) in a.computed <==> N(n) in b.computed)
    && (forall n | N(n) in a.computed :: a.computed[N(n)] == b.computed[N(n)])
  }

  lemma StepKeepsAlike(c: Crypto, g: Given, a: VState, b: VState, r: Record)
    requires Alike(a, b)
    ensures Alike(Step(c, g, a, r), Step(c, g, b, r))
  {
    hide EntryHash, SignatureOk;
  }

  lemma {:induction false} ScanKeepsAlike(c: Crypto, g: Given, a: VState, b: VState, records: seq<Record>)
    requires Alike(a, b)
    ensures Alike(Scan(c, g, a, records), Scan(c, g, b, records))
  {
    if records != [] {
      hide Alike, Step;
      var init := records[..|records| - 1];
      ScanKeepsAlike(c, g, a, b, init);
      StepKeepsAlike(c, g, Scan(c, g, a, init), Scan(c, g, b, init), records[|records| - 1]);
    }
  }

  lemma {:induction false} ScanFrom(c: Crypto, g: Given, st: VState, r: Record, records: seq<Record>)
    ensures Scan(c, g, st, [r] + records) == Scan(c, g, Step(c, g, st, r), records)
  {
    hide Step;
    var all := [r] + records;
    if records == [] {
      assert all[..|all| - 1] == [];
    } else {
      assert all[..|all| - 1] == [r] + records[..|records| - 1];
      ScanFrom(c, g, st, r, records[..|records| - 1]);
    }
  }

  lemma {:induction false} CoveredAlike(a: VState, b: VState, reports: seq<CkptReport>)
    requires Alike(a, b)
    ensures CoveredTo(a, reports) == CoveredTo(b, reports)
  {
    if reports != [] {
      CoveredAlike(a, b, reports[..|reports| - 1]);
    }
  }

  lemma VerdictAlike(g: Given, a: VState, b: VState)
    requires Alike(a, b)
    ensures Verdict(g, a) == Verdict(g, b)
  {
    CoveredAlike(a, b, a.reports);
    assert IntKeys(a.computed) == IntKeys(b.computed) by {
      forall n ensures n in IntKeys(a.computed) <==> n in IntKeys(b.computed) {
        assert N(n) in a.computed <==> N(n) in b.computed;
      }
    }
    var covered := CoveredTo(a, a.reports);
    assert Uncovered(a.computed, covered) == Uncovered(b.computed, covered);
  }

  /**
    Any slice keeps its verdict when an invented entry with a text `seq` and a
    matching hash of its own is put in front: `trusted` says nothing about it.
  */
  lemma LeadingForeignEntryUnnoticed(c: Crypto, g: Given, e: Entry, records: seq<Record>)
    requires g.startPrev.None? && SeqInt(e.seqNo).None? && HashOk(c, e)
    ensures Verified(c, g, [EntryRec(e)] + records) == Verified(c, g, records)
  {
    hide EntryHash, Scan, Verdict;
    var st := Step(c, g, START, EntryRec(e));
    assert Alike(START, st) by {
      assert EntryErrors(g, START, e, e.entryHash) == [];
      assert st.computed == map[e.seqNo := e.entryHash];
    }
    ScanFrom(c, g, START, EntryRec(e), records);
    ScanKeepsAlike(c, g, START, st, records);
    VerdictAlike(g, Scan(c, g, START, records), Scan(c, g, st, records));
  }

  lemma {:induction false} EntriesAfter(e: Entry, records: seq<Record>)
    ensures Entries([EntryRec(e)] + records) == [e] + Entries(records)
  {
    var all := [EntryRec(e)] + records;
    if records == [] {
      assert all[..0] == [];
    } else {
      EntriesAfter(e, records[..|records| - 1]);
      assert all[..|all| - 1] == [EntryRec(e)] + records[..|records| - 1];
    }
  }

  /**
    So, without the condition of `TrustedWholeSliceIff`, the claim is false:
    the full export of any fully signed log, with such an entry in front, is
    reported trusted and is not a prefix of the log.
  */
  lemma TrustedYetNoPrefix(c: Crypto, pub: string, log: seq<Record>, e: Entry)
    requires SignsFor(c, pub) && pub != "" && WellBuilt(c, pub, log)
    requires Entries(log) != [] && TailOf(log).since == 0
    requires e.seqNo.T? && HashOk(c, e)
    ensures var slice := [EntryRec(e)] + Export(log, 1);
            Verified(c, Given(pub, None), slice).trusted && !WholeSliceIsPrefix(slice, log)
  {
    hide Verified, HashOk, TailOf;
    var slice := [EntryRec(e)] + Export(log, 1);
    VerifyHonest.HonestUnverifiedTail(c, pub, log);
    LeadingForeignEntryUnnoticed(c, Given(pub, None), e, Export(log, 1));
    EntriesAfter(e, Export(log, 1));
    assert Entries(slice)[0] == e;
    if WholeSliceIsPrefix(slice, log) {
      PrefixIsNumbered(c, slice, log);
    }
  }

  // --------------------------------------------------------- fields of any JSON type

  /** An entry as it may come in: the hashed part, with any JSON value in any field, and the hash it states. */
  datatype RawEntry = RawEntry(body: Json, hash: string)

  predicate RawOk(c: Crypto, r: RawEntry) { Jcs(r.body).Ok? && c.hash(Jcs(r.body).value) == r.hash }

  /** What the loop of `verify` checks of them, but for the numbers: each hash recomputes, each names the one before. */
  predicate RawLinked(c: Crypto, rs: seq<RawEntry>) {
    && (forall i | 0 <= i < |rs| :: RawOk(c, rs[i]))
    && (forall i | 1 <= i < |rs| ::
          rs[i].body.Obj? && "prev_hash" in rs[i].body.m && rs[i].body.m["prev_hash"] == Str(rs[i - 1].hash))
  }

  lemma RawIsEntry(c: Crypto, r: RawEntry, e: Entry)
    requires CollisionFree(c) && RawOk(c, r) && HashOk(c, e) && r.hash == e.entryHash
    ensures r.body == EntryBody(e)
  {
    TextInjective(r.body, EntryBody(e));
  }

  lemma BodyNamesPrev(e: Entry)
    ensures EntryBody(e).Obj? && "prev_hash" in EntryBody(e).m && EntryBody(e).m["prev_hash"] == Str(e.prevHash)
  {
  }

  /**
    Whatever was put in whatever field: a linked run that ends in a hash the notary wrote
    is the notary's, entry by entry and field by field, as far back as both go.
  */
  lemma {:induction false} AnyAlterationShows(c: Crypto, rs: seq<RawEntry>, es: seq<Entry>, i: nat, j: nat, d: nat)
    requires CollisionFree(c) && RawLinked(c, rs) && Linked(c, es)
    requires d <= i < |rs| && d <= j < |es| && rs[i].hash == es[j].entryHash
    ensures rs[i - d].body == EntryBody(es[j - d]) && rs[i - d].hash == es[j - d].entryHash
  {
    hide HashOk, RawOk, EntryBody;
    if d > 0 {
      AnyAlterationShows(c, rs, es, i, j, d - 1);
      BodyNamesPrev(es[j - d + 1]);
    }
    RawIsEntry(c, rs[i - d], es[j - d]);
  }
}
