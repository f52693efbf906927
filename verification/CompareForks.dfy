/** What `compare` proves about logs: honest exports never fork, and on touching slices its verdict is exact. */
module CompareForks {
  import opened Wrappers
  import opened CanonicalJson
  import opened NotaryLog
  import opened NotaryCompare
  import IntSets

  /** The entries lo..hi of a log, as some export carries them. */
  predicate Slice(records: seq<Record>, es: seq<Entry>, lo: nat, hi: nat) {
    && 1 <= lo <= hi + 1 && hi <= |es|
    && Entries(records) == es[lo - 1..hi]
  }

  /** The dictionary `compare` builds of a slice of a chained log. */
  ghost predicate Indexes(m: map<int, Entry>, es: seq<Entry>, lo: int, hi: int) {
    && (forall s :: s in m <==> lo <= s <= hi)
    && (forall s | lo <= s <= hi && 1 <= s <= |es| :: m[s] == es[s - 1])
  }

  lemma ByNumberMore(records: seq<Record>)
    requires records != []
    ensures var init, r := records[..|records| - 1], records[|records| - 1];
            && (r.EntryRec? && r.e.seqNo.N? ==> ByNumber(records) == ByNumber(init)[r.e.seqNo.n := r.e])
            && (!r.EntryRec? ==> ByNumber(records) == ByNumber(init) && Entries(records) == Entries(init))
  {
  }

  lemma {:induction false} SliceIndexed(c: Crypto, records: seq<Record>, es: seq<Entry>, lo: nat, hi: nat)
    requires Chained(c, es) && Slice(records, es, lo, hi)
    ensures Indexes(ByNumber(records), es, lo, hi)
  {
    hide Chained, Indexes, ByNumber, Slice;
    if records == [] {
      NoSlice(es, lo, hi);
    } else {
      var init, r := records[..|records| - 1], records[|records| - 1];
      ByNumberMore(records);
      if r.EntryRec? {
        SliceShrinks(records, es, lo, hi);
        SliceBounds(records, es, lo, hi);
        NumberOfEntry(c, es, hi - 1);
        SliceIndexed(c, init, es, lo, hi - 1);
        IndexesExtend(ByNumber(init), es, lo, hi);
      } else {
        SliceStays(records, es, lo, hi);
        SliceIndexed(c, init, es, lo, hi);
      }
    }
  }

  lemma NoSlice(es: seq<Entry>, lo: nat, hi: nat)
    requires Slice([], es, lo, hi)
    ensures Indexes(ByNumber([]), es, lo, hi)
  {
    assert |es[lo - 1..hi]| == 0;
  }

  lemma SliceBounds(records: seq<Record>, es: seq<Entry>, lo: nat, hi: nat)
    requires Slice(records, es, lo, hi)
    ensures 1 <= lo <= hi + 1 && hi <= |es|
  {
  }

  lemma SliceStays(records: seq<Record>, es: seq<Entry>, lo: nat, hi: nat)
    requires records != [] && !records[|records| - 1].EntryRec? && Slice(records, es, lo, hi)
    ensures Slice(records[..|records| - 1], es, lo, hi)
  {
  }

  lemma SliceShrinks(records: seq<Record>, es: seq<Entry>, lo: nat, hi: nat)
    requires records != [] && records[|records| - 1].EntryRec? && Slice(records, es, lo, hi)
    ensures lo <= hi && Slice(records[..|records| - 1], es, lo, hi - 1) && records[|records| - 1].e == es[hi - 1]
  {
    var init := Entries(records[..|records| - 1]);
    assert |Entries(records)| == |init| + 1 == hi - lo + 1;
    assert init == Entries(records)[..hi - lo] == es[lo - 1..hi - 1];
    assert records[|records| - 1].e == Entries(records)[hi - lo];
  }

  lemma IndexesExtend(m: map<int, Entry>, es: seq<Entry>, lo: int, hi: int)
    requires 1 <= lo <= hi <= |es| && Indexes(m, es, lo, hi - 1)
    ensures Indexes(m[hi := es[hi - 1]], es, lo, hi)
  {
  }

  lemma NumberOfEntry(c: Crypto, es: seq<Entry>, i: nat)
    requires Chained(c, es) && i < |es|
    ensures es[i].seqNo == N(i + 1) && es[i].cursor != Some(Null) && HashOk(c, es[i])
    ensures i >= 1 ==> es[i].prevHash == es[i - 1].entryHash
  {
    hide HashOk;
    assert LinkAt(c, es, i);
  }

  /** Every head a slice names is the head of a checkpoint in it. */
  lemma {:induction false} HeadsIn(records: seq<Record>, s: int)
    requires s in HeadsByNumber(records)
    ensures exists r :: r in records && r.CkptRec? && r.c.seqNo == s && r.c.headHash == HeadsByNumber(records)[s]
  {
    var init, r := records[..|records| - 1], records[|records| - 1];
    if r.CkptRec? && r.c.seqNo == s {
      assert r in records;
    } else {
      HeadsIn(init, s);
    }
  }

  /** The head the log `es` has at number s. */
  function HeadAt(es: seq<Entry>, s: nat): string
    requires s <= |es|
  {
    if s == 0 then GENESIS else es[s - 1].entryHash
  }

  ghost predicate HonestHeads(heads: map<int, string>, es: seq<Entry>) {
    forall s | s in heads :: 0 <= s <= |es| && heads[s] == HeadAt(es, s)
  }

  lemma OwnHeads(c: Crypto, pub: string, records: seq<Record>, es: seq<Entry>)
    requires CkptsFor(c, pub, records, es)
    ensures HonestHeads(HeadsByNumber(records), es)
  {
    hide CkptBody;
    forall s | s in HeadsByNumber(records) ensures 0 <= s <= |es| && HeadsByNumber(records)[s] == HeadAt(es, s) {
      HeadsIn(records, s);
      var r :| r in records && r.CkptRec? && r.c.seqNo == s && r.c.headHash == HeadsByNumber(records)[s];
      assert CkptFor(c, pub, r.c, es);
    }
  }

  /** Over one log no check can fail. */
  lemma OneLogPasses(c: Crypto, es: seq<Entry>, ea: map<int, Entry>, eb: map<int, Entry>,
                     ca: map<int, string>, cb: map<int, string>, i: nat, j: nat, k: nat, l: nat)
    requires Chained(c, es) && 1 <= i && j <= |es| && 1 <= k && l <= |es|
    requires Indexes(ea, es, i, j) && Indexes(eb, es, k, l)
    requires HonestHeads(ca, es) && HonestHeads(cb, es)
    ensures AllPass(ea, eb, ca, cb)
  {
    hide Chained, Jcs, LineOf;
    OneLogLinks(c, es, ea, eb, i, j, k, l);
    OneLogLinks(c, es, eb, ea, k, l, i, j);
  }

  lemma OneLogLinks(c: Crypto, es: seq<Entry>, ea: map<int, Entry>, eb: map<int, Entry>, i: nat, j: nat, k: nat, l: nat)
    requires Chained(c, es) && 1 <= i && j <= |es| && 1 <= k && l <= |es|
    requires Indexes(ea, es, i, j) && Indexes(eb, es, k, l)
    ensures Links(ea, eb)
  {
    hide Chained;
    forall s | s in ea ensures LinkOk(ea, eb, s) {
      if s + 1 in eb {
        NumberOfEntry(c, es, s);
      }
    }
  }

  lemma ExportIsSlice(c: Crypto, pub: string, file: seq<Record>, from: nat)
    requires WellBuilt(c, pub, file) && 1 <= from <= |Entries(file)| + 1
    ensures Slice(Export(file, from), Entries(file), from, |Entries(file)|)
    ensures CkptsFor(c, pub, Export(file, from), Entries(file))
  {
    hide Chained, CkptFor, TailOf, Entries, FromSeq, LastCkpt;
    var es := Entries(file);
    FromSeqOfChain(c, es, from);
    LastCkptIn(file);
    ExportParts(file, from);
  }

  /** An export holds the picked entries, and no checkpoint but the latest. */
  lemma ExportParts(file: seq<Record>, from: int)
    ensures Entries(Export(file, from)) == FromSeq(Entries(file), from)
    ensures forall r | r in Export(file, from) && r.CkptRec? :: LastCkpt(file) == Some(r.c)
  {
    hide FromSeq, LastCkpt;
    var rs, k := AsRecords(FromSeq(Entries(file), from)), LastCkpt(file);
    EntriesOfRecords(FromSeq(Entries(file), from));
    if k.Some? {
      EntriesAppend(rs, CkptRec(k.value));
    } else {
      assert rs + [] == rs;
    }
  }

  lemma CkptsForLonger(c: Crypto, pub: string, records: seq<Record>, es: seq<Entry>, fs: seq<Entry>)
    requires CkptsFor(c, pub, records, es) && es <= fs
    ensures CkptsFor(c, pub, records, fs)
  {
    hide CkptBody;
    forall r | r in records && r.CkptRec? ensures CkptFor(c, pub, r.c, fs) {
      assert CkptFor(c, pub, r.c, es);
    }
  }

  /** Two exports of one growing log, from whatever entries and at whatever times, are never a fork. */
  lemma GrowingLogNeverForks(c: Crypto, pub: string, every: nat, calls: seq<Call>, more: seq<Call>, i: nat, k: nat)
    requires 1 <= i <= |Entries(LogAfter(c, pub, every, calls))| + 1
    requires 1 <= k <= |Entries(LogAfter(c, pub, every, calls + more))| + 1
    ensures var a := Export(LogAfter(c, pub, every, calls), i);
            var b := Export(LogAfter(c, pub, every, calls + more), k);
            Comparison(a, b).same != Some(false) && Comparison(b, a).same != Some(false)
  {
    hide WellBuilt, Chained, Export, Comparison, LogAfter, CkptsFor, AllPass, HonestHeads, Indexes;
    var early, late := LogAfter(c, pub, every, calls), LogAfter(c, pub, every, calls + more);
    var a, b := Export(early, i), Export(late, k);
    var es, fs := Entries(early), Entries(late);
    EveryLogIsWellBuilt(c, pub, every, calls);
    EveryLogIsWellBuilt(c, pub, every, calls + more);
    LogGrows(c, pub, every, calls, more);
    ExportIsSlice(c, pub, early, i);
    ExportIsSlice(c, pub, late, k);
    CkptsForLonger(c, pub, a, es, fs);
    WellBuiltChain(c, pub, late);
    assert Slice(a, fs, i, |es|) by {
      assert es[i - 1..|es|] == fs[i - 1..|es|];
    }
    SliceIndexed(c, a, fs, i, |es|);
    SliceIndexed(c, b, fs, k, |fs|);
    OwnHeads(c, pub, a, fs);
    OwnHeads(c, pub, b, fs);
    OneLogPasses(c, fs, ByNumber(a), ByNumber(b), HeadsByNumber(a), HeadsByNumber(b), i, |es|, k, |fs|);
    OneLogPasses(c, fs, ByNumber(b), ByNumber(a), HeadsByNumber(b), HeadsByNumber(a), k, |fs|, i, |es|);
    NoForkWhenAllPass(a, b);
    NoForkWhenAllPass(b, a);
  }

  lemma WellBuiltChain(c: Crypto, pub: string, file: seq<Record>)
    requires WellBuilt(c, pub, file)
    ensures Chained(c, Entries(file))
  {
  }

  lemma NoForkWhenAllPass(a: seq<Record>, b: seq<Record>)
    ensures AllPass(ByNumber(a), ByNumber(b), HeadsByNumber(a), HeadsByNumber(b)) <==> Comparison(a, b).same != Some(false)
    ensures Comparison(a, b).same == Some(true) ==> AllPass(ByNumber(a), ByNumber(b), HeadsByNumber(a), HeadsByNumber(b))
  {
    hide AllPass, ChecksOf, ByNumber, HeadsByNumber, Comparison;
    VerdictMeaning(a, b);
    ChecksMeaning(ByNumber(a), ByNumber(b), HeadsByNumber(a), HeadsByNumber(b));
  }

  // --------------------------------------------- exactness on touching slices

  /** The first m entries of two logs agree, line by line. */
  predicate AgreeUpTo(es: seq<Entry>, fs: seq<Entry>, m: nat)
    requires m <= |es| && m <= |fs|
  {
    es[..m] == fs[..m]
  }

  lemma SameLineSameEntry(a: Entry, b: Entry)
    requires Canonical(LineOf(a)) && Jcs(LineOf(a)) == Jcs(LineOf(b))
    ensures a.entryHash == b.entryHash
  {
    TextInjective(LineOf(a), LineOf(b));
    assert LineOf(a).m["entry_hash"] == Str(a.entryHash) && LineOf(b).m["entry_hash"] == Str(b.entryHash);
  }

  lemma LineCanonical(c: Crypto, e: Entry)
    requires HashOk(c, e) && e.cursor != Some(Null)
    ensures Canonical(LineOf(e))
  {
    hide EntryMap;
    var m := EntryMap(e);
    assert Canonical(EntryBody(e));
    MapCanonical(e);
    var m1 := m["type" := Str("entry")];
    CanonicalUpdate(m, "type", Str("entry"));
    CanonicalUpdate(m1, "entry_hash", Str(e.entryHash));
    if e.cursor.Some? {
      CanonicalUpdate(m1["entry_hash" := Str(e.entryHash)], "cursor", e.cursor.value);
    }
  }

  lemma MapCanonical(e: Entry)
    requires Canonical(EntryBody(e))
    ensures Canonical(Obj(EntryMap(e))) && (CursorOf(e) != Null ==> Canonical(CursorOf(e)))
  {
    var m := EntryBody(e).m;
    assert "cursor" !in EntryMap(e);
    assert forall k | k in EntryMap(e) :: k in m && m[k] == EntryMap(e)[k];
    assert CursorOf(e) != Null ==> m["cursor"] == CursorOf(e);
  }

  lemma CanonicalUpdate(m: map<string, Json>, k: string, v: Json)
    requires Canonical(Obj(m)) && Canonical(v)
    ensures Canonical(Obj(m[k := v]))
  {
  }

  lemma EntriesEqual(a: Entry, b: Entry)
    requires SameHashed(a, b) && a.entryHash == b.entryHash && a.cursor != Some(Null) && b.cursor != Some(Null)
    ensures a == b
  {
    assert a.(cursor := None, entryHash := "").(cursor := a.cursor, entryHash := a.entryHash) == a;
    assert b.(cursor := None, entryHash := "").(cursor := b.cursor, entryHash := b.entryHash) == b;
  }

  /** An equal hash at one number makes the logs agree up to it. */
  lemma AgreeFromOneHash(c: Crypto, es: seq<Entry>, fs: seq<Entry>, m: nat)
    requires CollisionFree(c) && Chained(c, es) && Chained(c, fs)
    requires m <= |es| && m <= |fs| && (m > 0 ==> es[m - 1].entryHash == fs[m - 1].entryHash)
    ensures AgreeUpTo(es, fs, m)
  {
    hide Chained, HashOk, SameHashed;
    ChainedIsLinked(c, es);
    ChainedIsLinked(c, fs);
    forall i | 0 <= i < m ensures es[i] == fs[i] {
      BackwardAgreement(c, es, fs, m - 1, m - 1, m - 1 - i);
      NumberOfEntry(c, es, i);
      NumberOfEntry(c, fs, i);
      EntriesEqual(es[i], fs[i]);
    }
  }

  /** The last number both slices reach is compared: in the overlap, or as the link between the two. */
  lemma PassMeansOneHash(c: Crypto, es: seq<Entry>, fs: seq<Entry>, ea: map<int, Entry>, eb: map<int, Entry>,
                         ca: map<int, string>, cb: map<int, string>, i: nat, j: nat, k: nat, l: nat)
    requires Chained(c, es) && Chained(c, fs) && AllPass(ea, eb, ca, cb)
    requires 1 <= i <= j <= |es| && 1 <= k <= l <= |fs| && k <= j + 1 && i <= l + 1 && j <= l
    requires Indexes(ea, es, i, j) && Indexes(eb, fs, k, l)
    ensures es[j - 1].entryHash == fs[j - 1].entryHash
  {
    hide Chained, Jcs, LineOf;
    if k <= j {
      assert j in ea && j in eb;
      NumberOfEntry(c, es, j - 1);
      LineCanonical(c, es[j - 1]);
      SameLineSameEntry(ea[j], eb[j]);
    } else {
      assert j in ea && j + 1 in eb && j + 1 !in ea;
      assert LinkOk(ea, eb, j);
      NumberOfEntry(c, fs, j);
    }
  }

  lemma OverlapNotEmpty(a: seq<Record>, b: seq<Record>, s: int)
    requires s in ByNumber(a) && (s in ByNumber(b) || (s + 1 in ByNumber(b) && s + 1 !in ByNumber(a)))
    ensures Checks(a, b) != []
  {
    hide Jcs, LineOf;
    var ea, eb := ByNumber(a), ByNumber(b);
    if s in eb {
      EntryChecksMembers(IntSets.Sorted(ea.Keys * eb.Keys), ea, eb);
      assert Check(s, EntryDiffers, Jcs(LineOf(ea[s])) == Jcs(LineOf(eb[s])))
          in EntryChecks(IntSets.Sorted(ea.Keys * eb.Keys), ea, eb);
    } else {
      LinkChecksNonEmpty(IntSets.Sorted(ea.Keys), ea, eb, s);
    }
  }

  lemma {:induction false} LinkChecksNonEmpty(xs: seq<int>, left: map<int, Entry>, right: map<int, Entry>, s: int)
    requires s in xs && s in left && s + 1 in right && s + 1 !in left
    ensures LinkChecks(xs, left, right) != []
  {
    if xs[0] != s {
      LinkChecksNonEmpty(xs[1..], left, right, s);
    }
  }

  lemma {:induction false} NoHeads(records: seq<Record>)
    requires forall r | r in records :: !r.CkptRec?
    ensures HeadsByNumber(records) == map[]
  {
    if records != [] {
      NoHeads(records[..|records| - 1]);
    }
  }

  /**
    Slices i..j and k..l of two notary logs that overlap or touch: `compare`
    answers "same" exactly when the two logs agree on every entry up to the
    last number both reach, and "fork" otherwise. (Entries only; checkpoints
    can only add checks, see `TouchingSlicesSound`.)
  */
  lemma TouchingSlicesExact(c: Crypto, es: seq<Entry>, fs: seq<Entry>, a: seq<Record>, b: seq<Record>,
                            i: nat, j: nat, k: nat, l: nat)
    requires CollisionFree(c) && Chained(c, es) && Chained(c, fs)
    requires Slice(a, es, i, j) && Slice(b, fs, k, l) && i <= j && k <= l && k <= j + 1 && i <= l + 1
    requires forall r | r in a + b :: !r.CkptRec?
    ensures Comparison(a, b).same == Some(AgreeUpTo(es, fs, if j < l then j else l))
  {
    hide Chained, Comparison, AllPass, Indexes, Checks;
    var m := if j < l then j else l;
    SliceIndexed(c, a, es, i, j);
    SliceIndexed(c, b, fs, k, l);
    NoHeadsInEither(a, b);
    NoForkWhenAllPass(a, b);
    SomethingCompared(es, fs, a, b, i, j, k, l);
    VerdictMeaning(a, b);
    if AgreeUpTo(es, fs, m) {
      AgreementPasses(c, es, fs, ByNumber(a), ByNumber(b), i, j, k, l);
    } else if Comparison(a, b).same == Some(true) {
      TouchingSlicesSound(c, es, fs, a, b, i, j, k, l);
    }
  }

  lemma NoHeadsInEither(a: seq<Record>, b: seq<Record>)
    requires forall r | r in a + b :: !r.CkptRec?
    ensures HeadsByNumber(a) == map[] && HeadsByNumber(b) == map[]
  {
    assert forall r | r in a :: r in a + b;
    assert forall r | r in b :: r in a + b;
    NoHeads(a);
    NoHeads(b);
  }

  lemma SomethingCompared(es: seq<Entry>, fs: seq<Entry>, a: seq<Record>, b: seq<Record>, i: nat, j: nat, k: nat, l: nat)
    requires i <= j && k <= l && k <= j + 1 && i <= l + 1
    requires Indexes(ByNumber(a), es, i, j) && Indexes(ByNumber(b), fs, k, l)
    ensures Checks(a, b) != []
  {
    if k <= j && i <= l {
      var s := if i < k then k else i;
      OverlapNotEmpty(a, b, s);
    } else if k == j + 1 {
      OverlapNotEmpty(a, b, j);
    } else {
      LinkChecksNonEmpty(IntSets.Sorted(ByNumber(b).Keys), ByNumber(b), ByNumber(a), l);
    }
  }

  /** Whatever checkpoints travel along: "same" on touching slices means the logs agree that far. */
  lemma TouchingSlicesSound(c: Crypto, es: seq<Entry>, fs: seq<Entry>, a: seq<Record>, b: seq<Record>,
                            i: nat, j: nat, k: nat, l: nat)
    requires CollisionFree(c) && Chained(c, es) && Chained(c, fs)
    requires Slice(a, es, i, j) && Slice(b, fs, k, l) && i <= j && k <= l && k <= j + 1 && i <= l + 1
    requires Comparison(a, b).same == Some(true)
    ensures AgreeUpTo(es, fs, if j < l then j else l)
  {
    hide Chained, Comparison, Indexes;
    SliceIndexed(c, a, es, i, j);
    SliceIndexed(c, b, fs, k, l);
    NoForkWhenAllPass(a, b);
    var ea, eb, ca, cb := ByNumber(a), ByNumber(b), HeadsByNumber(a), HeadsByNumber(b);
    if j <= l {
      PassMeansOneHash(c, es, fs, ea, eb, ca, cb, i, j, k, l);
      AgreeFromOneHash(c, es, fs, j);
    } else {
      SameLinesSymmetric(ea, eb, ca, cb);
      PassMeansOneHash(c, fs, es, eb, ea, cb, ca, k, l, i, j);
      AgreeFromOneHash(c, es, fs, l);
    }
  }

  lemma SameLinesSymmetric(ea: map<int, Entry>, eb: map<int, Entry>, ca: map<int, string>, cb: map<int, string>)
    requires AllPass(ea, eb, ca, cb)
    ensures AllPass(eb, ea, cb, ca)
  {
    hide Jcs, LineOf, LinkOk;
    assert SameLines(eb, ea) by {
      forall s | s in eb && s in ea ensures Jcs(LineOf(eb[s])) == Jcs(LineOf(ea[s])) {
        assert Jcs(LineOf(ea[s])) == Jcs(LineOf(eb[s]));
      }
    }
  }

  lemma AgreementPasses(c: Crypto, es: seq<Entry>, fs: seq<Entry>, ea: map<int, Entry>, eb: map<int, Entry>,
                        i: nat, j: nat, k: nat, l: nat)
    requires Chained(c, es) && Chained(c, fs) && 1 <= i <= j <= |es| && 1 <= k <= l <= |fs|
    requires Indexes(ea, es, i, j) && Indexes(eb, fs, k, l)
    requires AgreeUpTo(es, fs, if j < l then j else l)
    ensures AllPass(ea, eb, map[], map[])
  {
    hide Chained, Jcs, LineOf;
    var m := if j < l then j else l;
    forall s | 0 <= s < m ensures es[s] == fs[s] {
      assert es[..m][s] == fs[..m][s];
    }
    AgreementLinks(c, es, fs, ea, eb, i, j, k, l);
    AgreementLinks(c, fs, es, eb, ea, k, l, i, j);
  }

  lemma AgreementLinks(c: Crypto, es: seq<Entry>, fs: seq<Entry>, ea: map<int, Entry>, eb: map<int, Entry>,
                       i: nat, j: nat, k: nat, l: nat)
    requires Chained(c, fs) && 1 <= i <= j <= |es| && 1 <= k <= l <= |fs|
    requires Indexes(ea, es, i, j) && Indexes(eb, fs, k, l)
    requires forall s | 0 <= s < (if j < l then j else l) :: es[s] == fs[s]
    ensures Links(ea, eb)
  {
    hide Chained;
    forall s | s in ea ensures LinkOk(ea, eb, s) {
      if s + 1 in eb {
        NumberOfEntry(c, fs, s);
        assert es[s - 1] == fs[s - 1];
      }
    }
  }
}
