/**
  Fork detection (`compare` in bus_notary.py): two exports are about one chain,
  or a fork, or nothing in them can be compared. Exports of one growing log are
  never a fork, and for slices that overlap or touch the verdict is exact.
*/
module NotaryCompare {
  import opened Wrappers
  import opened CanonicalJson
  import opened NotaryLog
  import IntSets

  datatype Reason = EntryDiffers | CheckpointHeadDiffers | CheckpointVsEntryDiffers | ChainLinkDiffers

  datatype Check = Check(seqNo: int, reason: Reason, ok: bool)

  /** `same` is None when nothing was comparable, which is not "fine". */
  datatype Judgement = Judgement(same: Option<bool>, firstBad: Option<Check>)

  /** The whole line of an entry, as the canonical bytes `compare` looks at. */
  function LineOf(e: Entry): Json {
    var m := EntryMap(e)["type" := Str("entry")]["entry_hash" := Str(e.entryHash)];
    Obj(if e.cursor.Some? then m["cursor" := e.cursor.value] else m)
  }

  /** Entries by number; of two with one number the later stays. */
  function ByNumber(records: seq<Record>): map<int, Entry> {
    if records == [] then map[]
    else
      var m, r := ByNumber(records[..|records| - 1]), records[|records| - 1];
      if r.EntryRec? && SeqInt(r.e.seqNo).Some? then m[SeqInt(r.e.seqNo).value := r.e] else m
  }

  function HeadsByNumber(records: seq<Record>): map<int, string> {
    if records == [] then map[]
    else
      var m, r := HeadsByNumber(records[..|records| - 1]), records[|records| - 1];
      if r.CkptRec? then m[r.c.seqNo := r.c.headHash] else m
  }

  // The four kinds of comparison, each over the ascending list of its numbers.

  function EntryChecks(xs: seq<int>, ea: map<int, Entry>, eb: map<int, Entry>): seq<Check> {
    if xs == [] then []
    else
      (if xs[0] in ea && xs[0] in eb
       then [Check(xs[0], EntryDiffers, Jcs(LineOf(ea[xs[0]])) == Jcs(LineOf(eb[xs[0]])))]
       else [])
      + EntryChecks(xs[1..], ea, eb)
  }

  function HeadChecks(xs: seq<int>, ca: map<int, string>, cb: map<int, string>): seq<Check> {
    if xs == [] then []
    else
      (if xs[0] in ca && xs[0] in cb then [Check(xs[0], CheckpointHeadDiffers, ca[xs[0]] == cb[xs[0]])] else [])
      + HeadChecks(xs[1..], ca, cb)
  }

  function CrossChecks(xs: seq<int>, heads: map<int, string>, es: map<int, Entry>): seq<Check> {
    if xs == [] then []
    else
      (if xs[0] in heads && xs[0] in es
       then [Check(xs[0], CheckpointVsEntryDiffers, heads[xs[0]] == es[xs[0]].entryHash)]
       else [])
      + CrossChecks(xs[1..], heads, es)
  }

  function LinkChecks(xs: seq<int>, left: map<int, Entry>, right: map<int, Entry>): seq<Check> {
    if xs == [] then []
    else
      (if xs[0] in left && xs[0] + 1 in right && xs[0] + 1 !in left
       then [Check(xs[0] + 1, ChainLinkDiffers, right[xs[0] + 1].prevHash == left[xs[0]].entryHash)]
       else [])
      + LinkChecks(xs[1..], left, right)
  }

  function ChecksOf(ea: map<int, Entry>, eb: map<int, Entry>, ca: map<int, string>, cb: map<int, string>): seq<Check> {
    EntryChecks(IntSets.Sorted(ea.Keys * eb.Keys), ea, eb)
    + HeadChecks(IntSets.Sorted(ca.Keys * cb.Keys), ca, cb)
    + CrossChecks(IntSets.Sorted(ca.Keys * eb.Keys), ca, eb)
    + CrossChecks(IntSets.Sorted(cb.Keys * ea.Keys), cb, ea)
    + LinkChecks(IntSets.Sorted(ea.Keys), ea, eb)
    + LinkChecks(IntSets.Sorted(eb.Keys), eb, ea)
  }

  function Checks(a: seq<Record>, b: seq<Record>): seq<Check> {
    ChecksOf(ByNumber(a), ByNumber(b), HeadsByNumber(a), HeadsByNumber(b))
  }

  function InsertCheck(x: Check, xs: seq<Check>): seq<Check> {
    if xs == [] || x.seqNo <= xs[0].seqNo then [x] + xs else [xs[0]] + InsertCheck(x, xs[1..])
  }

  /** `sorted(checks, key=seq)`: stable, so that the order of the four kinds breaks ties. */
  function SortChecks(xs: seq<Check>): seq<Check> {
    if xs == [] then [] else InsertCheck(xs[0], SortChecks(xs[1..]))
  }

  function FirstBad(xs: seq<Check>): Option<Check> {
    if xs == [] then None else if !xs[0].ok then Some(xs[0]) else FirstBad(xs[1..])
  }

  function Judge(xs: seq<Check>): Judgement {
    match FirstBad(xs)
    case Some(bad) => Judgement(Some(false), Some(bad))
    case None => Judgement(if xs == [] then None else Some(true), None)
  }

  function Comparison(a: seq<Record>, b: seq<Record>): Judgement { Judge(SortChecks(Checks(a, b))) }

  method EntriesOf(records: seq<Record>) returns (m: map<int, Entry>)
    ensures m == ByNumber(records)
  {
    m := map[];
    for i := 0 to |records|
      invariant m == ByNumber(records[..i])
    {
      assert records[..i + 1][..i] == records[..i];
      var r := records[i];
      if r.EntryRec? && SeqInt(r.e.seqNo).Some? {
        m := m[SeqInt(r.e.seqNo).value := r.e];
      }
    }
    assert records[..|records|] == records;
  }

  method CkptsOf(records: seq<Record>) returns (m: map<int, string>)
    ensures m == HeadsByNumber(records)
  {
    m := map[];
    for i := 0 to |records|
      invariant m == HeadsByNumber(records[..i])
    {
      assert records[..i + 1][..i] == records[..i];
      if records[i].CkptRec? {
        m := m[records[i].c.seqNo := records[i].c.headHash];
      }
    }
    assert records[..|records|] == records;
  }

  /** All the checks of two slices, in the order the program makes them. */
  method AllChecks(a: seq<Record>, b: seq<Record>) returns (checks: seq<Check>)
    ensures checks == Checks(a, b)
  {
    hide Jcs, LineOf, EntryChecks, HeadChecks, CrossChecks, LinkChecks;
    var ea := EntriesOf(a);
    var eb := EntriesOf(b);
    var ca := CkptsOf(a);
    var cb := CkptsOf(b);
    checks := EntryChecks(IntSets.Sorted(ea.Keys * eb.Keys), ea, eb);
    checks := checks + HeadChecks(IntSets.Sorted(ca.Keys * cb.Keys), ca, cb);
    checks := checks + CrossChecks(IntSets.Sorted(ca.Keys * eb.Keys), ca, eb);
    checks := checks + CrossChecks(IntSets.Sorted(cb.Keys * ea.Keys), cb, ea);
    checks := checks + LinkChecks(IntSets.Sorted(ea.Keys), ea, eb);
    checks := checks + LinkChecks(IntSets.Sorted(eb.Keys), eb, ea);
  }

  /** The comparison itself: the checks in order of their number, up to the first that fails. */
  method Compare(a: seq<Record>, b: seq<Record>) returns (j: Judgement)
    ensures j == Comparison(a, b)
  {
    hide Checks, SortChecks;
    var checks := AllChecks(a, b);
    var ordered := SortChecks(checks);
    for i := 0 to |ordered|
      invariant FirstBad(ordered) == FirstBad(ordered[i..])
    {
      if !ordered[i].ok {
        return Judgement(Some(false), Some(ordered[i]));
      }
      assert ordered[i..][1..] == ordered[i + 1..];
    }
    assert ordered[|ordered|..] == [];
    j := Judgement(if ordered == [] then None else Some(true), None);
  }

  // --------------------------------------------------- what a verdict means

  lemma {:induction false} SortChecksMembers(xs: seq<Check>)
    ensures forall x :: x in SortChecks(xs) <==> x in xs
    ensures SortChecks(xs) == [] <==> xs == []
  {
    if xs != [] {
      SortChecksMembers(xs[1..]);
      InsertCheckMembers(xs[0], SortChecks(xs[1..]));
      assert forall x :: x in xs <==> x == xs[0] || x in xs[1..];
    }
  }

  lemma {:induction false} InsertCheckMembers(x: Check, xs: seq<Check>)
    ensures forall y :: y in InsertCheck(x, xs) <==> y == x || y in xs
  {
    if xs != [] && x.seqNo > xs[0].seqNo {
      InsertCheckMembers(x, xs[1..]);
      assert forall y :: y in xs <==> y == xs[0] || y in xs[1..];
    }
  }

  lemma {:induction false} FirstBadIn(xs: seq<Check>)
    ensures FirstBad(xs).Some? <==> exists x :: x in xs && !x.ok
    ensures FirstBad(xs).Some? ==> FirstBad(xs).value in xs && !FirstBad(xs).value.ok
  {
    if xs != [] {
      FirstBadIn(xs[1..]);
      assert forall x :: x in xs <==> x == xs[0] || x in xs[1..];
    }
  }

  /** A fork is reported exactly when some check fails, and agreement only over at least one check. */
  lemma VerdictMeaning(a: seq<Record>, b: seq<Record>)
    ensures Comparison(a, b).same == Some(false) <==> exists x :: x in Checks(a, b) && !x.ok
    ensures Comparison(a, b).same == Some(true) <==> Checks(a, b) != [] && AllOk(Checks(a, b))
  {
    hide Checks;
    SortChecksMembers(Checks(a, b));
    FirstBadIn(SortChecks(Checks(a, b)));
  }

  lemma {:induction false} EntryChecksMembers(xs: seq<int>, ea: map<int, Entry>, eb: map<int, Entry>)
    ensures forall c :: c in EntryChecks(xs, ea, eb) <==>
      c.seqNo in xs && c.seqNo in ea && c.seqNo in eb
      && c == Check(c.seqNo, EntryDiffers, Jcs(LineOf(ea[c.seqNo])) == Jcs(LineOf(eb[c.seqNo])))
  {
    hide Jcs, LineOf;
    if xs != [] {
      EntryChecksMembers(xs[1..], ea, eb);
      assert forall x :: x in xs <==> x == xs[0] || x in xs[1..];
    }
  }

  lemma {:induction false} HeadChecksMembers(xs: seq<int>, ca: map<int, string>, cb: map<int, string>)
    ensures forall c :: c in HeadChecks(xs, ca, cb) <==>
      c.seqNo in xs && c.seqNo in ca && c.seqNo in cb
      && c == Check(c.seqNo, CheckpointHeadDiffers, ca[c.seqNo] == cb[c.seqNo])
  {
    if xs != [] {
      HeadChecksMembers(xs[1..], ca, cb);
      assert forall x :: x in xs <==> x == xs[0] || x in xs[1..];
    }
  }

  lemma {:induction false} CrossChecksMembers(xs: seq<int>, heads: map<int, string>, es: map<int, Entry>)
    ensures forall c :: c in CrossChecks(xs, heads, es) <==>
      c.seqNo in xs && c.seqNo in heads && c.seqNo in es
      && c == Check(c.seqNo, CheckpointVsEntryDiffers, heads[c.seqNo] == es[c.seqNo].entryHash)
  {
    if xs != [] {
      CrossChecksMembers(xs[1..], heads, es);
      assert forall x :: x in xs <==> x == xs[0] || x in xs[1..];
    }
  }

  /** After entry s on one side, entry s + 1 of the other side names its hash. */
  predicate LinkOk(left: map<int, Entry>, right: map<int, Entry>, s: int) {
    s in left && s + 1 in right && s + 1 !in left ==> right[s + 1].prevHash == left[s].entryHash
  }

  lemma {:induction false} LinkChecksOk(xs: seq<int>, left: map<int, Entry>, right: map<int, Entry>)
    ensures AllOk(LinkChecks(xs, left, right)) <==> forall i | 0 <= i < |xs| :: LinkOk(left, right, xs[i])
  {
    if xs != [] {
      LinkChecksOk(xs[1..], left, right);
      var s := xs[0];
      var head := if s in left && s + 1 in right && s + 1 !in left
                  then [Check(s + 1, ChainLinkDiffers, right[s + 1].prevHash == left[s].entryHash)] else [];
      AllOkConcat(head, LinkChecks(xs[1..], left, right));
      assert AllOk(head) <==> LinkOk(left, right, s) by {
        if head != [] {
          assert head[0] in head;
        }
      }
      assert xs == [s] + xs[1..];
    }
  }

  ghost predicate SameLines(ea: map<int, Entry>, eb: map<int, Entry>) {
    forall s | s in ea && s in eb :: Jcs(LineOf(ea[s])) == Jcs(LineOf(eb[s]))
  }

  ghost predicate SameHeads(ca: map<int, string>, cb: map<int, string>) {
    forall s | s in ca && s in cb :: ca[s] == cb[s]
  }

  ghost predicate HeadsFit(heads: map<int, string>, es: map<int, Entry>) {
    forall s | s in heads && s in es :: heads[s] == es[s].entryHash
  }

  ghost predicate Links(left: map<int, Entry>, right: map<int, Entry>) {
    forall s | s in left :: LinkOk(left, right, s)
  }

  /** The checks of two exports, as one statement about what fails. */
  ghost predicate AllPass(ea: map<int, Entry>, eb: map<int, Entry>, ca: map<int, string>, cb: map<int, string>) {
    SameLines(ea, eb) && SameHeads(ca, cb) && HeadsFit(ca, eb) && HeadsFit(cb, ea) && Links(ea, eb) && Links(eb, ea)
  }

  predicate AllOk(xs: seq<Check>) { forall x | x in xs :: x.ok }

  lemma EntryPart(ea: map<int, Entry>, eb: map<int, Entry>)
    ensures AllOk(EntryChecks(IntSets.Sorted(ea.Keys * eb.Keys), ea, eb)) <==> SameLines(ea, eb)
  {
    hide Jcs, LineOf;
    var k := IntSets.Sorted(ea.Keys * eb.Keys);
    EntryChecksMembers(k, ea, eb);
    forall s | AllOk(EntryChecks(k, ea, eb)) && s in ea && s in eb ensures Jcs(LineOf(ea[s])) == Jcs(LineOf(eb[s])) {
      assert Check(s, EntryDiffers, Jcs(LineOf(ea[s])) == Jcs(LineOf(eb[s]))) in EntryChecks(k, ea, eb);
    }
  }

  lemma HeadPart(ca: map<int, string>, cb: map<int, string>)
    ensures AllOk(HeadChecks(IntSets.Sorted(ca.Keys * cb.Keys), ca, cb)) <==> SameHeads(ca, cb)
  {
    var k := IntSets.Sorted(ca.Keys * cb.Keys);
    HeadChecksMembers(k, ca, cb);
    forall s | AllOk(HeadChecks(k, ca, cb)) && s in ca && s in cb ensures ca[s] == cb[s] {
      assert Check(s, CheckpointHeadDiffers, ca[s] == cb[s]) in HeadChecks(k, ca, cb);
    }
  }

  lemma CrossPart(ca: map<int, string>, eb: map<int, Entry>)
    ensures AllOk(CrossChecks(IntSets.Sorted(ca.Keys * eb.Keys), ca, eb)) <==> HeadsFit(ca, eb)
  {
    var k := IntSets.Sorted(ca.Keys * eb.Keys);
    CrossChecksMembers(k, ca, eb);
    forall s | AllOk(CrossChecks(k, ca, eb)) && s in ca && s in eb ensures ca[s] == eb[s].entryHash {
      assert Check(s, CheckpointVsEntryDiffers, ca[s] == eb[s].entryHash) in CrossChecks(k, ca, eb);
    }
  }

  lemma LinkPart(left: map<int, Entry>, right: map<int, Entry>)
    ensures AllOk(LinkChecks(IntSets.Sorted(left.Keys), left, right)) <==> Links(left, right)
  {
    hide LinkOk, LinkChecks, AllOk;
    var k := IntSets.Sorted(left.Keys);
    LinkChecksOk(k, left, right);
    forall s | s in left && AllOk(LinkChecks(k, left, right)) ensures LinkOk(left, right, s) {
      assert s in k;
      var i :| 0 <= i < |k| && k[i] == s;
    }
    forall i | 0 <= i < |k| && Links(left, right) ensures LinkOk(left, right, k[i]) {
      assert k[i] in k;
    }
  }

  lemma AllOkConcat(xs: seq<Check>, ys: seq<Check>)
    ensures AllOk(xs + ys) <==> AllOk(xs) && AllOk(ys)
  {
    assert forall x :: x in xs + ys <==> x in xs || x in ys;
  }

  lemma AllOkOfSix(c1: seq<Check>, c2: seq<Check>, c3: seq<Check>, c4: seq<Check>, c5: seq<Check>, c6: seq<Check>)
    ensures AllOk(c1 + c2 + c3 + c4 + c5 + c6)
       <==> AllOk(c1) && AllOk(c2) && AllOk(c3) && AllOk(c4) && AllOk(c5) && AllOk(c6)
  {
    hide AllOk;
    AllOkConcat(c1, c2);
    AllOkConcat(c1 + c2, c3);
    AllOkConcat(c1 + c2 + c3, c4);
    AllOkConcat(c1 + c2 + c3 + c4, c5);
    AllOkConcat(c1 + c2 + c3 + c4 + c5, c6);
  }

  lemma ChecksMeaning(ea: map<int, Entry>, eb: map<int, Entry>, ca: map<int, string>, cb: map<int, string>)
    ensures AllOk(ChecksOf(ea, eb, ca, cb)) <==> AllPass(ea, eb, ca, cb)
  {
    hide AllOk, SameLines, SameHeads, HeadsFit, Links, EntryChecks, HeadChecks, CrossChecks, LinkChecks;
    EntryPart(ea, eb);
    HeadPart(ca, cb);
    CrossPart(ca, eb);
    CrossPart(cb, ea);
    LinkPart(ea, eb);
    LinkPart(eb, ea);
    AllOkOfSix(EntryChecks(IntSets.Sorted(ea.Keys * eb.Keys), ea, eb), HeadChecks(IntSets.Sorted(ca.Keys * cb.Keys), ca, cb),
               CrossChecks(IntSets.Sorted(ca.Keys * eb.Keys), ca, eb), CrossChecks(IntSets.Sorted(cb.Keys * ea.Keys), cb, ea),
               LinkChecks(IntSets.Sorted(ea.Keys), ea, eb), LinkChecks(IntSets.Sorted(eb.Keys), eb, ea));
  }
}
