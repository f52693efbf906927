/**
  Offline verification of an export (`verify` in bus_notary.py), and what its
  verdict is worth: every log the writer built is `ok`, and a slice reported
  `trusted` is a prefix of what the notary wrote.
*/
module NotaryVerify {
  import opened Wrappers
  import opened CanonicalJson
  import opened NotaryLog
  import IntSets

  datatype Fault =
    | Unparseable | Malformed | Rewritten | NotContinuing | NotGenesis | Reordered | Gap | ChainBroken
    | ForgedSignature | UntrustedKey | HeadMismatch | BeyondChain

  /** `Records` without a hashable seq report none. */
  datatype VError = VError(at: SeqVal, fault: Fault)

  datatype CkptReport = CkptReport(c: Checkpoint, ok: bool, trusted: bool)

  datatype VState = VState(
    errors: seq<VError>, reports: seq<CkptReport>, computed: map<SeqVal, string>,
    lastSeq: Option<int>, lastHash: string)

  const START := VState([], [], map[], None, "")

  datatype Report = Report(
    ok: bool, trusted: bool, anchored: bool, sliceStart: Option<int>, coveredTo: Option<int>, unverifiedTail: nat,
    errors: seq<VError>, reports: seq<CkptReport>, headSeq: Option<int>, headHash: string)

  /** What the caller fixes: the trusted key ("" when none was given) and the hash the slice must continue. */
  datatype Given = Given(trustedPub: string, startPrev: Option<string>)

  /** Python's dictionary key: `True` and 1 are one key. */
  function Key(v: SeqVal): SeqVal {
    match SeqInt(v)
    case Some(n) => N(n)
    case None => v
  }

  function Err1(bad: bool, at: SeqVal, fault: Fault): seq<VError> {
    if bad then [VError(at, fault)] else []
  }

  /** The complaints about one well-formed entry whose recomputed hash is `h`. */
  function EntryErrors(g: Given, st: VState, e: Entry, h: string): seq<VError> {
    var n := SeqInt(e.seqNo);
    Err1(h != e.entryHash, e.seqNo, Rewritten) +
    match st.lastSeq
    case None =>
      Err1(g.startPrev.Some? && e.prevHash != g.startPrev.value, e.seqNo, NotContinuing)
      + Err1(n == Some(1) && e.prevHash != GENESIS, e.seqNo, NotGenesis)
    case Some(last) =>
      (if n.None? || n.value <= last then [VError(e.seqNo, Reordered)]
       else Err1(n.value != last + 1, e.seqNo, Gap))
      + Err1(e.prevHash != st.lastHash, e.seqNo, ChainBroken)
  }

  predicate Advances(st: VState, n: Option<int>) {
    n.Some? && (st.lastSeq.None? || n.value > st.lastSeq.value)
  }

  function EntryStep(c: Crypto, g: Given, st: VState, e: Entry): VState {
    match EntryHash(c, e)
    case Err(_) => st.(errors := st.errors + [VError(e.seqNo, Malformed)])
    case Ok(h) =>
      var n := SeqInt(e.seqNo);
      st.(errors := st.errors + EntryErrors(g, st, e, h),
          computed := st.computed[Key(e.seqNo) := e.entryHash],
          lastSeq := if Advances(st, n) then n else st.lastSeq,
          lastHash := if Advances(st, n) then e.entryHash else st.lastHash)
  }

  /** Ed25519 over the canonical payload; a payload outside the profile never verifies. */
  predicate SignatureOk(c: Crypto, k: Checkpoint) {
    Canonical(CkptBody(k)) && c.valid(k.pub, Text(CkptBody(k)), k.sig)
  }

  function CkptFault(c: Crypto, g: Given, st: VState, k: Checkpoint): Option<Fault> {
    if g.trustedPub != "" && k.pub != g.trustedPub then Some(UntrustedKey)
    else if !SignatureOk(c, k) then Some(ForgedSignature)
    else if N(k.seqNo) in st.computed then
      if st.computed[N(k.seqNo)] != k.headHash then Some(HeadMismatch) else None
    else if k.seqNo > (if st.lastSeq.Some? then st.lastSeq.value else 0) then Some(BeyondChain)
    else None
  }

  function CkptStep(c: Crypto, g: Given, st: VState, k: Checkpoint): VState {
    match CkptFault(c, g, st, k)
    case Some(f) => st.(errors := st.errors + [VError(N(k.seqNo), f)], reports := st.reports + [CkptReport(k, false, false)])
    case None => st.(reports := st.reports + [CkptReport(k, true, g.trustedPub != "" && k.pub == g.trustedPub)])
  }

  function Step(c: Crypto, g: Given, st: VState, r: Record): VState {
    match r
    case Garbage => st.(errors := st.errors + [VError(NoSeq, Unparseable)])
    case MalformedEntry => st.(errors := st.errors + [VError(NoSeq, Malformed)])
    case EntryRec(e) => EntryStep(c, g, st, e)
    case CkptRec(k) => CkptStep(c, g, st, k)
    case OtherRec => st
  }

  function Scan(c: Crypto, g: Given, st: VState, records: seq<Record>): VState {
    if records == [] then st
    else Step(c, g, Scan(c, g, st, records[..|records| - 1]), records[|records| - 1])
  }

  // ------------------------------------------------------------- the verdict

  /** A checkpoint that verified with the trusted key and binds an exported entry. */
  predicate Binds(st: VState, r: CkptReport) {
    r.ok && r.trusted && N(r.c.seqNo) in st.computed
  }

  function CoveredTo(st: VState, reports: seq<CkptReport>): Option<int> {
    if reports == [] then None
    else
      var rest := CoveredTo(st, reports[..|reports| - 1]);
      var r := reports[|reports| - 1];
      if !Binds(st, r) then rest
      else if rest.Some? && rest.value >= r.c.seqNo then rest
      else Some(r.c.seqNo)
  }

  function IntKeys(m: map<SeqVal, string>): set<int> {
    set k | k in m && k.N? :: k.n
  }

  function Uncovered(m: map<SeqVal, string>, covered: Option<int>): set<int> {
    set n | n in IntKeys(m) && (covered.None? || n > covered.value)
  }

  function MinOf(s: set<int>): Option<int> {
    if s == {} then None else Some(IntSets.Least(s))
  }

  function Verdict(g: Given, st: VState): Report {
    var covered := CoveredTo(st, st.reports);
    var tail := |Uncovered(st.computed, covered)|;
    var start := MinOf(IntKeys(st.computed));
    var anchored := (g.startPrev.Some? && g.startPrev.value != "") || start == Some(1);
    var trusted := st.errors == [] && g.trustedPub != "" && covered.Some? && tail == 0;
    Report(st.errors == [], trusted && anchored, anchored, start, covered, tail,
           st.errors, st.reports, st.lastSeq, st.lastHash)
  }

  function Verified(c: Crypto, g: Given, records: seq<Record>): Report {
    Verdict(g, Scan(c, g, START, records))
  }

  /** The verifier's loop, with the variables it keeps. */
  method Verify(c: Crypto, g: Given, records: seq<Record>) returns (report: Report)
    ensures report == Verified(c, g, records)
  {
    hide EntryHash, SignatureOk;
    var errors: seq<VError>, reports: seq<CkptReport> := [], [];
    var computed: map<SeqVal, string> := map[];
    var lastSeq: Option<int>, lastHash := None, "";
    for i := 0 to |records|
      invariant VState(errors, reports, computed, lastSeq, lastHash) == Scan(c, g, START, records[..i])
    {
      ghost var st := VState(errors, reports, computed, lastSeq, lastHash);
      assert records[..i + 1][..i] == records[..i];
      match records[i]
      case Garbage => errors := errors + [VError(NoSeq, Unparseable)];
      case MalformedEntry => errors := errors + [VError(NoSeq, Malformed)];
      case OtherRec =>
      case EntryRec(e) =>
        match EntryHash(c, e) {
          case Err(_) => errors := errors + [VError(e.seqNo, Malformed)];
          case Ok(h) =>
            var n := SeqInt(e.seqNo);
            errors := errors + EntryErrors(g, VState(errors, reports, computed, lastSeq, lastHash), e, h);
            computed := computed[Key(e.seqNo) := e.entryHash];
            if n.Some? && (lastSeq.None? || n.value > lastSeq.value) {
              lastSeq, lastHash := n, e.entryHash;
            }
        }
      case CkptRec(k) =>
        match CkptFault(c, g, VState(errors, reports, computed, lastSeq, lastHash), k) {
          case Some(f) =>
            errors, reports := errors + [VError(N(k.seqNo), f)], reports + [CkptReport(k, false, false)];
          case None =>
            reports := reports + [CkptReport(k, true, g.trustedPub != "" && k.pub == g.trustedPub)];
        }
    }
    assert records[..|records|] == records;
    report := Verdict(g, VState(errors, reports, computed, lastSeq, lastHash));
  }
}
