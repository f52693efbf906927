/**
  The notary's append-only log (bus_notary.py): hash-chained entries, and a
  signed checkpoint after every `every` of them. `WellBuilt` says what each
  `Record` and `MakeCheckpoint` call keeps; the class `Notary` is the writer.
*/
module NotaryLog {
  import opened Wrappers
  import opened CanonicalJson

  function Zeros(n: nat): string { if n == 0 then "" else "0" + Zeros(n - 1) }

  /** The `prev_hash` of a first entry. */
  const GENESIS := Zeros(64)

  /**
    SHA-256, the `json.dumps` fallback text, Ed25519 signing with the notary's
    key, and Ed25519 verification of (public key, payload, signature).
  */
  datatype Crypto = Crypto(
    hash: string -> string,
    dumps: Json -> string,
    sign: string -> string,
    valid: (string, string, string) -> bool)

  ghost predicate CollisionFree(c: Crypto) {
    forall x, y :: c.hash(x) == c.hash(y) ==> x == y
  }

  /** The notary's own signatures verify under its public key. */
  ghost predicate SignsFor(c: Crypto, pub: string) {
    forall payload :: c.valid(pub, payload, c.sign(payload))
  }

  /** The `seq` of an entry that came from outside: any hashable JSON scalar. */
  datatype SeqVal = N(n: int) | B(b: bool) | T(s: string) | NoSeq

  /** Python's `isinstance(seq, int)`: a bool is an int with value 0 or 1. */
  function SeqInt(v: SeqVal): Option<int> {
    match v
    case N(n) => Some(n)
    case B(b) => Some(if b then 1 else 0)
    case _ => None
  }

  function SeqJson(v: SeqVal): Json {
    match v
    case N(n) => Int(n)
    case B(b) => Bool(b)
    case T(s) => Str(s)
    case NoSeq => Null
  }

  datatype Entry = Entry(
    seqNo: SeqVal, prevHash: string, receivedAt: int, envSha: string, sender: string, senderAuth: string,
    recipient: string, kind: string, decision: string, reason: string, claimed: Option<int>,
    cursor: Option<Json>, entryHash: string)

  datatype Checkpoint = Checkpoint(seqNo: int, headHash: string, ts: int, pub: string, sig: string)

  /** One line of a log or of an export. */
  datatype Record =
    | EntryRec(e: Entry)
    | CkptRec(c: Checkpoint)
    | MalformedEntry          // an entry without one of the hashed keys
    | Garbage                 // not a JSON object
    | OtherRec                // a type this version does not know

  // ---------------------------------------------------------------- hashing

  function ClaimedJson(c: Option<int>): Json {
    match c
    case Some(n) => Int(n)
    case None => Null
  }

  /** The hashed part of an entry: ENTRY_KEYS, and the cursor when it is not null. */
  function EntryMap(e: Entry): map<string, Json> {
    map[
      "seq" := SeqJson(e.seqNo), "prev_hash" := Str(e.prevHash), "received_at_ms" := Int(e.receivedAt),
      "envelope_sha256" := Str(e.envSha), "sender_identity" := Str(e.sender), "sender_auth" := Str(e.senderAuth),
      "recipient" := Str(e.recipient), "kind" := Str(e.kind), "decision" := Str(e.decision),
      "reason" := Str(e.reason), "claimed_ts_ms" := ClaimedJson(e.claimed)]
  }

  function CursorOf(e: Entry): Json {
    match e.cursor
    case Some(j) => j
    case None => Null
  }

  function EntryBody(e: Entry): Json {
    if CursorOf(e) == Null then Obj(EntryMap(e)) else Obj(EntryMap(e)["cursor" := CursorOf(e)])
  }

  function EntryHash(c: Crypto, e: Entry): Result<string> {
    match Jcs(EntryBody(e))
    case Ok(text) => Ok(c.hash(text))
    case Err(why) => Err(why)
  }

  /** All the fields `entry_hash` covers agree. */
  predicate SameHashed(a: Entry, b: Entry) {
    && a.(cursor := None, entryHash := "") == b.(cursor := None, entryHash := "")
    && CursorOf(a) == CursorOf(b)
  }

  lemma EntryMapInjective(a: Entry, b: Entry)
    requires EntryMap(a) == EntryMap(b)
    ensures a.(cursor := None, entryHash := "") == b.(cursor := None, entryHash := "")
  {
    var m, n := EntryMap(a), EntryMap(b);
    assert m["seq"] == n["seq"] && m["prev_hash"] == n["prev_hash"] && m["received_at_ms"] == n["received_at_ms"];
    assert m["envelope_sha256"] == n["envelope_sha256"] && m["sender_identity"] == n["sender_identity"];
    assert m["sender_auth"] == n["sender_auth"] && m["recipient"] == n["recipient"] && m["kind"] == n["kind"];
    assert m["decision"] == n["decision"] && m["reason"] == n["reason"] && m["claimed_ts_ms"] == n["claimed_ts_ms"];
    assert a.seqNo == b.seqNo && a.claimed == b.claimed;
  }

  lemma NoCursorKey(e: Entry)
    ensures "cursor" !in EntryMap(e)
  {
  }

  /** The body is the fixed fields, and the cursor under its own key unless it is null. */
  lemma EntryBodyParts(e: Entry)
    ensures EntryBody(e).Obj?
    ensures EntryMap(e) == EntryBody(e).m - {"cursor"}
    ensures CursorOf(e) == if "cursor" in EntryBody(e).m then EntryBody(e).m["cursor"] else Null
  {
    NoCursorKey(e);
    hide EntryMap, CursorOf;
  }

  lemma EntryBodyInjective(a: Entry, b: Entry)
    requires EntryBody(a) == EntryBody(b)
    ensures SameHashed(a, b)
  {
    hide EntryMap, CursorOf, EntryBody;
    EntryBodyParts(a);
    EntryBodyParts(b);
    EntryMapInjective(a, b);
  }

  /** With a collision-free hash, `entry_hash` determines every hashed field and the cursor. */
  lemma EntryHashDetermines(c: Crypto, a: Entry, b: Entry)
    requires CollisionFree(c)
    requires EntryHash(c, a).Ok? && EntryHash(c, a) == EntryHash(c, b)
    ensures SameHashed(a, b)
  {
    TextInjective(EntryBody(a), EntryBody(b));
    EntryBodyInjective(a, b);
  }

  function CkptBody(k: Checkpoint): Json {
    Obj(map["type" := Str("checkpoint"), "seq" := Int(k.seqNo), "head_hash" := Str(k.headHash),
            "ts_ms" := Int(k.ts), "notary_pub" := Str(k.pub)])
  }

  lemma CkptBodyInjective(a: Checkpoint, b: Checkpoint)
    requires CkptBody(a) == CkptBody(b)
    ensures a.(sig := "") == b.(sig := "")
  {
    var m, n := CkptBody(a).m, CkptBody(b).m;
    assert m["seq"] == n["seq"] && m["head_hash"] == n["head_hash"] && m["ts_ms"] == n["ts_ms"];
    assert m["notary_pub"] == n["notary_pub"];
  }

  /** `envelope_hash`, after `record`'s rule that a 64-character string is a hash already. */
  function EnvelopeHash(c: Crypto, v: Json): string {
    match Jcs(v)
    case Ok(text) => c.hash(text)
    case Err(_) => "json:" + c.hash(c.dumps(v))
  }

  function EnvelopeSha(c: Crypto, v: Json): string {
    if v.Str? && |v.s| == 64 then v.s else EnvelopeHash(c, v)
  }

  /** The claimed time in milliseconds, whatever unit its magnitude betrays. */
  function ToMs(ts: int): int {
    var a := if ts < 0 then -ts else ts;
    if a < 100_000_000_000 then ts * 1000
    else if a < 100_000_000_000_000 then ts
    else if a < 100_000_000_000_000_000 then ts / 1000
    else ts / 1_000_000
  }

  // ------------------------------------------------------------- the log file

  function Entries(file: seq<Record>): seq<Entry> {
    if file == [] then []
    else if file[|file| - 1].EntryRec? then Entries(file[..|file| - 1]) + [file[|file| - 1].e]
    else Entries(file[..|file| - 1])
  }

  /** `_tail`: the last seq, the last entry hash and the entries since the last checkpoint. */
  datatype Tail = Tail(seqNo: int, head: string, since: nat)

  function TailOf(file: seq<Record>): Tail {
    if file == [] then Tail(0, GENESIS, 0)
    else
      var t := TailOf(file[..|file| - 1]);
      match file[|file| - 1]
      case EntryRec(e) => Tail(if e.seqNo.N? then e.seqNo.n else 0, e.entryHash, t.since + 1)
      case CkptRec(_) => t.(since := 0)
      case _ => t
  }

  /** What the caller of `record` supplies, with the clock and the audit head read during the call. */
  datatype Note = Note(
    envelope: Json, sender: string, senderAuth: string, recipient: string, kind: string, decision: string,
    reason: string, claimed: Option<int>, cursor: Option<map<string, Json>>,
    now: int, head: Option<(nat, string)>, ckptNow: int)

  predicate IsHex64(s: string) {
    |s| == 64 && forall i | 0 <= i < 64 :: IsDigit(s[i]) || 'a' <= s[i] <= 'f'
  }

  /** The audit anchors belong to the notary: it overwrites them in a round entry and adds them to a close. */
  function Anchored(n: Note): Option<map<string, Json>> {
    match (n.cursor, n.head)
    case (Some(m), Some(h)) =>
      if n.kind == "pickup" && n.decision == "accepted" && ("pending" in m || "pending_unknown" in m) then
        Some(m["audit_seq" := Int(h.0)]["audit_hash" := Str(h.1)]["closes" := Int(1)])
      else if n.kind == "round_close" && n.decision == "accepted" && "audit_end_seq" !in m then
        Some(m["audit_end_seq" := Int(h.0)]["audit_end_hash" := Str(h.1)])
      else n.cursor
    case _ => n.cursor
  }

  predicate CursorValueOk(k: string, v: Json) {
    if k == "audit_hash" || k == "audit_end_hash" then v.Str? && IsHex64(v.s) else v.Int? && v.n >= 0
  }

  predicate CursorOk(c: Option<map<string, Json>>) {
    c.Some? ==> forall k | k in c.value :: CursorValueOk(k, c.value[k])
  }

  function Take200(s: string): string { if |s| > 200 then s[..200] else s }

  /** The entry `record` is about to write after tail `t`, before its hash is filled in. */
  function Draft(c: Crypto, t: Tail, n: Note): Entry {
    var cur := Anchored(n);
    Entry(N(t.seqNo + 1), t.head, n.now, EnvelopeSha(c, n.envelope), n.sender, n.senderAuth, n.recipient, n.kind,
          n.decision, Take200(n.reason), if n.claimed.Some? then Some(ToMs(n.claimed.value)) else None,
          if cur.Some? then Some(Obj(cur.value)) else None, "")
  }

  function MakeCkpt(c: Crypto, pub: string, seqNo: int, head: string, ts: int): Result<Checkpoint> {
    var k := Checkpoint(seqNo, head, ts, pub, "");
    match Jcs(CkptBody(k))
    case Ok(text) => Ok(k.(sig := c.sign(text)))
    case Err(why) => Err(why)
  }

  predicate NoteOk(n: Note) {
    && n.senderAuth in {"ssh-key", "pickup-sig", "unauthenticated-claim"}
    && n.decision in {"accepted", "rejected", "delivered"}
    && CursorOk(Anchored(n))
  }

  /** The finished entry, or the exception that stops it before anything is written. */
  function Sealed(c: Crypto, t: Tail, n: Note): Result<Entry> {
    if !NoteOk(n) then Err("NotaryError")
    else
      match EntryHash(c, Draft(c, t, n))
      case Ok(h) => Ok(Draft(c, t, n).(entryHash := h))
      case Err(why) => Err(why)
  }

  /** `record`: the entry returned and the file it leaves, or the exception with the file as it stands then. */
  function RecordStep(c: Crypto, pub: string, every: nat, file: seq<Record>, n: Note): (Result<Entry>, seq<Record>) {
    var t := TailOf(file);
    match Sealed(c, t, n)
    case Err(why) => (Err(why), file)
    case Ok(e) =>
      if pub != "" && t.since + 1 >= every then
        match MakeCkpt(c, pub, t.seqNo + 1, e.entryHash, n.ckptNow)
        case Ok(k) => (Ok(e), file + [EntryRec(e)] + [CkptRec(k)])
        case Err(why) => (Err(why), file + [EntryRec(e)])
      else (Ok(e), file + [EntryRec(e)])
  }

  /** `checkpoint`: the operator's own signature over the current head. */
  function CheckpointStep(c: Crypto, pub: string, file: seq<Record>, now: int): (Result<Checkpoint>, seq<Record>) {
    if pub == "" then (Err("NotaryError"), file)
    else
      var t := TailOf(file);
      match MakeCkpt(c, pub, t.seqNo, t.head, now)
      case Ok(k) => (Ok(k), file + [CkptRec(k)])
      case Err(why) => (Err(why), file)
  }

  // ------------------------------------------------------- what the log keeps

  predicate HashOk(c: Crypto, e: Entry) { EntryHash(c, e) == Ok(e.entryHash) }

  /** Entry i carries number i + 1, its own hash, and the hash of its predecessor. */
  predicate LinkAt(c: Crypto, es: seq<Entry>, i: nat)
    requires i < |es|
  {
    && es[i].seqNo == N(i + 1)
    && HashOk(c, es[i])
    && es[i].cursor != Some(Null)
    && es[i].prevHash == if i == 0 then GENESIS else es[i - 1].entryHash
  }

  predicate Chained(c: Crypto, es: seq<Entry>) {
    forall i | 0 <= i < |es| :: LinkAt(c, es, i)
  }

  function HeadOf(es: seq<Entry>): string {
    if es == [] then GENESIS else es[|es| - 1].entryHash
  }

  /** A checkpoint the notary signed after writing the entries `es`. */
  predicate CkptFor(c: Crypto, pub: string, k: Checkpoint, es: seq<Entry>) {
    && 0 <= k.seqNo <= |es|
    && k.headHash == (if k.seqNo == 0 then GENESIS else es[k.seqNo - 1].entryHash)
    && k.pub == pub
    && Canonical(CkptBody(k))
    && k.sig == c.sign(Text(CkptBody(k)))
  }

  predicate CkptsFor(c: Crypto, pub: string, file: seq<Record>, es: seq<Entry>) {
    forall r | r in file :: r.CkptRec? ==> CkptFor(c, pub, r.c, es)
  }

  predicate OnlyOwnRecords(file: seq<Record>) {
    forall r | r in file :: r.EntryRec? || r.CkptRec?
  }

  function LastCkpt(file: seq<Record>): Option<Checkpoint> {
    if file == [] then None
    else if file[|file| - 1].CkptRec? then Some(file[|file| - 1].c)
    else LastCkpt(file[..|file| - 1])
  }

  function SignedUpTo(file: seq<Record>): int {
    match LastCkpt(file)
    case Some(k) => k.seqNo
    case None => 0
  }

  predicate WellBuilt(c: Crypto, pub: string, file: seq<Record>) {
    && OnlyOwnRecords(file)
    && Chained(c, Entries(file))
    && CkptsFor(c, pub, file, Entries(file))
    && TailOf(file).seqNo == |Entries(file)|
    && TailOf(file).head == HeadOf(Entries(file))
    && SignedUpTo(file) + TailOf(file).since == |Entries(file)|
  }

  lemma EntriesAppend(file: seq<Record>, r: Record)
    ensures Entries(file + [r]) == if r.EntryRec? then Entries(file) + [r.e] else Entries(file)
    ensures TailOf(file + [r]) == match r
                                  case EntryRec(e) => Tail(if e.seqNo.N? then e.seqNo.n else 0, e.entryHash, TailOf(file).since + 1)
                                  case CkptRec(_) => TailOf(file).(since := 0)
                                  case _ => TailOf(file)
    ensures LastCkpt(file + [r]) == if r.CkptRec? then Some(r.c) else LastCkpt(file)
  {
    assert (file + [r])[..|file + [r]| - 1] == file;
  }

  lemma ChainedAppend(c: Crypto, es: seq<Entry>, e: Entry)
    requires Chained(c, es) && e.seqNo == N(|es| + 1) && e.prevHash == HeadOf(es) && HashOk(c, e)
    requires e.cursor != Some(Null)
    ensures Chained(c, es + [e])
  {
    hide HashOk;
    forall i | 0 <= i < |es + [e]| ensures LinkAt(c, es + [e], i) {
      assert (es + [e])[i] == if i < |es| then es[i] else e;
      if i < |es| {
        assert LinkAt(c, es, i);
      }
    }
  }

  lemma CkptsForAppend(c: Crypto, pub: string, file: seq<Record>, es: seq<Entry>, e: Entry)
    requires CkptsFor(c, pub, file, es)
    ensures CkptsFor(c, pub, file + [EntryRec(e)], es + [e])
  {
    forall r | r in file && r.CkptRec? ensures CkptFor(c, pub, r.c, es + [e]) {
      assert CkptFor(c, pub, r.c, es);
    }
  }

  /** Appending the next chained entry keeps the log well built. */
  lemma AppendEntryKeeps(c: Crypto, pub: string, file: seq<Record>, e: Entry)
    requires WellBuilt(c, pub, file)
    requires e.seqNo == N(TailOf(file).seqNo + 1) && e.prevHash == TailOf(file).head && HashOk(c, e)
    requires e.cursor != Some(Null)
    ensures WellBuilt(c, pub, file + [EntryRec(e)])
    ensures Entries(file + [EntryRec(e)]) == Entries(file) + [e]
  {
    EntriesAppend(file, EntryRec(e));
    ChainedAppend(c, Entries(file), e);
    CkptsForAppend(c, pub, file, Entries(file), e);
  }

  lemma MakeCkptFits(c: Crypto, pub: string, es: seq<Entry>, now: int)
    ensures var k := MakeCkpt(c, pub, |es|, HeadOf(es), now);
            k.Ok? ==> CkptFor(c, pub, k.value, es)
  {
    var k := MakeCkpt(c, pub, |es|, HeadOf(es), now);
    if k.Ok? {
      assert CkptBody(k.value) == CkptBody(k.value.(sig := ""));
    }
  }

  lemma AppendCkptKeeps(c: Crypto, pub: string, file: seq<Record>, now: int)
    requires WellBuilt(c, pub, file)
    ensures var k := MakeCkpt(c, pub, TailOf(file).seqNo, TailOf(file).head, now);
            k.Ok? ==> WellBuilt(c, pub, file + [CkptRec(k.value)])
                      && Entries(file + [CkptRec(k.value)]) == Entries(file)
  {
    MakeCkptFits(c, pub, Entries(file), now);
    var k := MakeCkpt(c, pub, TailOf(file).seqNo, TailOf(file).head, now);
    if k.Ok? {
      EntriesAppend(file, CkptRec(k.value));
    }
  }

  lemma SealedFits(c: Crypto, t: Tail, n: Note)
    ensures var r := Sealed(c, t, n);
            r.Ok? ==> r.value.seqNo == N(t.seqNo + 1) && r.value.prevHash == t.head && HashOk(c, r.value)
                      && r.value.cursor != Some(Null)
  {
    var d := Draft(c, t, n);
    if EntryHash(c, d).Ok? {
      assert EntryBody(d.(entryHash := EntryHash(c, d).value)) == EntryBody(d);
    }
  }

  /**
    Every `record` call keeps the chain, the numbering and the signed heads;
    it appends exactly its own entry when it succeeds, and at most that when
    the signature after it raises.
  */
  lemma RecordKeeps(c: Crypto, pub: string, every: nat, file: seq<Record>, n: Note)
    requires WellBuilt(c, pub, file)
    ensures WellBuilt(c, pub, RecordStep(c, pub, every, file, n).1)
    ensures var (r, after) := RecordStep(c, pub, every, file, n);
            if r.Ok? then Entries(after) == Entries(file) + [r.value]
            else Entries(file) <= Entries(after) && |Entries(after)| <= |Entries(file)| + 1
  {
    hide Sealed, MakeCkpt, WellBuilt, HashOk;
    var t := TailOf(file);
    SealedFits(c, t, n);
    var s := Sealed(c, t, n);
    if s.Ok? {
      var file1 := file + [EntryRec(s.value)];
      AppendEntryKeeps(c, pub, file, s.value);
      EntriesAppend(file, EntryRec(s.value));
      AppendCkptKeeps(c, pub, file1, n.ckptNow);
    }
  }

  /**
    Unless its signature raised, a call leaves fewer than `every` entries unsigned at the
    end, however many there were; if it raised, at most one more than before.
  */
  lemma RecordBoundsTail(c: Crypto, pub: string, every: nat, file: seq<Record>, n: Note)
    requires pub != "" && every >= 1
    ensures RecordStep(c, pub, every, file, n).0.Ok? ==> TailOf(RecordStep(c, pub, every, file, n).1).since < every
    ensures TailOf(RecordStep(c, pub, every, file, n).1).since <= TailOf(file).since + 1
  {
    hide Sealed, MakeCkpt;
    var s := Sealed(c, TailOf(file), n);
    if s.Ok? {
      EntriesAppend(file, EntryRec(s.value));
      var k := MakeCkpt(c, pub, TailOf(file).seqNo + 1, s.value.entryHash, n.ckptNow);
      if k.Ok? {
        EntriesAppend(file + [EntryRec(s.value)], CkptRec(k.value));
      }
    }
  }

  lemma CheckpointKeeps(c: Crypto, pub: string, file: seq<Record>, now: int)
    requires WellBuilt(c, pub, file)
    ensures var (r, after) := CheckpointStep(c, pub, file, now);
            && WellBuilt(c, pub, after) && Entries(after) == Entries(file)
            && (r.Ok? ==> TailOf(after).since == 0)
            && (r.Err? ==> after == file)
  {
    AppendCkptKeeps(c, pub, file, now);
    var k := MakeCkpt(c, pub, TailOf(file).seqNo, TailOf(file).head, now);
    if k.Ok? {
      EntriesAppend(file, CkptRec(k.value));
    }
  }

  /** Any history of the writer's two calls, with one key and one interval. */
  datatype Call = RecordCall(n: Note) | CheckpointCall(now: int)

  function CallStep(c: Crypto, pub: string, every: nat, file: seq<Record>, call: Call): seq<Record> {
    match call
    case RecordCall(n) => RecordStep(c, pub, every, file, n).1
    case CheckpointCall(now) => CheckpointStep(c, pub, file, now).1
  }

  function LogAfter(c: Crypto, pub: string, every: nat, calls: seq<Call>): seq<Record> {
    if calls == [] then []
    else CallStep(c, pub, every, LogAfter(c, pub, every, calls[..|calls| - 1]), calls[|calls| - 1])
  }

  lemma {:induction false} EveryLogIsWellBuilt(c: Crypto, pub: string, every: nat, calls: seq<Call>)
    ensures WellBuilt(c, pub, LogAfter(c, pub, every, calls))
  {
    if calls != [] {
      hide WellBuilt, RecordStep, CheckpointStep;
      var before := LogAfter(c, pub, every, calls[..|calls| - 1]);
      EveryLogIsWellBuilt(c, pub, every, calls[..|calls| - 1]);
      match calls[|calls| - 1]
      case RecordCall(n) => RecordKeeps(c, pub, every, before, n);
      case CheckpointCall(now) => CheckpointKeeps(c, pub, before, now);
    }
  }

  /** The log only grows: what was written stays, in place. */
  lemma {:induction false} LogGrows(c: Crypto, pub: string, every: nat, calls: seq<Call>, more: seq<Call>)
    ensures Entries(LogAfter(c, pub, every, calls)) <= Entries(LogAfter(c, pub, every, calls + more))
  {
    hide WellBuilt, RecordStep, CheckpointStep;
    var all := calls + more;
    if more == [] {
      assert all == calls;
    } else {
      var init := more[..|more| - 1];
      assert all[..|all| - 1] == calls + init;
      LogGrows(c, pub, every, calls, init);
      var before := LogAfter(c, pub, every, calls + init);
      EveryLogIsWellBuilt(c, pub, every, calls + init);
      match more[|more| - 1]
      case RecordCall(n) => RecordKeeps(c, pub, every, before, n);
      case CheckpointCall(now) => CheckpointKeeps(c, pub, before, now);
    }
  }

  /** A call that returned, or that changed nothing: every call but one whose signature raised. */
  predicate Clean(c: Crypto, pub: string, every: nat, file: seq<Record>, call: Call) {
    match call
    case RecordCall(n) => RecordStep(c, pub, every, file, n).0.Ok? || RecordStep(c, pub, every, file, n).1 == file
    case CheckpointCall(now) => true
  }

  /** How many calls wrote an entry and then raised at its signature. */
  function Raised(c: Crypto, pub: string, every: nat, calls: seq<Call>): nat {
    if calls == [] then 0
    else
      var init := calls[..|calls| - 1];
      Raised(c, pub, every, init)
      + if Clean(c, pub, every, LogAfter(c, pub, every, init), calls[|calls| - 1]) then 0 else 1
  }

  /** Each call whose signature raised leaves one more entry unsigned, and no other call does. */
  lemma {:induction false} UnsignedTailIsShort(c: Crypto, pub: string, every: nat, calls: seq<Call>)
    requires pub != "" && every >= 1
    ensures TailOf(LogAfter(c, pub, every, calls)).since < every + Raised(c, pub, every, calls)
  {
    if calls != [] {
      hide RecordStep, CheckpointStep;
      var init := calls[..|calls| - 1];
      var before := LogAfter(c, pub, every, init);
      UnsignedTailIsShort(c, pub, every, init);
      EveryLogIsWellBuilt(c, pub, every, init);
      match calls[|calls| - 1]
      case RecordCall(n) => RecordBoundsTail(c, pub, every, before, n);
      case CheckpointCall(now) => CheckpointKeeps(c, pub, before, now);
    }
  }

  lemma {:induction false} CleanRunsRaiseNothing(c: Crypto, pub: string, every: nat, calls: seq<Call>)
    ensures Raised(c, pub, every, calls) == 0
       <==> forall i | 0 <= i < |calls| :: Clean(c, pub, every, LogAfter(c, pub, every, calls[..i]), calls[i])
  {
    hide RecordStep, CheckpointStep, Clean;
    if calls != [] {
      var init := calls[..|calls| - 1];
      CleanRunsRaiseNothing(c, pub, every, init);
      forall i | 0 <= i < |init| ensures init[..i] == calls[..i] && init[i] == calls[i] {
      }
    }
  }

  // ------------------------------------------------------- backward agreement

  /** Hashes recompute and each entry names its predecessor's hash; the numbering is left open. */
  predicate Linked(c: Crypto, es: seq<Entry>) {
    && (forall i | 0 <= i < |es| :: HashOk(c, es[i]))
    && (forall i | 1 <= i < |es| :: es[i].prevHash == es[i - 1].entryHash)
  }

  lemma ChainedIsLinked(c: Crypto, es: seq<Entry>)
    requires Chained(c, es)
    ensures Linked(c, es)
  {
    hide HashOk;
    forall i | 0 <= i < |es| ensures HashOk(c, es[i]) && (i >= 1 ==> es[i].prevHash == es[i - 1].entryHash) {
      assert LinkAt(c, es, i);
    }
  }

  lemma SameHashSameEntry(c: Crypto, a: Entry, b: Entry)
    requires CollisionFree(c) && HashOk(c, a) && HashOk(c, b) && a.entryHash == b.entryHash
    ensures SameHashed(a, b) && a.prevHash == b.prevHash && a.seqNo == b.seqNo
  {
    EntryHashDetermines(c, a, b);
    var x, y := a.(cursor := None, entryHash := ""), b.(cursor := None, entryHash := "");
    assert x.prevHash == y.prevHash && x.seqNo == y.seqNo;
  }

  /** One equal hash pulls every earlier pair of two linked runs together. */
  lemma {:induction false} BackwardAgreement(c: Crypto, a: seq<Entry>, b: seq<Entry>, i: nat, j: nat, d: nat)
    requires CollisionFree(c) && Linked(c, a) && Linked(c, b)
    requires d <= i < |a| && d <= j < |b| && a[i].entryHash == b[j].entryHash
    ensures SameHashed(a[i - d], b[j - d]) && a[i - d].entryHash == b[j - d].entryHash
  {
    hide HashOk, SameHashed;
    if d > 0 {
      BackwardAgreement(c, a, b, i, j, d - 1);
      SameHashSameEntry(c, a[i - d + 1], b[j - d + 1]);
    }
    SameHashSameEntry(c, a[i - d], b[j - d]);
  }

  // ---------------------------------------------------------------- exports

  function AsRecords(es: seq<Entry>): (rs: seq<Record>)
    ensures |rs| == |es| && forall i | 0 <= i < |es| :: rs[i] == EntryRec(es[i])
  {
    if es == [] then [] else AsRecords(es[..|es| - 1]) + [EntryRec(es[|es| - 1])]
  }

  lemma {:induction false} EntriesOfRecords(es: seq<Entry>)
    ensures Entries(AsRecords(es)) == es
  {
    if es != [] {
      EntriesOfRecords(es[..|es| - 1]);
      EntriesAppend(AsRecords(es[..|es| - 1]), EntryRec(es[|es| - 1]));
      assert es == es[..|es| - 1] + [es[|es| - 1]];
    }
  }

  function FromSeq(es: seq<Entry>, from: int): seq<Entry> {
    if es == [] then []
    else
      var last := es[|es| - 1];
      FromSeq(es[..|es| - 1], from) + if last.seqNo.N? && last.seqNo.n >= from then [last] else []
  }

  function CkptTail(k: Option<Checkpoint>): seq<Record> {
    match k
    case Some(c) => [CkptRec(c)]
    case None => []
  }

  /** `export`: the entries from a number on, and the latest signed checkpoint. */
  function Export(file: seq<Record>, from: int): seq<Record> {
    AsRecords(FromSeq(Entries(file), from)) + CkptTail(LastCkpt(file))
  }

  /** A chained log exports the entries from `from` to its head, and nothing else. */
  lemma {:induction false} FromSeqOfChain(c: Crypto, es: seq<Entry>, from: nat)
    requires Chained(c, es) && 1 <= from
    ensures FromSeq(es, from) == if from <= |es| then es[from - 1..] else []
  {
    if es != [] {
      var init, last := es[..|es| - 1], es[|es| - 1];
      NumberAtEnd(c, es);
      ChainedPrefix(c, es, |init|);
      assert FromSeq(es, from) == FromSeq(init, from) + if |es| >= from then [last] else [];
      hide Chained, FromSeq;
      FromSeqOfChain(c, init, from);
      assert es == init + [last];
      if from <= |init| {
        assert es[from - 1..] == init[from - 1..] + [last];
      }
    }
  }

  lemma NumberAtEnd(c: Crypto, es: seq<Entry>)
    requires Chained(c, es) && es != []
    ensures es[|es| - 1].seqNo == N(|es|)
  {
    hide HashOk;
    assert LinkAt(c, es, |es| - 1);
  }

  lemma ChainedPrefix(c: Crypto, es: seq<Entry>, n: nat)
    requires Chained(c, es) && n <= |es|
    ensures Chained(c, es[..n])
  {
    hide HashOk;
    forall i | 0 <= i < n ensures LinkAt(c, es[..n], i) {
      assert LinkAt(c, es, i);
    }
  }

  lemma {:induction false} LastCkptIn(file: seq<Record>)
    ensures LastCkpt(file).Some? ==> CkptRec(LastCkpt(file).value) in file
  {
    if file != [] && !file[|file| - 1].CkptRec? {
      LastCkptIn(file[..|file| - 1]);
    }
  }

  // ----------------------------------------------------------------- the writer

  /** The logger: every call reads the tail from the file, never from memory. */
  class Notary {
    const crypto: Crypto
    const pub: string
    const every: nat
    var file: seq<Record>

    constructor (crypto: Crypto, pub: string, checkpointEvery: int)
      ensures this.crypto == crypto && this.pub == pub && file == []
      ensures every == if checkpointEvery < 1 then 1 else checkpointEvery
    {
      this.crypto, this.pub := crypto, pub;
      this.every := if checkpointEvery < 1 then 1 else checkpointEvery;
      this.file := [];
    }

    method ReadTail() returns (t: Tail)
      ensures t == TailOf(file)
    {
      var seqNo, head, since := 0, GENESIS, 0;
      for i := 0 to |file|
        invariant Tail(seqNo, head, since) == TailOf(file[..i])
      {
        assert file[..i + 1][..i] == file[..i];
        match file[i]
        case EntryRec(e) =>
          seqNo, head, since := if e.seqNo.N? then e.seqNo.n else 0, e.entryHash, since + 1;
        case CkptRec(_) =>
          since := 0;
        case _ =>
      }
      assert file[..|file|] == file;
      t := Tail(seqNo, head, since);
    }

    method Record(n: Note) returns (r: Result<Entry>)
      modifies this`file
      ensures (r, file) == RecordStep(crypto, pub, every, old(file), n)
    {
      hide Sealed, MakeCkpt;
      var t := ReadTail();
      r := Sealed(crypto, t, n);
      if r.Ok? {
        file := file + [EntryRec(r.value)];
        if pub != "" && t.since + 1 >= every {
          var k := MakeCkpt(crypto, pub, t.seqNo + 1, r.value.entryHash, n.ckptNow);
          match k
          case Ok(ckpt) => file := file + [CkptRec(ckpt)];
          case Err(why) => r := Err(why);
        }
      }
    }

    method WriteCheckpoint(now: int) returns (r: Result<Checkpoint>)
      modifies this`file
      ensures (r, file) == CheckpointStep(crypto, pub, old(file), now)
    {
      hide MakeCkpt;
      if pub == "" {
        return Err("NotaryError");
      }
      var t := ReadTail();
      r := MakeCkpt(crypto, pub, t.seqNo, t.head, now);
      if r.Ok? {
        file := file + [CkptRec(r.value)];
      }
    }

    method ExportFrom(from: int) returns (out: seq<Record>)
      ensures out == Export(file, from)
    {
      var entries: seq<Entry> := [];
      var latest: Option<Checkpoint> := None;
      for i := 0 to |file|
        invariant entries == FromSeq(Entries(file[..i]), from)
        invariant latest == LastCkpt(file[..i])
      {
        assert file[..i + 1][..i] == file[..i];
        EntriesAppend(file[..i], file[i]);
        assert file[..i + 1] == file[..i] + [file[i]];
        match file[i]
        case EntryRec(e) =>
          assert (Entries(file[..i]) + [e])[..|Entries(file[..i])|] == Entries(file[..i]);
          if e.seqNo.N? && e.seqNo.n >= from {
            entries := entries + [e];
          }
        case CkptRec(k) =>
          latest := Some(k);
        case _ =>
      }
      assert file[..|file|] == file;
      out := AsRecords(entries) + CkptTail(latest);
    }
  }
}
