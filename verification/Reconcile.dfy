/**
  `reconcile` (bus_notary.py) without the bus's own audit export: the export of a
  log against the receipts of one identity, in both directions, and the cursor.
*/
module Reconcile {
  import opened Wrappers
  import opened CanonicalJson
  import opened NotaryLog
  import opened NotaryVerify
  import opened CursorFold
  import opened RemoteClient

  datatype Finding =
    | SentNotLogged(hash: string) | ReceivedNotLogged(hash: string) | DeliveredNotReceived(hash: string)
    | AckSentNotLogged(ack: int) | AckLoggedNotSent(ack: int)
    | SentOutcomeUnknown(hash: string) | DeliveryOutcomeUnknown(hash: string)
    | AckOutcomeUnknown(ack: int) | AckCoverUnknown(ack: int) | OutcomeConflict(round: nat)
    | CursorFinding(item: Item) | VerifyFailed(e: VError)

  datatype Judgement = Judgement(ok: bool, verifyOk: bool, trusted: bool, discrepancies: set<Finding>, unresolved: set<Finding>)

  // ---------------------------------------------------------------- the log's side

  /** Entries that count as received from the identity: no acks, no pickups, and no correction of an earlier entry. */
  predicate CountsAsSent(e: Entry, id: string) {
    && e.sender == id && e.kind != "ack" && e.kind != "pickup"
    && !(e.decision == "rejected" && (e.reason == "send_failed" || e.reason == "store_failed"))
  }

  predicate CountsAsDelivered(e: Entry, id: string) {
    e.kind == "pickup" && e.decision == "delivered" && e.recipient == id
  }

  function LoggedSent(es: seq<Entry>, id: string): multiset<string> {
    if es == [] then multiset{}
    else
      var e := es[|es| - 1];
      LoggedSent(es[..|es| - 1], id) + if CountsAsSent(e, id) then multiset{e.envSha} else multiset{}
  }

  function LoggedDelivered(es: seq<Entry>, id: string): multiset<string> {
    if es == [] then multiset{}
    else
      var e := es[|es| - 1];
      LoggedDelivered(es[..|es| - 1], id) + if CountsAsDelivered(e, id) then multiset{e.envSha} else multiset{}
  }

  // ------------------------------------------------------------ the receipts' side

  /** The first outcome recorded for a round counts; ssh's own failure is only presumed not to have sent. */
  function OutcomeOf(rs: seq<Receipt>, round: nat): Option<Outcome> {
    if rs == [] then None
    else if OutcomeOf(rs[..|rs| - 1], round).Some? then OutcomeOf(rs[..|rs| - 1], round)
    else
      var r := rs[|rs| - 1];
      if r.OutcomeRow? && r.round == round then
        Some(if r.outcome.NotSent? && r.outcome.rc.Some? then Unknown(false) else r.outcome)
      else None
  }

  /** A round whose end was never written is as good as unknown. */
  function Level(rs: seq<Receipt>, round: nat): Outcome {
    match OutcomeOf(rs, round)
    case Some(o) => o
    case None => Unknown(false)
  }

  /** The outcome as the receipt words it. */
  function Word(o: Outcome): string {
    match o
    case NotSent(_) => "not-sent"
    case Unknown(_) => "unknown"
    case Reached => "reached"
    case Delivered => "delivered"
  }

  predicate Proven(o: Outcome) { o == Delivered || o == Reached }

  function HashAll(c: Crypto, ms: seq<Json>): multiset<string> {
    if ms == [] then multiset{} else HashAll(c, ms[..|ms| - 1]) + multiset{EnvelopeHash(c, ms[|ms| - 1])}
  }

  /** What the requests among the first n rows sent, over all rounds whose level satisfies `proven`. */
  function SentMail(c: Crypto, rs: seq<Receipt>, n: nat, proven: bool): multiset<string>
    requires n <= |rs|
  {
    if n == 0 then multiset{}
    else
      var r := rs[n - 1];
      SentMail(c, rs, n - 1, proven)
      + if r.RequestRow? && (if proven then Proven(Level(rs, r.round)) else Level(rs, r.round).Unknown?)
        then HashAll(c, r.sent) else multiset{}
  }

  function SentAcks(rs: seq<Receipt>, n: nat, proven: bool): multiset<int>
    requires n <= |rs|
  {
    if n == 0 then multiset{}
    else
      var r := rs[n - 1];
      SentAcks(rs, n - 1, proven)
      + if r.RequestRow? && r.ack > 0 && (if proven then Proven(Level(rs, r.round)) else Level(rs, r.round).Unknown?)
        then multiset{r.ack} else multiset{}
  }

  function GotMail(c: Crypto, rs: seq<Receipt>): multiset<string> {
    if rs == [] then multiset{}
    else
      var r := rs[|rs| - 1];
      GotMail(c, rs[..|rs| - 1]) + if r.OutcomeRow? then HashAll(c, r.received) else multiset{}
  }

  /** Some round's outcome is only presumed. */
  predicate PresumedAmong(rs: seq<Receipt>, n: nat)
    requires n <= |rs|
  {
    n > 0 && (PresumedAmong(rs, n - 1) || (rs[n - 1].RequestRow? && !Proven(Level(rs, rs[n - 1].round))))
  }

  predicate Presumed(rs: seq<Receipt>) { PresumedAmong(rs, |rs|) }

  predicate Contradicts(first: Option<Outcome>, later: Outcome) {
    first.Some? && Word(first.value) != Word(later) && !(later.NotSent? && first.value.Unknown?)
  }

  /** A later outcome row that contradicts the first one of its round. */
  predicate Conflicts(rs: seq<Receipt>, i: nat)
    requires i < |rs|
  {
    rs[i].OutcomeRow? && Contradicts(OutcomeOf(rs[..i], rs[i].round), rs[i].outcome)
  }

  // ------------------------------------------------------------------- the verdict

  function AsInts(ns: seq<nat>): multiset<int> {
    if ns == [] then multiset{} else AsInts(ns[..|ns| - 1]) + multiset{ns[|ns| - 1]}
  }

  function Elements<T(==)>(m: multiset<T>): set<T> { set x | x in m }

  /** Log against receipts: mail sent but not logged, received but not logged, logged as delivered but not received. */
  function MailFindings(logged: multiset<string>, delivered: multiset<string>, sent: multiset<string>,
                        maybe: multiset<string>, got: multiset<string>, presumed: bool): (set<Finding>, set<Finding>)
  {
    var surplus := set h | h in Elements(delivered) && got[h] < delivered[h];
    var soft := set h | h in surplus && presumed && got[h] > 0;
    ((set h | h in Elements(sent) && logged[h] < sent[h] :: SentNotLogged(h))
     + (set h | h in Elements(got) && delivered[h] < got[h] :: ReceivedNotLogged(h))
     + (set h | h in surplus - soft :: DeliveredNotReceived(h)),
     (set h | h in Elements(maybe) && (if logged[h] > sent[h] then logged[h] - sent[h] else 0) < maybe[h] ::
        SentOutcomeUnknown(h))
     + (set h | h in soft :: DeliveryOutcomeUnknown(h)))
  }

  /** Logged acks against sent ones: proven rounds cover without a word, presumed ones leave it open. */
  function AckFindings(acks: multiset<int>, sent: multiset<int>, maybe: multiset<int>): (set<Finding>, set<Finding>) {
    ((set a | a in Elements(sent) && acks[a] < sent[a] :: AckSentNotLogged(a))
     + (set a | a in Elements(acks) && sent[a] + maybe[a] < acks[a] :: AckLoggedNotSent(a)),
     (set a | a in Elements(maybe) && acks[a] < sent[a] + maybe[a] :: AckOutcomeUnknown(a))
     + (set a | a in Elements(acks) && sent[a] < acks[a] <= sent[a] + maybe[a] :: AckCoverUnknown(a)))
  }

  function ItemSet(items: seq<Item>): set<Finding> { set i | 0 <= i < |items| :: CursorFinding(items[i]) }

  function ConflictSet(rs: seq<Receipt>): set<Finding> {
    set i | 0 <= i < |rs| && Conflicts(rs, i) :: OutcomeConflict(rs[i].round)
  }

  /** At most six verification errors are repeated in the report. */
  function Faults(errors: seq<VError>): set<Finding> {
    set i | 0 <= i < |errors| && i < 6 :: VerifyFailed(errors[i])
  }

  function Reconciled(c: Crypto, g: Given, id: string, start: int, strict: bool, records: seq<Record>,
                      rs: seq<Receipt>): Judgement
  {
    var rep, es := Verified(c, g, records), Entries(records);
    var fold := CursorReport(Setting(id, start, strict, Presumed(rs)), es);
    var mail := MailFindings(LoggedSent(es, id), LoggedDelivered(es, id), SentMail(c, rs, |rs|, true), SentMail(c, rs, |rs|, false),
                             GotMail(c, rs), Presumed(rs));
    var acks := AckFindings(AsInts(fold.acks), SentAcks(rs, |rs|, true), SentAcks(rs, |rs|, false));
    var disc := mail.0 + ItemSet(fold.disc) + acks.0 + Faults(rep.errors);
    var soft := mail.1 + ItemSet(fold.unresolved) + acks.1 + ConflictSet(rs);
    Judgement(disc == {} && rep.ok && !(soft != {} && strict), rep.ok, rep.trusted, disc, soft)
  }

  // --------------------------------------------------------------------- the loops

  method CountLog(es: seq<Entry>, id: string) returns (logged: multiset<string>, delivered: multiset<string>)
    ensures logged == LoggedSent(es, id) && delivered == LoggedDelivered(es, id)
  {
    hide CountsAsSent, CountsAsDelivered;
    logged, delivered := multiset{}, multiset{};
    for i := 0 to |es|
      invariant logged == LoggedSent(es[..i], id) && delivered == LoggedDelivered(es[..i], id)
    {
      assert es[..i + 1][..i] == es[..i];
      if CountsAsSent(es[i], id) {
        logged := logged + multiset{es[i].envSha};
      }
      if CountsAsDelivered(es[i], id) {
        delivered := delivered + multiset{es[i].envSha};
      }
    }
    assert es[..|es|] == es;
  }

  method HashEach(c: Crypto, ms: seq<Json>) returns (m: multiset<string>)
    ensures m == HashAll(c, ms)
  {
    hide EnvelopeHash;
    m := multiset{};
    for i := 0 to |ms|
      invariant m == HashAll(c, ms[..i])
    {
      assert ms[..i + 1][..i] == ms[..i];
      m := m + multiset{EnvelopeHash(c, ms[i])};
    }
    assert ms[..|ms|] == ms;
  }

  /** The rounds' outcomes, first line first, and the lines that contradict them. */
  method Outcomes(rs: seq<Receipt>) returns (first: map<nat, Outcome>, conflicts: set<Finding>)
    ensures Firsts(rs, first)
    ensures conflicts == ConflictSet(rs)
  {
    first, conflicts := map[], {};
    for i := 0 to |rs|
      invariant forall n: nat :: (n in first <==> OutcomeOf(rs[..i], n).Some?)
                              && (n in first ==> OutcomeOf(rs[..i], n) == Some(first[n]))
      invariant conflicts == ConflictsBelow(rs, i)
    {
      hide Contradicts;
      ConflictsBelowStep(rs, i);
      assert rs[..i + 1][..i] == rs[..i];
      var r := rs[i];
      if r.OutcomeRow? {
        if r.round !in first {
          first := first[r.round := if r.outcome.NotSent? && r.outcome.rc.Some? then Unknown(false) else r.outcome];
        } else if Contradicts(Some(first[r.round]), r.outcome) {
          conflicts := conflicts + {OutcomeConflict(r.round)};
        }
      }
    }
    assert rs[..|rs|] == rs;
    assert conflicts == ConflictSet(rs);
  }

  function ConflictsBelow(rs: seq<Receipt>, n: nat): set<Finding> {
    set i | 0 <= i < |rs| && i < n && Conflicts(rs, i) :: OutcomeConflict(rs[i].round)
  }

  lemma ConflictsBelowStep(rs: seq<Receipt>, n: nat)
    requires n < |rs|
    ensures ConflictsBelow(rs, n + 1)
         == ConflictsBelow(rs, n) + if Conflicts(rs, n) then {OutcomeConflict(rs[n].round)} else {}
  {
    hide Conflicts;
  }

  ghost predicate Firsts(rs: seq<Receipt>, first: map<nat, Outcome>) {
    forall n: nat :: (n in first <==> OutcomeOf(rs, n).Some?) && (n in first ==> OutcomeOf(rs, n) == Some(first[n]))
  }

  function LevelIn(first: map<nat, Outcome>, round: nat): Outcome { if round in first then first[round] else Unknown(false) }

  lemma LevelInIs(rs: seq<Receipt>, first: map<nat, Outcome>, round: nat)
    requires Firsts(rs, first)
    ensures LevelIn(first, round) == Level(rs, round)
  {
    hide OutcomeOf;
  }

  /** The mail of proven and of presumed rounds. */
  method CountSent(c: Crypto, rs: seq<Receipt>, first: map<nat, Outcome>) returns (sent: multiset<string>, maybe: multiset<string>)
    requires Firsts(rs, first)
    ensures sent == SentMail(c, rs, |rs|, true) && maybe == SentMail(c, rs, |rs|, false)
  {
    hide OutcomeOf, HashAll, Level, LevelIn;
    sent, maybe := multiset{}, multiset{};
    for i := 0 to |rs|
      invariant sent == SentMail(c, rs, i, true) && maybe == SentMail(c, rs, i, false)
    {
      if rs[i].RequestRow? {
        LevelInIs(rs, first, rs[i].round);
        var hashes := HashEach(c, rs[i].sent);
        if Proven(LevelIn(first, rs[i].round)) {
          sent := sent + hashes;
        } else if LevelIn(first, rs[i].round).Unknown? {
          maybe := maybe + hashes;
        }
      }
    }
  }

  method CountGot(c: Crypto, rs: seq<Receipt>) returns (got: multiset<string>)
    ensures got == GotMail(c, rs)
  {
    hide HashAll;
    got := multiset{};
    for i := 0 to |rs|
      invariant got == GotMail(c, rs[..i])
    {
      assert rs[..i + 1][..i] == rs[..i];
      if rs[i].OutcomeRow? {
        var hashes := HashEach(c, rs[i].received);
        got := got + hashes;
      }
    }
    assert rs[..|rs|] == rs;
  }

  /** The acks of proven and of presumed rounds, and whether any round is presumed at all. */
  method CountAcks(rs: seq<Receipt>, first: map<nat, Outcome>)
    returns (sent: multiset<int>, maybe: multiset<int>, presumed: bool)
    requires Firsts(rs, first)
    ensures sent == SentAcks(rs, |rs|, true) && maybe == SentAcks(rs, |rs|, false)
    ensures presumed <==> Presumed(rs)
  {
    hide OutcomeOf, Level, LevelIn;
    sent, maybe, presumed := multiset{}, multiset{}, false;
    for i := 0 to |rs|
      invariant sent == SentAcks(rs, i, true) && maybe == SentAcks(rs, i, false)
      invariant presumed <==> PresumedAmong(rs, i)
    {
      if rs[i].RequestRow? {
        LevelInIs(rs, first, rs[i].round);
        var level := LevelIn(first, rs[i].round);
        if !Proven(level) {
          presumed := true;
        }
        if rs[i].ack > 0 {
          if Proven(level) {
            sent := sent + multiset{rs[i].ack};
          } else if level.Unknown? {
            maybe := maybe + multiset{rs[i].ack};
          }
        }
      }
    }
  }

  method ReconcileLog(c: Crypto, g: Given, id: string, start: int, strict: bool, records: seq<Record>, rs: seq<Receipt>)
    returns (v: Judgement)
    ensures v == Reconciled(c, g, id, start, strict, records, rs)
  {
    hide Fold, CloseRound, OutcomeOf, ConflictSet, Verified, AckFindings, MailFindings, SentMail, SentAcks, GotMail;
    var rep := Verify(c, g, records);
    var es := Entries(records);
    var logged, delivered := CountLog(es, id);
    var first, conflicts := Outcomes(rs);
    var sent, maybe := CountSent(c, rs, first);
    var got := CountGot(c, rs);
    var ackSent, ackMaybe, presumed := CountAcks(rs, first);
    var fold := FollowCursor(Setting(id, start, strict, presumed), es);
    var mail := MailFindings(logged, delivered, sent, maybe, got, presumed);
    var acks := AckFindings(AsInts(fold.acks), ackSent, ackMaybe);
    var disc := mail.0 + ItemSet(fold.disc) + acks.0 + Faults(rep.errors);
    var soft := mail.1 + ItemSet(fold.unresolved) + acks.1 + conflicts;
    v := Judgement(disc == {} && rep.ok && !(soft != {} && strict), rep.ok, rep.trusted, disc, soft);
  }
}
