/**
  Mail the client loses (bus_ssh_client.py): a reply that the client's own bus
  refuses is dropped, and acknowledged all the same. Nothing is lost exactly where
  its bus takes every message, and when that is so.
*/
module LostMail {
  import opened CanonicalJson
  import opened NotaryLog
  import opened BusState
  import opened Enforce
  import opened BusOps
  import opened SkipAccounting
  import opened StrictClamp
  import opened Exchange
  import opened LogFirst
  import opened RemoteClient
  import opened LossyLink

  /** One row per message of the identity up to number n, in order. */
  function AllCopies(l: Local, ms: seq<Msg>, id: string, n: nat): seq<Msg>
    requires n <= |ms|
  {
    if n == 0 then []
    else
      var so := AllCopies(l, ms, id, n - 1);
      if ms[n - 1].recipient == id then so + [CopyRow(l, ms[n - 1])] else so
  }

  /** The client's own bus takes each of them. */
  predicate TakesAll(l: Local, ms: seq<Msg>, id: string, n: nat) {
    forall i | 1 <= i <= n && IsFor(ms, i, id) :: SendFault(l.w, CopyRow(l, ms[i - 1])).None?
  }

  lemma {:induction false} CopiesAreAllExactly(l: Local, ms: seq<Msg>, id: string, n: nat)
    requires n <= |ms|
    ensures |Copies(l, ms, id, n)| <= |AllCopies(l, ms, id, n)|
    ensures if TakesAll(l, ms, id, n) then Copies(l, ms, id, n) == AllCopies(l, ms, id, n)
            else |Copies(l, ms, id, n)| < |AllCopies(l, ms, id, n)|
  {
    hide SendFault, CopyRow;
    if n > 0 {
      CopiesAreAllExactly(l, ms, id, n - 1);
      assert TakesAll(l, ms, id, n)
        <==> TakesAll(l, ms, id, n - 1) && (IsFor(ms, n, id) ==> SendFault(l.w, CopyRow(l, ms[n - 1])).None?);
      hide TakesAll;
    }
  }

  /**
    In every reachable state the client holds one row per message of the identity up to
    the highest number it stored, exactly if its own bus takes each of them.
  */
  lemma NothingIsLostExactly(h: Host, l: Local, id: string, acts: seq<Act>)
    requires AllAllowed(id, acts)
    ensures var s := SystemAfter(h, l, acts);
            && 0 <= s.cl.storedMax <= |s.bus.messages|
            && (s.cl.stored == AllCopies(l, s.bus.messages, id, s.cl.storedMax)
                <==> TakesAll(l, s.bus.messages, id, s.cl.storedMax))
  {
    ExactlyOnceInOrder(h, l, id, acts);
    hide SystemAfter, AllCopies, Copies, TakesAll;
    var s := SystemAfter(h, l, acts);
    assert HasCopied(l, s.bus.messages, id, s.cl);
    CopiesAreAllExactly(l, s.bus.messages, id, s.cl.storedMax);
  }

  /** An envelope that the client's own bus does not accept: not stored, yet counted as stored. */
  lemma RefusedEnvelopeIsLost(l: Local, q: Request, m: Msg)
    requires m.recipient == l.identity && m.kind == "sds-envelope" && !l.w.envelopeOk(m.body)
    ensures StoreAll(l, Client(0, [], []), [ReplyJson(q, 1, m)]) == Client(1, [], [])
    ensures AllCopies(l, [m], l.identity, 1) == [CopyRow(l, m)]
  {
    var r, cl := ReplyJson(q, 1, m), Client(0, [], []);
    ReplyIsCopied(l, q, 1, m);
    assert SendFault(l.w, CopyRow(l, m)).Some?;
    assert StoreAll(l, cl, [r]) == StoreOne(l, StoreAll(l, cl, []), r) by {
      assert [r][..0] == [];
    }
    hide ReplyJson;
    assert AllCopies(l, [m], l.identity, 0) == [];
  }

  // ------------------------------------------------------------------ a missed save

  /** The client stores a reply and stops before it saves how far it came. */
  function Unsaved(l: Local, cl: Client, replies: seq<Json>): Client {
    cl.(stored := StoreAll(l, cl, replies).stored)
  }

  lemma {:induction false} StoreAdds(l: Local, cl: Client, more: Client, replies: seq<Json>)
    requires more.storedMax == cl.storedMax
    ensures var a, b := StoreAll(l, cl, replies), StoreAll(l, more, replies);
            && a.storedMax == b.storedMax && cl.stored <= a.stored && more.stored <= b.stored
            && a.stored[|cl.stored|..] == b.stored[|more.stored|..]
  {
    hide SendFault, LocalRow;
    if replies != [] {
      StoreAdds(l, cl, more, replies[..|replies| - 1]);
    }
  }

  /**
    After a missed save the same replies come again, and what was stored of them is stored
    a second time: each once, unless the save is missed.
  */
  lemma MissedSaveStoresTwice(l: Local, cl: Client, replies: seq<Json>)
    ensures var once, again := StoreAll(l, cl, replies), StoreAll(l, Unsaved(l, cl, replies), replies);
            && again.storedMax == once.storedMax && cl.stored <= once.stored
            && again.stored == once.stored + once.stored[|cl.stored|..]
  {
    hide StoreAll;
    StoreAdds(l, cl, cl, replies);
    StoreAdds(l, cl, Unsaved(l, cl, replies), replies);
  }

  // ----------------------------------------------------------------- a loss is for good

  lemma ActGrows(h: Host, l: Local, id: string, s: System, act: Act)
    requires Safe(l, id, s) && Allowed(id, act)
    ensures s.bus.messages <= SystemStep(h, l, s, act).bus.messages
    ensures s.cl.storedMax <= SystemStep(h, l, s, act).cl.storedMax
  {
    ActKeeps(h, l, id, s, act);
    match act
    case Elsewhere(e) =>
      OthersLeaveAlone(h.w, s.bus, e, id);
      hide Step;
    case Exchanged(q, round, link) =>
      RoundGrows(h, Asked(q, s.cl), s.bus, s.file);
      hide Round, StoreAll, Safe;
  }

  lemma RoundGrows(h: Host, q: Request, bus: Bus, file: seq<Record>)
    requires q.gate.Dev?
    ensures bus.messages <= Round(h, q, bus, file).bus.messages
  {
    hide Round, AckPart, MessagesPart, Page, MarkDelivered, RepliesOf, AckTarget, Mine, UpTo, Between;
    var k0 := Work(bus, file, [], 0, false, [], [], [], false);
    AckHappens(h, q, k0);
    MessagesInsert(h, q, AckPart(h, q, k0), |q.messages|);
    RoundResult(h, q, bus, file);
    var b := Served(h, q, bus, file).bus;
    MarkFields(h.w, b, q.identity, Page(b, q.identity, MAX_REPLIES), q.gate);
  }

  lemma {:induction false} SystemGrows(h: Host, l: Local, id: string, acts: seq<Act>, n: nat)
    requires AllAllowed(id, acts) && n <= |acts|
    ensures SystemAfter(h, l, acts[..n]).bus.messages <= SystemAfter(h, l, acts).bus.messages
    ensures SystemAfter(h, l, acts[..n]).cl.storedMax <= SystemAfter(h, l, acts).cl.storedMax
  {
    hide SystemStep, Safe, Allowed;
    if n == |acts| {
      assert acts[..n] == acts;
    } else {
      var init := acts[..|acts| - 1];
      assert init[..n] == acts[..n];
      SystemGrows(h, l, id, init, n);
      ExactlyOnceInOrder(h, l, id, init);
      ActGrows(h, l, id, SystemAfter(h, l, init), acts[|acts| - 1]);
    }
  }

  /** Mail once lost is never had back, whatever follows. */
  lemma LostForGood(h: Host, l: Local, id: string, acts: seq<Act>, n: nat)
    requires AllAllowed(id, acts) && n <= |acts|
    requires var s := SystemAfter(h, l, acts[..n]);
             0 <= s.cl.storedMax <= |s.bus.messages| && s.cl.stored != AllCopies(l, s.bus.messages, id, s.cl.storedMax)
    ensures var s := SystemAfter(h, l, acts);
            0 <= s.cl.storedMax <= |s.bus.messages| && s.cl.stored != AllCopies(l, s.bus.messages, id, s.cl.storedMax)
  {
    NothingIsLostExactly(h, l, id, acts[..n]);
    NothingIsLostExactly(h, l, id, acts);
    SystemGrows(h, l, id, acts, n);
    hide SystemAfter, AllCopies, SendFault, CopyRow;
    var was, now := SystemAfter(h, l, acts[..n]), SystemAfter(h, l, acts);
    var i :| 1 <= i <= was.cl.storedMax && IsFor(was.bus.messages, i, id)
             && SendFault(l.w, CopyRow(l, was.bus.messages[i - 1])).Some?;
    assert IsFor(now.bus.messages, i, id) && now.bus.messages[i - 1] == was.bus.messages[i - 1];
  }

  // ------------------------------------------------------------- where nothing is lost

  /** Every message passed `send`; only its thread may have come after that. */
  predicate AllPassed(w: World, ms: seq<Msg>) {
    forall i | 0 <= i < |ms| :: SendFault(w, ms[i].(thread := "")).None?
  }

  lemma SendPasses(w: World, b: Bus, m: Msg)
    requires AllPassed(w, b.messages)
    ensures AllPassed(w, Send(w, b, m).0.messages)
  {
    if SendFault(w, m).None? {
      InsertPasses(w, b, m);
    }
  }

  lemma InsertPasses(w: World, b: Bus, m: Msg)
    requires AllPassed(w, b.messages) && SendFault(w, m).None?
    ensures AllPassed(w, Insert(b, m).messages)
  {
    assert SendFault(w, m.(thread := "")).None?;
    assert m.(thread := Digits(|b.messages| + 1)).(thread := "") == m.(thread := "");
    hide SendFault, Digits;
  }

  lemma ReplayPasses(w: World, g: Gate, b: Bus, a: string, ids: seq<int>)
    requires g.Dev? && AllPassed(w, b.messages)
    ensures AllPassed(w, ReplayAll(w, g, b, a, ids).messages)
    decreases |ids|
  {
    hide SendFault, Copy, Insert, AllPassed;
    if ids != [] && 1 <= ids[0] <= |b.messages| {
      var m := b.messages[ids[0] - 1];
      var c := Stamped(w, g, b, m, ids[0]);
      StampIsNoFault(w, g, b, m, ids[0]);
      if SendFault(w, c).None? {
        InsertPasses(w, b, c);
      }
      var r := ReplayOne(w, g, b, a, ids[0]);
      if r.Some? {
        ReplayPasses(w, g, r.value, a, ids[1..]);
      }
    }
  }

  lemma StepPasses(w: World, b: Bus, e: Event)
    requires DevEvent(e) && AllPassed(w, b.messages)
    ensures AllPassed(w, Step(w, b, e).messages)
  {
    hide AllPassed, Send, ReplayAll, Candidates, GateWorks, MarkDelivered, AckTarget, Page, Mine, UpTo, Between;
    match e
    case Sent(m) => SendPasses(w, b, m);
    case Marked(x, ids, g) => MarkFields(w, b, x, ids, g);
    case Replays(x, limit, g) => ReplayPasses(w, g, b, x, Candidates(b, x, limit));
    case _ =>
  }

  lemma MessagePassed(h: Host, q: Request, k: Work, i: nat, m: Json)
    requires AllPassed(h.w, k.bus.messages)
    ensures AllPassed(h.w, MessageStep(h, q, k, i, m).bus.messages)
  {
    hide Write, SendFault, MessageLine, RowOf, MalformedLine, States, AllPassed, Insert;
    WriteLogs(h, q, k.(rejected := k.rejected + [i]), MalformedLine(h, m));
    WriteLogs(h, q, k.(rejected := k.rejected + [i]), MessageLine(h, m, "rejected", "unsigned-pinned"));
    var k1 := Write(h, q, k, MessageLine(h, m, "accepted", ""));
    WriteLogs(h, q, k, MessageLine(h, m, "accepted", ""));
    WriteLogs(h, q, k1.(rejected := k1.rejected + [i]), MessageLine(h, m, "rejected", "send_failed"));
    SendPasses(h.w, k1.bus, RowOf(h, q, i, m));
  }

  lemma {:induction false} MessagesPassed(h: Host, q: Request, k: Work, n: nat)
    requires n <= |q.messages| && AllPassed(h.w, k.bus.messages)
    ensures AllPassed(h.w, MessagesPart(h, q, k, n).bus.messages)
  {
    hide MessageStep, AllPassed;
    if n > 0 {
      MessagesPassed(h, q, k, n - 1);
      MessagePassed(h, q, MessagesPart(h, q, k, n - 1), n - 1, q.messages[n - 1]);
    }
  }

  lemma RoundPassed(h: Host, q: Request, bus: Bus, file: seq<Record>)
    requires q.gate.Dev? && AllPassed(h.w, bus.messages)
    ensures AllPassed(h.w, Round(h, q, bus, file).bus.messages)
  {
    hide Round, AckPart, MessagesPart, Page, MarkDelivered, RepliesOf, AckTarget, Mine, UpTo, Between, AllPassed;
    var k0 := Work(bus, file, [], 0, false, [], [], [], false);
    AckHappens(h, q, k0);
    MessagesPassed(h, q, AckPart(h, q, k0), |q.messages|);
    RoundResult(h, q, bus, file);
    var b := Served(h, q, bus, file).bus;
    MarkFields(h.w, b, q.identity, Page(b, q.identity, MAX_REPLIES), q.gate);
  }

  lemma {:induction false} SystemPassed(h: Host, l: Local, id: string, acts: seq<Act>)
    requires AllAllowed(id, acts)
    ensures AllPassed(h.w, SystemAfter(h, l, acts).bus.messages)
  {
    hide AllPassed, Round, Step, StoreAll;
    if acts == [] {
      NonePassed(h.w);
    } else {
      var s := SystemAfter(h, l, acts[..|acts| - 1]);
      SystemPassed(h, l, id, acts[..|acts| - 1]);
      match acts[|acts| - 1] {
        case Elsewhere(e) => StepPasses(h.w, s.bus, e);
        case Exchanged(q, _, _) => RoundPassed(h, Asked(q, s.cl), s.bus, s.file);
      }
    }
  }

  lemma NonePassed(w: World)
    ensures AllPassed(w, [])
  {
  }

  const NAME_MAX := 48

  /** Every character but letters, digits and `_.-` becomes `_`. */
  function Washed(alnum: char -> bool, s: string): (t: string)
    ensures |t| == |s|
  {
    if s == "" then ""
    else [if alnum(s[0]) || s[0] in {'_', '.', '-'} then s[0] else '_'] + Washed(alnum, s[1..])
  }

  function Short(s: string): (t: string)
    ensures |t| <= NAME_MAX
  {
    if |s| <= NAME_MAX then s else s[..NAME_MAX]
  }

  /** What follows the last `@`. */
  function HostOf(target: string): string {
    if target == "" || target[|target| - 1] == '@' then "" else HostOf(target[..|target| - 1]) + [target[|target| - 1]]
  }

  predicate OnlyDots(s: string) { forall i | 0 <= i < |s| :: s[i] == '.' }

  /** `remote_sender_name`: the namespaced name of a remote sender. */
  function RemoteSender(alnum: char -> bool, target: string, claimed: string): string {
    var host := Short(Washed(alnum, if HostOf(target) == "" then "?" else HostOf(target)));
    var safe := Short(Washed(alnum, claimed));
    "ssh:" + (if host == "" then "?" else host) + "~" + (if OnlyDots(safe) then "?" else safe)
  }

  /** Remote senders get their namespaced names, and both buses check bodies alike. */
  ghost predicate Alike(h: Host, l: Local, alnum: char -> bool, target: string) {
    && l.w.descriptorOk == h.w.descriptorOk && l.w.envelopeOk == h.w.envelopeOk && |l.identity| <= MAX_FIELD
    && forall sender :: l.rename(sender) == RemoteSender(alnum, target, sender)
  }

  /** Then the client holds every message up to the highest number it stored, whatever is lost on the way. */
  lemma NothingIsLost(h: Host, l: Local, alnum: char -> bool, target: string, id: string, acts: seq<Act>)
    requires AllAllowed(id, acts) && Alike(h, l, alnum, target)
    ensures var s := SystemAfter(h, l, acts);
            && 0 <= s.cl.storedMax <= |s.bus.messages|
            && s.cl.stored == AllCopies(l, s.bus.messages, id, s.cl.storedMax)
  {
    NothingIsLostExactly(h, l, id, acts);
    SystemPassed(h, l, id, acts);
    hide SystemAfter, AllCopies, Alike, SendFault, CopyRow;
    var s := SystemAfter(h, l, acts);
    forall i | 1 <= i <= s.cl.storedMax && IsFor(s.bus.messages, i, id)
      ensures SendFault(l.w, CopyRow(l, s.bus.messages[i - 1])).None? {
      CopyPasses(h, l, alnum, target, s.bus.messages[i - 1]);
    }
  }

  lemma CopyPasses(h: Host, l: Local, alnum: char -> bool, target: string, m: Msg)
    requires Alike(h, l, alnum, target) && SendFault(h.w, m.(thread := "")).None?
    ensures SendFault(l.w, CopyRow(l, m)).None?
  {
    assert |l.rename(m.sender)| <= 2 * NAME_MAX + 5;
  }
}
