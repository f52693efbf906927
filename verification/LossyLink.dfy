/**
  Mail over a link that loses requests and replies (bus_ssh_client.py,
  bus_ssh_exchange.py, dev mode): the client copies every message for its
  identity that its own bus takes, once and in order, and the server never
  forgets one before that.
*/
module LossyLink {
  import opened Wrappers
  import opened CanonicalJson
  import opened NotaryLog
  import opened IntSets
  import opened BusState
  import opened Enforce
  import opened BusOps
  import opened SkipAccounting
  import opened StrictClamp
  import opened Exchange
  import opened LogFirst
  import opened RemoteClient

  datatype System = System(bus: Bus, file: seq<Record>, cl: Client)

  /** What the link does to a round; `r` is what the client gets instead of a reply. */
  datatype Link = RequestLost(r: LinkResult) | ReplyLost(r: LinkResult) | Through

  datatype Act = Elsewhere(e: Event) | Exchanged(q: Request, round: nat, link: Link)

  /** The request as it arrives: it acknowledges what the client has stored. */
  function Asked(q: Request, cl: Client): Request { q.(ack := cl.storedMax) }

  function SystemStep(h: Host, l: Local, s: System, act: Act): System {
    match act
    case Elsewhere(e) => s.(bus := Step(h.w, s.bus, e))
    case Exchanged(q, round, link) =>
      match link
      case RequestLost(r) => s.(cl := ClientStep(l, s.cl, round, q.messages, r))
      case ReplyLost(r) =>
        var k := Round(h, Asked(q, s.cl), s.bus, s.file);
        System(k.bus, k.file, ClientStep(l, s.cl, round, q.messages, r))
      case Through =>
        var k := Round(h, Asked(q, s.cl), s.bus, s.file);
        System(k.bus, k.file, ClientStep(l, s.cl, round, q.messages, Reply(k.stopped, false, k.replies)))
  }

  const START := System(EMPTY, [], Client(0, [], []))

  function SystemAfter(h: Host, l: Local, acts: seq<Act>): System {
    if acts == [] then START
    else SystemStep(h, l, SystemAfter(h, l, acts[..|acts| - 1]), acts[|acts| - 1])
  }

  /** Dev mode; only rounds consume the identity's mail, and a lost message brings no reply. */
  predicate Allowed(id: string, act: Act) {
    match act
    case Elsewhere(e) => DevEvent(e) && !((e.Received? || e.Acked? || e.Marked?) && e.a == id)
    case Exchanged(q, _, link) =>
      && q.identity == id && q.gate.Dev?
      && (link.RequestLost? ==> !link.r.Reply?) && (link.ReplyLost? ==> !link.r.Reply?)
  }

  predicate AllAllowed(id: string, acts: seq<Act>) { forall i | 0 <= i < |acts| :: Allowed(id, acts[i]) }

  // -------------------------------------------------------------- what is copied

  function CopyRow(l: Local, m: Msg): Msg {
    Msg(0, l.rename(m.sender), l.identity, m.topic, if m.kind == "" then "msg" else m.kind, "", None, m.body, "", "")
  }

  /** The identity's messages up to number n that the client's bus takes, as it takes them, in order. */
  function Copies(l: Local, ms: seq<Msg>, id: string, n: nat): seq<Msg>
    requires n <= |ms|
  {
    if n == 0 then []
    else
      var so := Copies(l, ms, id, n - 1);
      if ms[n - 1].recipient == id && SendFault(l.w, CopyRow(l, ms[n - 1])).None? then so + [CopyRow(l, ms[n - 1])] else so
  }

  lemma {:induction false} CopiesStay(l: Local, ms: seq<Msg>, ns: seq<Msg>, id: string, n: nat)
    requires n <= |ms| && ms <= ns
    ensures Copies(l, ns, id, n) == Copies(l, ms, id, n)
  {
    hide SendFault;
    if n > 0 {
      CopiesStay(l, ms, ns, id, n - 1);
    }
  }

  /** Numbers that are not the identity's add nothing. */
  lemma {:induction false} CopiesSkip(l: Local, ms: seq<Msg>, id: string, m: nat, n: nat)
    requires m <= n <= |ms| && forall i | m < i <= n :: !IsFor(ms, i, id)
    ensures Copies(l, ms, id, n) == Copies(l, ms, id, m)
    decreases n
  {
    hide SendFault;
    if m < n {
      assert !IsFor(ms, n, id);
      CopiesSkip(l, ms, id, m, n - 1);
    }
  }

  lemma ReplyIsCopied(l: Local, q: Request, n: int, m: Msg)
    ensures Field(ReplyJson(q, n, m), "id") == Int(n)
    ensures LocalRow(l, ReplyJson(q, n, m)) == CopyRow(l, m)
  {
    var r := ReplyJson(q, n, m);
    assert Field(r, "sender") == Str(m.sender) && Field(r, "topic") == Str(m.topic);
    assert Field(r, "kind") == Str(m.kind) && Field(r, "body") == Str(m.body);
  }

  /** The client has copied exactly the mail its own bus takes, up to the highest number it stored. */
  predicate HasCopied(l: Local, ms: seq<Msg>, id: string, cl: Client) {
    0 <= cl.storedMax <= |ms| && cl.stored == Copies(l, ms, id, cl.storedMax)
  }

  /** What the client holds after the first n rows of a page. */
  function Holding(l: Local, q: Request, b: Bus, cl: Client, page: seq<int>, n: nat): Client
    requires n <= |page|
  {
    StoreAll(l, cl, RepliesOf(q, b, page[..n]))
  }

  function TopOf(cl: Client, page: seq<int>, n: nat): int
    requires n <= |page|
  {
    if n > 0 && page[n - 1] > cl.storedMax then page[n - 1] else cl.storedMax
  }

  /** The first n rows of a page are copied. */
  predicate CopiedTo(l: Local, q: Request, b: Bus, id: string, cl: Client, page: seq<int>, n: nat)
    requires n <= |page|
  {
    var m := Holding(l, q, b, cl, page, n);
    HasCopied(l, b.messages, id, m) && m.receipts == cl.receipts && m.storedMax == TopOf(cl, page, n)
  }

  /** The row after the first n - 1, when the client stands at their end. */
  lemma RowIsNext(b: Bus, id: string, cl: Client, page: seq<int>, n: nat)
    requires page == Page(b, id, MAX_REPLIES) && 0 < n <= |page| && CurOf(b, id).last <= cl.storedMax
    ensures IsFor(b.messages, page[n - 1], id) && 1 <= page[n - 1] <= |b.messages|
    ensures forall i | TopOf(cl, page, n - 1) < i < page[n - 1] :: !IsFor(b.messages, i, id)
    ensures TopOf(cl, page, n) == if page[n - 1] > TopOf(cl, page, n - 1) then page[n - 1] else TopOf(cl, page, n - 1)
  {
    PageRises(b, id, page, n);
    hide Page, IsFor, CurOf;
    NextOnPage(b, id, cl, page, n, TopOf(cl, page, n - 1));
  }

  lemma CopiedNext(l: Local, q: Request, b: Bus, id: string, cl: Client, page: seq<int>, n: nat)
    requires page == Page(b, id, MAX_REPLIES) && 0 < n <= |page| && CurOf(b, id).last <= cl.storedMax
    requires CopiedTo(l, q, b, id, cl, page, n - 1)
    ensures CopiedTo(l, q, b, id, cl, page, n)
  {
    hide Page, HasCopied, StoreOne, Holding, CurOf, IsFor, ReplyJson, TopOf;
    RowIsNext(b, id, cl, page, n);
    StoredStep(l, q, b, cl, page, n);
    OneMoreCopied(l, q, b, id, Holding(l, q, b, cl, page, n - 1), page[n - 1]);
  }

  lemma StoredStep(l: Local, q: Request, b: Bus, cl: Client, page: seq<int>, n: nat)
    requires 0 < n <= |page| && 1 <= page[n - 1] <= |b.messages|
    ensures Holding(l, q, b, cl, page, n)
         == StoreOne(l, Holding(l, q, b, cl, page, n - 1), ReplyJson(q, page[n - 1], b.messages[page[n - 1] - 1]))
  {
    hide ReplyJson, StoreOne, StoreAll, RepliesOf;
    RepliesMore(q, b, page, n);
    StoreMore(l, cl, RepliesOf(q, b, page[..n - 1]), ReplyJson(q, page[n - 1], b.messages[page[n - 1] - 1]));
  }

  lemma CopiedNone(l: Local, q: Request, b: Bus, id: string, cl: Client, page: seq<int>)
    requires HasCopied(l, b.messages, id, cl)
    ensures CopiedTo(l, q, b, id, cl, page, 0)
  {
    hide HasCopied, StoreOne, ReplyJson;
    assert page[..0] == [];
  }

  /** A page that starts at or below what is stored is copied row by row. */
  lemma {:induction false} PageIsCopied(l: Local, q: Request, b: Bus, id: string, cl: Client, page: seq<int>, n: nat)
    requires HasCopied(l, b.messages, id, cl) && CurOf(b, id).last <= cl.storedMax
    requires page == Page(b, id, MAX_REPLIES) && n <= |page|
    ensures CopiedTo(l, q, b, id, cl, page, n)
  {
    hide CopiedTo, HasCopied, Page;
    if n == 0 {
      CopiedNone(l, q, b, id, cl, page);
    } else {
      PageIsCopied(l, q, b, id, cl, page, n - 1);
      CopiedNext(l, q, b, id, cl, page, n);
    }
  }

  lemma RepliesMore(q: Request, b: Bus, page: seq<int>, n: nat)
    requires 0 < n <= |page| && 1 <= page[n - 1] <= |b.messages|
    ensures RepliesOf(q, b, page[..n])
         == RepliesOf(q, b, page[..n - 1]) + [ReplyJson(q, page[n - 1], b.messages[page[n - 1] - 1])]
  {
    hide ReplyJson;
    assert page[..n][..n - 1] == page[..n - 1];
  }

  lemma StoreMore(l: Local, cl: Client, so: seq<Json>, r: Json)
    ensures StoreAll(l, cl, so + [r]) == StoreOne(l, StoreAll(l, cl, so), r)
  {
    hide StoreOne;
    assert (so + [r])[..|so|] == so;
  }

  lemma PageRises(b: Bus, id: string, page: seq<int>, n: nat)
    requires page == Page(b, id, MAX_REPLIES) && 0 < n <= |page|
    ensures IsFor(b.messages, page[n - 1], id) && 1 <= page[n - 1] <= |b.messages|
    ensures n > 1 ==> page[n - 2] < page[n - 1]
  {
    PageIsPrefix(b, id, MAX_REPLIES);
    hide Page;
    assert page[n - 1] in page;
  }

  /** The next row is copied if it lies above what is stored, and nothing of the identity's lies in between. */
  lemma OneMoreCopied(l: Local, q: Request, b: Bus, id: string, m: Client, now: int)
    requires HasCopied(l, b.messages, id, m) && IsFor(b.messages, now, id)
    requires forall i | m.storedMax < i < now :: !IsFor(b.messages, i, id)
    ensures var t := StoreOne(l, m, ReplyJson(q, now, b.messages[now - 1]));
            && HasCopied(l, b.messages, id, t) && t.receipts == m.receipts
            && t.storedMax == if now > m.storedMax then now else m.storedMax
  {
    hide SendFault, ReplyJson, LocalRow, CopyRow;
    ReplyIsCopied(l, q, now, b.messages[now - 1]);
    if now > m.storedMax {
      CopiesSkip(l, b.messages, id, m.storedMax, now - 1);
    }
  }

  lemma NextOnPage(b: Bus, id: string, cl: Client, page: seq<int>, n: nat, top: int)
    requires page == Page(b, id, MAX_REPLIES) && 0 < n <= |page| && CurOf(b, id).last <= cl.storedMax
    requires top == if n > 1 && page[n - 2] > cl.storedMax then page[n - 2] else cl.storedMax
    ensures forall i | top < i < page[n - 1] :: !IsFor(b.messages, i, id)
  {
    PageIsPrefix(b, id, MAX_REPLIES);
    hide Page;
    forall k | 0 <= k < |page| ensures page[k] <= top || page[k] >= page[n - 1] {
      if k < n - 1 && n > 1 {
        assert page[k] <= page[n - 2];
      }
    }
    forall i | top < i < page[n - 1] ensures !IsFor(b.messages, i, id) {
      assert IsFor(b.messages, i, id) ==> i in Mine(b.messages, id);
      assert page[n - 1] in page;
      assert IsFor(b.messages, i, id) ==> i in page;
    }
  }

  // ------------------------------------------------------------ the server's side

  /** The tables as the replies are read: after the ack and the messages. */
  function Served(h: Host, q: Request, bus: Bus, file: seq<Record>): Work {
    MessagesPart(h, q, AckPart(h, q, Work(bus, file, [], 0, false, [], [], [], false)), |q.messages|)
  }

  /** Nothing but new messages. */
  predicate OnlyInserts(b: Bus, c: Bus) { b.messages <= c.messages && c == b.(messages := c.messages) }

  lemma MessageInserts(h: Host, q: Request, k: Work, i: nat, m: Json)
    ensures OnlyInserts(k.bus, MessageStep(h, q, k, i, m).bus)
  {
    hide Write, SendFault, MessageLine, RowOf, MalformedLine, States;
    WriteLogs(h, q, k.(rejected := k.rejected + [i]), MalformedLine(h, m));
    WriteLogs(h, q, k.(rejected := k.rejected + [i]), MessageLine(h, m, "rejected", "unsigned-pinned"));
    var k1 := Write(h, q, k, MessageLine(h, m, "accepted", ""));
    WriteLogs(h, q, k, MessageLine(h, m, "accepted", ""));
    WriteLogs(h, q, k1.(rejected := k1.rejected + [i]), MessageLine(h, m, "rejected", "send_failed"));
  }

  lemma {:induction false} MessagesInsert(h: Host, q: Request, k: Work, n: nat)
    requires n <= |q.messages|
    ensures OnlyInserts(k.bus, MessagesPart(h, q, k, n).bus)
  {
    hide MessageStep;
    if n > 0 {
      MessagesInsert(h, q, k, n - 1);
      MessageInserts(h, q, MessagesPart(h, q, k, n - 1), n - 1, q.messages[n - 1]);
    }
  }

  /** The ack either happens or changes nothing. */
  lemma AckHappens(h: Host, q: Request, k: Work)
    ensures var c := AckPart(h, q, k);
            && (c.bus == k.bus || (q.ack > 0 && c.bus == Ack(k.bus, q.identity, q.ack, q.strict)))
            && (!k.stopped && !c.stopped && q.ack > 0 && !q.f.ack ==> c.bus == Ack(k.bus, q.identity, q.ack, q.strict))
  {
    hide Write, Ack, AckTarget, AckLine, AckFailedLine, States;
    var from, to := CurOf(k.bus, q.identity).last, AckTarget(k.bus, q.identity, q.ack, q.strict);
    WriteLogs(h, q, k, AckLine(q, from, to));
    WriteLogs(h, q, Write(h, q, k, AckLine(q, from, to)), AckFailedLine(q, from, to));
  }

  lemma {:induction false} ShownInDev(q: Request, b: Bus, ids: seq<int>)
    requires q.gate.Dev?
    ensures Shown(q, b, ids) == ids
  {
    if ids != [] {
      ShownInDev(q, b, ids[..|ids| - 1]);
    }
  }

  lemma HandOutResult(h: Host, q: Request, k: Work, ids: seq<int>, u: Queue)
    requires k.replies == []
    ensures var r := HandOut(h, q, k, ids, u);
            && (r.bus == k.bus || (ids != [] && r.bus == MarkDelivered(h.w, q.gate, k.bus, q.identity, ids)))
            && r.replies == (if r.stopped then [] else RepliesOf(q, k.bus, ids))
            && (!r.stopped && ids != [] && !q.f.mark ==> r.bus == MarkDelivered(h.w, q.gate, k.bus, q.identity, ids))
  {
    hide Write, RoundLine, MarkDelivered, RepliesOf, LastRoundCursor, TailOf, Entries, DeliveredPart, CloseLine, States;
    HandOutLeavesLast(h, q, k, ids, u);
    var at, replies := CurOf(k.bus, q.identity).last, RepliesOf(q, k.bus, ids);
    var logged := replies != [] || at != LastRoundCursor(Entries(k.file), q.identity);
    WriteLogs(h, q, k, RoundLine(h, q, at, replies, u));
    var k1 := if logged then Write(h, q, k, RoundLine(h, q, at, replies, u)) else k;
    DeliveredKeepsBus(h, q, k1, replies);
    var k2 := DeliveredPart(h, q, k1, replies);
    WriteLogs(h, q, k2, MarkFailedLine(q));
    var k3 := MarkPart(h, q, k2, ids);
    WriteLogs(h, q, k3, CloseLine(q, CurOf(k3.bus, q.identity).last, |replies|, TailOf(k1.file).seqNo));
  }

  /** What a dev-mode round leaves behind, and what it hands out. */
  lemma RoundResult(h: Host, q: Request, bus: Bus, file: seq<Record>)
    requires q.gate.Dev?
    ensures var k, b := Round(h, q, bus, file), Served(h, q, bus, file).bus;
            var page := Page(b, q.identity, MAX_REPLIES);
            && (k.bus == b || (page != [] && k.bus == MarkDelivered(h.w, q.gate, b, q.identity, page)))
            && k.replies == (if k.stopped then [] else RepliesOf(q, b, page))
            && (!k.stopped && page != [] && !q.f.mark ==> k.bus == MarkDelivered(h.w, q.gate, b, q.identity, page))
            && (Served(h, q, bus, file).stopped ==> k.stopped && k.bus == b)
  {
    hide HandOut, QueueOf, MessagesPart, AckPart, Page, MarkDelivered;
    var k1 := Served(h, q, bus, file);
    NoRepliesYet(h, q, AckPart(h, q, Work(bus, file, [], 0, false, [], [], [], false)), |q.messages|);
    NoRepliesFromAck(h, q, bus, file);
    var page, more := Page(k1.bus, q.identity, MAX_REPLIES), Page(k1.bus, q.identity, PEND_LIMIT + 1);
    ShownInDev(q, k1.bus, page);
    ShownInDev(q, k1.bus, more);
    HandOutResult(h, q, k1, page, Unmeasured);
    HandOutResult(h, q, k1, page, QueueOf(q, page, more));
  }

  lemma {:induction false} StopStays(h: Host, q: Request, k: Work, n: nat)
    requires n <= |q.messages| && k.stopped
    ensures MessagesPart(h, q, k, n) == k
  {
    hide MessageStep;
    if n > 0 {
      StopStays(h, q, k, n - 1);
      StoppedMessage(h, q, k, n - 1, q.messages[n - 1]);
    }
  }

  /** Up to the replies, the tables stay sane, the cursor within what the client stored. */
  lemma ServedIs(h: Host, q: Request, bus: Bus, file: seq<Record>)
    requires Sane(bus)
    requires CurOf(bus, q.identity).last <= q.ack <= HighWater(bus.messages, q.identity)
    ensures var k := Served(h, q, bus, file);
            && Sane(k.bus) && bus.messages <= k.bus.messages
            && CurOf(bus, q.identity).last <= CurOf(k.bus, q.identity).last <= q.ack
            && CurOf(k.bus, q.identity).delivered == CurOf(bus, q.identity).delivered
            && (!k.stopped && !q.f.ack && (!q.strict || q.ack <= CurOf(bus, q.identity).delivered) ==>
                  CurOf(k.bus, q.identity).last == q.ack)
  {
    hide AckPart, MessagesPart, HighWater, Mine, UpTo, Between;
    var k0 := Work(bus, file, [], 0, false, [], [], [], false);
    var c := AckPart(h, q, k0);
    AckHappens(h, q, k0);
    AckSane(bus, q.identity, q.ack, q.strict);
    MessagesInsert(h, q, c, |q.messages|);
    if c.stopped {
      StopStays(h, q, c, |q.messages|);
    }
  }

  /** Reporting a page raises the water level at least to its end. */
  lemma LevelCoversPage(w: World, g: Gate, b: Bus, id: string, page: seq<int>)
    requires g.Dev? && page == Page(b, id, MAX_REPLIES) && page != []
    ensures CurOf(MarkDelivered(w, g, b, id, page), id).delivered >= page[|page| - 1] > CurOf(b, id).last
    ensures page[|page| - 1] in Mine(b.messages, id)
  {
    var top := page[|page| - 1];
    PageIsPrefix(b, id, MAX_REPLIES);
    hide Page, MarkDelivered, Mine, RowsFor, Letter;
    assert top in page;
    HighWaterBounds(b.messages, id);
    assert top > 0 by {
      MineIsPositive(b.messages, id, top);
    }
    assert top in Positive(page);
    MarkFields(w, b, id, page, g);
    StillOpenIs(w, g, b, id, Positive(page));
    PendingIs(b, id);
    var left := StillOpen(b, id, Positive(page));
    if left != {} {
      var k := Least(left);
      assert k in left;
      OpenAbovePage(b, id, page, k);
    }
  }

  lemma MineIsPositive(ms: seq<Msg>, id: string, n: int)
    requires n in Mine(ms, id)
    ensures 1 <= n <= |ms|
  {
  }

  lemma OpenAbovePage(b: Bus, id: string, page: seq<int>, k: int)
    requires page == Page(b, id, MAX_REPLIES) && page != [] && k in StillOpen(b, id, Positive(page))
    ensures k > page[|page| - 1]
  {
    PageIsPrefix(b, id, MAX_REPLIES);
    PendingIs(b, id);
    hide Page, Pending;
    assert k in Mine(b.messages, id) && k > CurOf(b, id).last && k !in Positive(page);
  }

  // ----------------------------------------------------------------- the theorem

  /** The client's copies are exact, and the server's cursor stays at or below them. */
  predicate Safe(l: Local, id: string, s: System) {
    && Sane(s.bus)
    && 0 <= CurOf(s.bus, id).last <= s.cl.storedMax <= HighWater(s.bus.messages, id)
    && HasCopied(l, s.bus.messages, id, s.cl)
  }

  /** The water level covers what the client has stored. */
  predicate Covered(id: string, s: System) { s.cl.storedMax <= CurOf(s.bus, id).delivered }

  lemma CopiedStays(l: Local, id: string, s: System, bus: Bus, cl: Client)
    requires Safe(l, id, s) && Sane(bus) && s.bus.messages <= bus.messages
    requires 0 <= CurOf(bus, id).last <= s.cl.storedMax
    requires cl.storedMax == s.cl.storedMax && cl.stored == s.cl.stored
    ensures Safe(l, id, s.(bus := bus, cl := cl))
  {
    CopiesStay(l, s.bus.messages, bus.messages, id, s.cl.storedMax);
    HighWaterGrows(s.bus.messages, bus.messages, id);
    hide HighWater, SendFault;
  }

  lemma ElsewhereKeeps(h: Host, l: Local, id: string, s: System, e: Event)
    requires Safe(l, id, s) && Allowed(id, Elsewhere(e))
    ensures Safe(l, id, SystemStep(h, l, s, Elsewhere(e)))
    ensures Covered(id, s) ==> Covered(id, SystemStep(h, l, s, Elsewhere(e)))
  {
    hide Step, HasCopied, HighWater, Booked, HandedBy;
    StepEffect(h.w, s.bus, e, id);
    OthersLeaveAlone(h.w, s.bus, e, id);
    CopiedStays(l, id, s, Step(h.w, s.bus, e), s.cl);
  }

  /** The server's half of a round, whether or not its reply arrives. */
  lemma ServerKeeps(h: Host, l: Local, id: string, s: System, q: Request)
    requires Safe(l, id, s) && q.identity == id && q.gate.Dev?
    ensures var k := Round(h, Asked(q, s.cl), s.bus, s.file);
            && Safe(l, id, s.(bus := k.bus, file := k.file))
            && (Covered(id, s) && !q.f.ack && !q.f.mark ==> Covered(id, s.(bus := k.bus, file := k.file)))
  {
    var asked := Asked(q, s.cl);
    hide Served, Round, Page, MarkDelivered, RepliesOf, HighWater, HasCopied, Mine;
    var k, b := Round(h, asked, s.bus, s.file), Served(h, asked, s.bus, s.file).bus;
    ServedIs(h, asked, s.bus, s.file);
    RoundResult(h, asked, s.bus, s.file);
    var page := Page(b, id, MAX_REPLIES);
    MarkSane(h.w, b, id, page, q.gate);
    MarkStays(h.w, q.gate, b, id, page);
    if page != [] {
      LevelCoversPage(h.w, q.gate, b, id, page);
    }
    CopiedStays(l, id, s, k.bus, s.cl);
  }

  /** The client's half: what a round hands out is copied, and nothing twice. */
  lemma ClientKeeps(h: Host, l: Local, id: string, s: System, q: Request, round: nat)
    requires Safe(l, id, s) && Allowed(id, Exchanged(q, round, Through))
    ensures var t := SystemStep(h, l, s, Exchanged(q, round, Through));
            && Safe(l, id, t) && t.cl.storedMax >= s.cl.storedMax
            && (Covered(id, s) && !q.f.ack && !q.f.mark ==> Covered(id, t))
  {
    var asked := Asked(q, s.cl);
    hide Served, Round, Page, MarkDelivered, RepliesOf, HighWater, HasCopied, Mine, StoreAll;
    var k, b := Round(h, asked, s.bus, s.file), Served(h, asked, s.bus, s.file).bus;
    ServedIs(h, asked, s.bus, s.file);
    RoundResult(h, asked, s.bus, s.file);
    ServerKeeps(h, l, id, s, q);
    var page := Page(b, id, MAX_REPLIES);
    MarkStays(h.w, q.gate, b, id, page);
    var cl := s.cl.(receipts := s.cl.receipts + [RequestRow(round, q.messages, s.cl.storedMax),
                                                 Ended(round, Reply(k.stopped, false, k.replies))]);
    if k.stopped || page == [] {
      assert k.replies == [] by {
        NoPageNoReplies(asked, b);
      }
      StoreNothing(l, cl);
      CopiedStays(l, id, s, k.bus, cl);
    } else {
      CopiedStays(l, id, s, b, cl);
      PageIsCopied(l, asked, b, id, cl, page, |page|);
      assert page[..|page|] == page;
      LevelCoversPage(h.w, q.gate, b, id, page);
      HighWaterBounds(b.messages, id);
    }
  }

  lemma NoPageNoReplies(q: Request, b: Bus)
    ensures RepliesOf(q, b, []) == []
  {
  }

  lemma StoreNothing(l: Local, cl: Client)
    ensures StoreAll(l, cl, []) == cl
  {
  }

  lemma ActKeeps(h: Host, l: Local, id: string, s: System, act: Act)
    requires Safe(l, id, s) && Allowed(id, act)
    ensures Safe(l, id, SystemStep(h, l, s, act))
    ensures Covered(id, s) && Smooth(act) ==> Covered(id, SystemStep(h, l, s, act))
    ensures SystemStep(h, l, s, act).cl.storedMax >= s.cl.storedMax
  {
    hide Safe, Round, Step, StoreAll;
    match act
    case Elsewhere(e) =>
      ElsewhereKeeps(h, l, id, s, e);
    case Exchanged(q, round, link) =>
      match link {
        case RequestLost(r) =>
          NewReceipts(l, id, s, ClientStep(l, s.cl, round, q.messages, r));
        case ReplyLost(r) =>
          ServerKeeps(h, l, id, s, q);
          var k := Round(h, Asked(q, s.cl), s.bus, s.file);
          NewReceipts(l, id, s.(bus := k.bus, file := k.file), ClientStep(l, s.cl, round, q.messages, r));
        case Through =>
          ClientKeeps(h, l, id, s, q, round);
      }
  }

  lemma NewReceipts(l: Local, id: string, s: System, cl: Client)
    requires Safe(l, id, s) && cl.storedMax == s.cl.storedMax && cl.stored == s.cl.stored
    ensures Safe(l, id, s.(cl := cl))
  {
    hide SendFault, HighWater;
  }

  /** The server carries out the ack and the delivery mark whenever it gets that far. */
  predicate Smooth(act: Act) { act.Exchanged? ==> !act.q.f.ack && !act.q.f.mark }

  lemma SafeAtStart(l: Local, id: string)
    ensures Safe(l, id, START) && Covered(id, START)
  {
    HighWaterBounds([], id);
  }

  /**
    Under any mix of sends and rounds whose request or reply may be lost, and whatever
    fails at the server: the client has copied each message that its own bus takes, up to
    the highest number it stored, once and in order, and the server's cursor is not beyond
    that number.
  */
  lemma {:induction false} ExactlyOnceInOrder(h: Host, l: Local, id: string, acts: seq<Act>)
    requires AllAllowed(id, acts)
    ensures Safe(l, id, SystemAfter(h, l, acts))
    ensures (forall i | 0 <= i < |acts| :: Smooth(acts[i])) ==> Covered(id, SystemAfter(h, l, acts))
  {
    hide Safe, SystemStep, Allowed, Smooth, Covered;
    if acts == [] {
      SafeAtStart(l, id);
    } else {
      ExactlyOnceInOrder(h, l, id, acts[..|acts| - 1]);
      ActKeeps(h, l, id, SystemAfter(h, l, acts[..|acts| - 1]), acts[|acts| - 1]);
    }
  }

  predicate Unstored(id: string, s: System) { exists i :: i in Mine(s.bus.messages, id) && i > s.cl.storedMax }

  /**
    A round that completes while mail is unstored advances the client, unless a strict
    ack is held back by a water level below what the client stored.
  */
  lemma RoundsMakeProgress(h: Host, l: Local, id: string, s: System, q: Request, round: nat)
    requires Safe(l, id, s) && Allowed(id, Exchanged(q, round, Through)) && Unstored(id, s)
    requires !Round(h, Asked(q, s.cl), s.bus, s.file).stopped && !q.f.ack
    requires !q.strict || Covered(id, s)
    ensures SystemStep(h, l, s, Exchanged(q, round, Through)).cl.storedMax > s.cl.storedMax
  {
    var asked := Asked(q, s.cl);
    hide Served, Round, Page, MarkDelivered, RepliesOf, HighWater, HasCopied, StoreAll, Mine;
    var b := Served(h, asked, s.bus, s.file).bus;
    ServedIs(h, asked, s.bus, s.file);
    RoundResult(h, asked, s.bus, s.file);
    PageReaches(s.bus, b, id, s.cl.storedMax);
    CopiedStays(l, id, s, b, s.cl);
    ThroughStores(h, l, id, s, q, round);
  }

  /** Where the cursor stands at what is stored, the page begins with the first unstored message. */
  lemma PageReaches(was: Bus, b: Bus, id: string, top: int)
    requires was.messages <= b.messages && CurOf(b, id).last == top
    requires exists i :: i in Mine(was.messages, id) && i > top
    ensures Page(b, id, MAX_REPLIES) != [] && Page(b, id, MAX_REPLIES)[|Page(b, id, MAX_REPLIES)| - 1] > top
  {
    var some :| some in Mine(was.messages, id) && some > top;
    MineOfPrefix(was.messages, b.messages, id);
    PageIsPrefix(b, id, MAX_REPLIES);
    hide Page, Mine;
    var page := Page(b, id, MAX_REPLIES);
    assert page != [];
    assert page[|page| - 1] in page;
  }

  /** How far a round's replies take the client. */
  lemma ThroughStores(h: Host, l: Local, id: string, s: System, q: Request, round: nat)
    requires q.identity == id && q.gate.Dev?
    requires var b := Served(h, Asked(q, s.cl), s.bus, s.file).bus;
             HasCopied(l, b.messages, id, s.cl) && CurOf(b, id).last <= s.cl.storedMax
    requires !Round(h, Asked(q, s.cl), s.bus, s.file).stopped
    ensures var page := Page(Served(h, Asked(q, s.cl), s.bus, s.file).bus, id, MAX_REPLIES);
            SystemStep(h, l, s, Exchanged(q, round, Through)).cl.storedMax
              == if page != [] && page[|page| - 1] > s.cl.storedMax then page[|page| - 1] else s.cl.storedMax
  {
    var asked := Asked(q, s.cl);
    hide Served, Round, Page, MarkDelivered, RepliesOf, StoreAll, Copies;
    var k, b := Round(h, asked, s.bus, s.file), Served(h, asked, s.bus, s.file).bus;
    RoundResult(h, asked, s.bus, s.file);
    var page := Page(b, id, MAX_REPLIES);
    var cl := s.cl.(receipts := s.cl.receipts + [RequestRow(round, q.messages, s.cl.storedMax),
                                                 Ended(round, Reply(false, false, k.replies))]);
    PageIsCopied(l, asked, b, id, cl, page, |page|);
    assert page[..|page|] == page;
  }

  /** Where only the link fails, every completed round with unstored mail advances the client. */
  lemma LossesNeverStall(h: Host, l: Local, id: string, acts: seq<Act>, q: Request, round: nat)
    requires AllAllowed(id, acts) && forall i | 0 <= i < |acts| :: Smooth(acts[i])
    requires Allowed(id, Exchanged(q, round, Through)) && Smooth(Exchanged(q, round, Through))
    requires Unstored(id, SystemAfter(h, l, acts))
    requires var s := SystemAfter(h, l, acts); !Round(h, Asked(q, s.cl), s.bus, s.file).stopped
    ensures SystemAfter(h, l, acts + [Exchanged(q, round, Through)]).cl.storedMax > SystemAfter(h, l, acts).cl.storedMax
  {
    hide Safe, SystemStep, Round;
    ExactlyOnceInOrder(h, l, id, acts);
    var act := Exchanged(q, round, Through);
    assert (acts + [act])[..|acts|] == acts;
    RoundsMakeProgress(h, l, id, SystemAfter(h, l, acts), q, round);
  }
}
