/**
  The remote side of the exchange (bus_ssh_client.py): its receipts, written
  before and after each round, and the mail it copies to its own bus.
*/
module RemoteClient {
  import opened Wrappers
  import opened CanonicalJson
  import opened BusState
  import opened Exchange

  /** How sure the client is that a request arrived. */
  datatype Outcome = NotSent(rc: Option<int>) | Unknown(claimed: bool) | Reached | Delivered

  datatype Receipt =
    | RequestRow(round: nat, sent: seq<Json>, ack: int)
    | OutcomeRow(round: nat, outcome: Outcome, received: seq<Json>)

  /** What the transport gave back: nothing, no JSON, or a reply object with or without an error. */
  datatype LinkResult = NotStarted | TimedOut | NonJson(rc: int) | Reply(error: bool, unprocessed: bool, replies: seq<Json>)

  /** The client's local rules: the bus validators, and the namespaced name of a remote sender. */
  datatype Local = Local(w: World, identity: string, rename: string -> string)

  datatype Client = Client(storedMax: int, stored: seq<Msg>, receipts: seq<Receipt>)

  function StrField(r: Json, key: string): string { if Field(r, key).Str? then Field(r, key).s else "" }

  /** What the client passes to its own bus for a reply; the stamp and the thread are the bus's. */
  function LocalRow(l: Local, r: Json): Msg {
    Msg(0, l.rename(StrField(r, "sender")), l.identity, StrField(r, "topic"),
        if StrField(r, "kind") == "" then "msg" else StrField(r, "kind"), "", None, StrField(r, "body"), "", "")
  }

  /** One reply: dropped if it is not newer than what was stored, or if the local bus refuses it. */
  function StoreOne(l: Local, cl: Client, r: Json): Client {
    var id := Field(r, "id");
    if !id.Int? || id.n <= cl.storedMax then cl
    else
      Client(id.n, if SendFault(l.w, LocalRow(l, r)).None? then cl.stored + [LocalRow(l, r)] else cl.stored, cl.receipts)
  }

  function StoreAll(l: Local, cl: Client, replies: seq<Json>): Client {
    if replies == [] then cl
    else StoreOne(l, StoreAll(l, cl, replies[..|replies| - 1]), replies[|replies| - 1])
  }

  /** The outcome row that ends a round. */
  function Ended(round: nat, r: LinkResult): Receipt {
    match r
    case NotStarted => OutcomeRow(round, NotSent(None), [])
    case TimedOut => OutcomeRow(round, Unknown(false), [])
    case NonJson(rc) => OutcomeRow(round, if rc == 255 then NotSent(Some(rc)) else Unknown(false), [])
    case Reply(error, unprocessed, replies) =>
      OutcomeRow(round, if !error then Delivered else if unprocessed then Unknown(true) else Reached, replies)
  }

  /** One round of the client: the request row first, the outcome row last, and the replies stored in between. */
  function ClientStep(l: Local, cl: Client, round: nat, sent: seq<Json>, r: LinkResult): Client {
    var cl1 := cl.(receipts := cl.receipts + [RequestRow(round, sent, cl.storedMax), Ended(round, r)]);
    if r.Reply? then StoreAll(l, cl1, r.replies) else cl1
  }

  class Remote {
    const l: Local
    var storedMax: int
    var stored: seq<Msg>
    var receipts: seq<Receipt>

    function State(): Client
      reads this
    {
      Client(storedMax, stored, receipts)
    }

    constructor (l: Local)
      ensures this.l == l && State() == Client(0, [], [])
    {
      this.l := l;
      storedMax, stored, receipts := 0, [], [];
    }

    /** Before sending: the request goes on record, with the ack it carries. */
    method Begin(round: nat, sent: seq<Json>) returns (ack: int)
      modifies this`receipts
      ensures ack == storedMax
      ensures receipts == old(receipts) + [RequestRow(round, sent, storedMax)]
    {
      ack := storedMax;
      receipts := receipts + [RequestRow(round, sent, ack)];
    }

    method Keep(replies: seq<Json>)
      modifies this`storedMax, this`stored
      ensures State() == StoreAll(l, old(State()), replies)
    {
      hide SendFault, LocalRow;
      for i := 0 to |replies|
        invariant State() == StoreAll(l, old(State()), replies[..i])
      {
        assert replies[..i + 1][..i] == replies[..i];
        var r := replies[i];
        var id := Field(r, "id");
        if id.Int? && id.n > storedMax {
          if SendFault(l.w, LocalRow(l, r)).None? {
            stored := stored + [LocalRow(l, r)];
          }
          storedMax := id.n;
        }
      }
      assert replies[..|replies|] == replies;
    }

    /** After the round: its outcome goes on record, and the replies are stored. */
    method Finish(round: nat, r: LinkResult)
      modifies this
      ensures State() == (var cl1 := old(State()).(receipts := old(receipts) + [Ended(round, r)]);
                          if r.Reply? then StoreAll(l, cl1, r.replies) else cl1)
    {
      receipts := receipts + [Ended(round, r)];
      if r.Reply? {
        Keep(r.replies);
      }
    }

    /** A whole round as the client sees it, with what the transport will return. */
    method DoRound(round: nat, sent: seq<Json>, r: LinkResult)
      modifies this
      ensures State() == ClientStep(l, old(State()), round, sent, r)
    {
      var ack := Begin(round, sent);
      Finish(round, r);
      assert old(receipts) + [RequestRow(round, sent, ack)] + [Ended(round, r)]
          == old(receipts) + [RequestRow(round, sent, ack), Ended(round, r)];
    }
  }
}
