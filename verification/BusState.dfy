/**
  The tables of the message bus (agent_bus.py). Messages are only ever added,
  so message number n is `messages[n - 1]`; nothing is deleted.
*/
module BusState {
  import opened Wrappers
  import opened CanonicalJson

  const RECV_LIMIT := 500
  const MAX_BODY := 64 * 1024
  const MAX_FIELD := 4096

  datatype Msg = Msg(ts: int, sender: string, recipient: string, topic: string, kind: string, thread: string,
                     inReplyTo: Option<int>, body: string, sig: string, pubkey: string)

  /** How far an agent has read (`last_seen_id`), and up to where its mail was delivered (`delivered_id`). */
  datatype Cur = Cur(last: int, delivered: int)

  datatype Op = RecvMark | AckMove | RemoteDelivered | RemoteRefused | EnforceReject(why: string) | Replayed

  /** One row of `cursor_audit`. */
  datatype Row = Row(agent: string, from: int, to: int, op: Op, skipped: nat)

  datatype Bus = Bus(messages: seq<Msg>, read: set<int>, cursors: map<string, Cur>, audit: seq<Row>,
                     seen: set<(string, string)>)

  const EMPTY := Bus([], {}, map[], [], {})

  // ------------------------------------------------------------------ queries

  function CurOf(b: Bus, a: string): Cur { if a in b.cursors then b.cursors[a] else Cur(0, 0) }

  /** The ids of the messages addressed to a. */
  function Mine(ms: seq<Msg>, a: string): set<int> {
    set i | 1 <= i <= |ms| && IsFor(ms, i, a)
  }

  predicate IsFor(ms: seq<Msg>, id: int, a: string) { 1 <= id <= |ms| && ms[id - 1].recipient == a }

  lemma MineGrows(ms: seq<Msg>, m: Msg, a: string)
    ensures Mine(ms + [m], a) == Mine(ms, a) + (if m.recipient == a then {|ms| + 1} else {})
  {
    assert forall i | 1 <= i <= |ms| :: IsFor(ms + [m], i, a) <==> IsFor(ms, i, a);
  }

  /** `SELECT id … WHERE recipient=a AND id>after ORDER BY id`. */
  function IdsAfter(ms: seq<Msg>, a: string, after: int): (ids: seq<int>)
    ensures forall i, j | 0 <= i < j < |ids| :: ids[i] < ids[j]
    ensures forall n :: n in ids <==> n in Mine(ms, a) && n > after
  {
    if ms == [] then []
    else
      var init := ms[..|ms| - 1];
      var ids := IdsAfter(init, a, after);
      MineGrows(init, ms[|ms| - 1], a);
      assert init + [ms[|ms| - 1]] == ms;
      assert forall i | 0 <= i < |ids| :: ids[i] in ids;
      if ms[|ms| - 1].recipient == a && |ms| > after then ids + [|ms|] else ids
  }

  function Take(ids: seq<int>, n: int): seq<int> {
    if n <= 0 then [] else if n >= |ids| then ids else ids[..n]
  }

  /** `SELECT COALESCE(MAX(id), 0) … WHERE recipient=a`. */
  function HighWater(ms: seq<Msg>, a: string): int {
    var ids := IdsAfter(ms, a, 0);
    if ids == [] then 0 else ids[|ids| - 1]
  }

  lemma HighWaterBounds(ms: seq<Msg>, a: string)
    ensures 0 <= HighWater(ms, a) <= |ms|
    ensures forall n | n in Mine(ms, a) :: n <= HighWater(ms, a)
    ensures HighWater(ms, a) != 0 ==> HighWater(ms, a) in Mine(ms, a)
  {
    var ids := IdsAfter(ms, a, 0);
    forall n | n in Mine(ms, a) ensures n <= HighWater(ms, a) {
      assert n in ids;
      var k :| 0 <= k < |ids| && ids[k] == n;
    }
    if |ids| > 0 {
      assert ids[|ids| - 1] in ids;
    }
  }

  /** What recv gives: the first `limit` of the agent's messages above its cursor, at least one. */
  function Page(b: Bus, a: string, limit: int): seq<int> {
    Take(IdsAfter(b.messages, a, CurOf(b, a).last), if limit < 1 then 1 else limit)
  }

  /** A page is a prefix of the mail above the cursor: it leaves nothing out below its last id. */
  lemma PageIsPrefix(b: Bus, a: string, limit: int)
    ensures var p := Page(b, a, limit);
            && (forall i, j | 0 <= i < j < |p| :: p[i] < p[j])
            && (forall n | n in p :: n in Mine(b.messages, a) && n > CurOf(b, a).last)
            && (forall n | n in Mine(b.messages, a) && p != [] && CurOf(b, a).last < n <= p[|p| - 1] :: n in p)
            && (p == [] ==> forall n | n in Mine(b.messages, a) :: n <= CurOf(b, a).last)
  {
    var all := IdsAfter(b.messages, a, CurOf(b, a).last);
    var p := Page(b, a, limit);
    assert p == all[..|p|];
    forall n | n in Mine(b.messages, a) && n > CurOf(b, a).last
      ensures p != [] && (n <= p[|p| - 1] ==> n in p)
    {
      assert n in all;
      var k :| 0 <= k < |all| && all[k] == n;
      if n <= p[|p| - 1] {
        assert k < |p|;
        assert p[k] == n;
      }
    }
  }

  function UpTo(s: set<int>, top: int): set<int> { set i | i in s && i <= top }

  function Between(s: set<int>, low: int, top: int): set<int> { set i | i in s && low < i <= top }

  // ------------------------------------------------------------------ sending

  /**
    The closed-format validators of attachment and envelope bodies, the replay key of a
    signed row, and the time at which the message of a number is sent.
  */
  datatype World = World(descriptorOk: string -> bool, envelopeOk: string -> bool, key: Msg -> string, clock: nat -> int)

  function CharBytes(ch: char): nat {
    var n := ch as int;
    if n < 0x80 then 1 else if n < 0x800 then 2 else if n < 0x10000 then 3 else 4
  }

  function ByteLen(s: string): nat { if s == "" then 0 else ByteLen(s[..|s| - 1]) + CharBytes(s[|s| - 1]) }

  /** What `send` refuses before it touches the table. */
  function SendFault(w: World, m: Msg): Option<string> {
    if ByteLen(m.body) > MAX_BODY then Some("body")
    else if |m.sender| > MAX_FIELD || |m.recipient| > MAX_FIELD || |m.topic| > MAX_FIELD || |m.kind| > MAX_FIELD
            || |m.thread| > MAX_FIELD then Some("field")
    else if m.inReplyTo.Some? && !(0 <= m.inReplyTo.value <= 0x7fff_ffff_ffff_ffff) then Some("in_reply_to")
    else if m.kind == "attachment" && !w.descriptorOk(m.body) then Some("attachment")
    else if m.kind == "sds-envelope" && !w.envelopeOk(m.body) then Some("sds-envelope")
    else None
  }

  /** A message without a thread becomes the root of its own. */
  function Insert(b: Bus, m: Msg): Bus {
    var id := |b.messages| + 1;
    b.(messages := b.messages + [if m.thread == "" then m.(thread := Digits(id)) else m])
  }

  function Send(w: World, b: Bus, m: Msg): (Bus, Result<int>) {
    match SendFault(w, m)
    case Some(why) => (b, Err(why))
    case None => (Insert(b, m), Ok(|b.messages| + 1))
  }
}
