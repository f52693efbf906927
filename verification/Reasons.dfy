/** The text form of a cursor step: written by the exchange, read back by `reconcile` (bus_notary.py). */
module Reasons {
  import opened Wrappers
  import opened CanonicalJson

  /** `%d`. */
  function Decimal(n: int): string { if n < 0 then "-" + Digits(-n) else Digits(n) }

  function RoundReason(at: int, replies: int): string {
    "cursor=" + (Decimal(at) + (" replies=" + Decimal(replies)))
  }

  function AckReason(from: int, to: int, ack: int): string {
    "cursor " + (Decimal(from) + ("->" + (Decimal(to) + (" (ack " + (Decimal(ack) + ")")))))
  }

  /** What is left of s after the literal p, if s starts with it. */
  function After(p: string, s: string): Option<string> {
    if p <= s then Some(s[|p|..]) else None
  }

  function DigitRun(s: string): (n: nat)
    ensures n <= |s| && AllDigits(s[..n])
    ensures n < |s| ==> !IsDigit(s[n])
  {
    if s == "" || !IsDigit(s[0]) then 0 else 1 + DigitRun(s[1..])
  }

  /** `(\d+)` followed by the literal p: the number and what follows. */
  function NumberThen(s: string, p: string): Option<(nat, string)> {
    var n := DigitRun(s);
    if n == 0 then None
    else
      match After(p, s[n..])
      case Some(rest) => Some((NumberOf(s[..n]), rest))
      case None => None
  }

  /** A final number: the pattern ends here, or at one trailing newline. */
  predicate AtEnd(s: string) { s == "" || s == "\n" }

  function ParseRound(reason: string): Option<(nat, nat)> {
    match After("cursor=", reason)
    case None => None
    case Some(s1) =>
      match NumberThen(s1, " replies=")
      case None => None
      case Some((at, s2)) =>
        match NumberThen(s2, "")
        case Some((replies, s3)) => if AtEnd(s3) then Some((at, replies)) else None
        case None => None
  }

  function ParseAck(reason: string): Option<(nat, nat, nat)> {
    match After("cursor ", reason)
    case None => None
    case Some(s1) =>
      match NumberThen(s1, "->")
      case None => None
      case Some((from, s2)) =>
        match NumberThen(s2, " (ack ")
        case None => None
        case Some((to, s3)) =>
          match NumberThen(s3, ")")
          case Some((ack, s4)) => if AtEnd(s4) then Some((from, to, ack)) else None
          case None => None
  }

  lemma AfterItself(p: string, s: string)
    ensures After(p, p + s) == Some(s)
  {
  }

  lemma {:induction false} DigitRunOf(d: string, s: string)
    requires AllDigits(d) && !StartsWithDigit(s)
    ensures DigitRun(d + s) == |d|
  {
    if d == "" {
      assert d + s == s;
    } else {
      assert (d + s)[1..] == d[1..] + s;
      DigitRunOf(d[1..], s);
    }
  }

  lemma NumberThenOf(n: nat, p: string, s: string)
    requires !StartsWithDigit(p + s)
    ensures NumberThen(Digits(n) + (p + s), p) == Some((n, s))
  {
    var d := Digits(n);
    DigitRunOf(d, p + s);
    assert (d + (p + s))[..|d|] == d && (d + (p + s))[|d|..] == p + s;
    NumberOfDigits(n);
    AfterItself(p, s);
  }

  /** Reading a written round reason gives its two numbers back. */
  lemma RoundReasonRoundTrip(at: nat, replies: nat)
    ensures ParseRound(RoundReason(at, replies)) == Some((at, replies))
  {
    AfterItself("cursor=", Digits(at) + (" replies=" + Digits(replies)));
    NumberThenOf(at, " replies=", Digits(replies));
    assert Digits(replies) == Digits(replies) + ("" + "");
    NumberThenOf(replies, "", "");
  }

  /** Reading a written ack reason gives its three numbers back. */
  lemma AckReasonRoundTrip(from: nat, to: nat, ack: nat)
    ensures ParseAck(AckReason(from, to, ack)) == Some((from, to, ack))
  {
    var s3 := Digits(ack) + (")" + "");
    var s2 := Digits(to) + (" (ack " + s3);
    var s1 := Digits(from) + ("->" + s2);
    assert ")" + "" == ")";
    AfterItself("cursor ", s1);
    NumberThenOf(from, "->", s2);
    NumberThenOf(to, " (ack ", s3);
    NumberThenOf(ack, ")", "");
  }
}
