/** The identifier of a record and the message its signers sign (sds_envelope.py): each determines what it is made from. */
module SdsEnvelope {
  import opened Wrappers
  import opened CanonicalJson

  type Bytes = seq<int>

  /** The domain-separation prefix, as code units. */
  const DOM_AUTH := "capsule-sync/auth/v1"

  // ------------------------------------------------------------- the record id

  /** "sha256:" and the hash of the canonical record without its own id; `digest` is SHA-256 in hex. */
  function RecordId(digest: string -> string, record: map<string, Json>): Result<string> {
    match Jcs(Obj(record - {"record_id"}))
    case Ok(text) => Ok("sha256:" + digest(text))
    case Err(why) => Err(why)
  }

  /** Two records with the same id agree on every field but the id itself. */
  lemma RecordIdDetermines(digest: string -> string, x: map<string, Json>, y: map<string, Json>)
    requires forall a, b :: digest(a) == digest(b) ==> a == b
    requires RecordId(digest, x).Ok? && RecordId(digest, x) == RecordId(digest, y)
    ensures x - {"record_id"} == y - {"record_id"}
  {
    var s, t := Jcs(Obj(x - {"record_id"})).value, Jcs(Obj(y - {"record_id"})).value;
    assert ("sha256:" + digest(s))[7..] == digest(s) && ("sha256:" + digest(t))[7..] == digest(t);
    TextInjective(Obj(x - {"record_id"}), Obj(y - {"record_id"}));
  }

  // --------------------------------------------------------- the signed message

  predicate HexChar(ch: char) { '0' <= ch <= '9' || 'a' <= ch <= 'f' }

  predicate IsHex(s: string, n: nat) { |s| == n && forall i | 0 <= i < |s| :: HexChar(s[i]) }

  function HexValue(ch: char): int
    requires HexChar(ch)
  {
    if ch <= '9' then ch as int - '0' as int else ch as int - 'a' as int + 10
  }

  /** `bytes.fromhex` of lower-case hex. */
  function FromHex(s: string): (b: Bytes)
    requires |s| % 2 == 0 && forall i | 0 <= i < |s| :: HexChar(s[i])
    ensures |b| == |s| / 2
  {
    if s == "" then [] else [16 * HexValue(s[0]) + HexValue(s[1])] + FromHex(s[2..])
  }

  /** `to_bytes(k, "big")`, least byte last. */
  function BigEndian(n: nat, k: nat): (b: Bytes)
    ensures |b| == k
  {
    if k == 0 then [] else BigEndian(n / 256, k - 1) + [n % 256]
  }

  function Power256(k: nat): nat { if k == 0 then 1 else 256 * Power256(k - 1) }

  /** The fields that are signed: ids in hex, the signer's role and organisation in UTF-8, the epoch. */
  datatype Signed = Signed(recordId: string, configId: string, domainHash: string, role: Bytes, epoch: nat, org: Bytes)

  /** The patterns end at `$`, so one trailing newline passes them; `bytes.fromhex` skips it. */
  function Chomp(s: string): string { if s != "" && s[|s| - 1] == '\n' then s[..|s| - 1] else s }

  predicate WellFormed(s: Signed) {
    && IsHex(Chomp(s.recordId), 64) && IsHex(Chomp(s.configId), 64) && IsHex(Chomp(s.domainHash), 64)
    && s.epoch < Power256(8)
  }

  /** The same fields without the trailing newlines. */
  function Trimmed(s: Signed): Signed {
    s.(recordId := Chomp(s.recordId), configId := Chomp(s.configId), domainHash := Chomp(s.domainHash))
  }

  function CodeBytes(s: string): Bytes { if s == "" then [] else [s[0] as int] + CodeBytes(s[1..]) }

  /** `signed_message`: fixed-width blocks, and lengths before the two texts. */
  function Message(s: Signed): Result<Bytes>
    requires WellFormed(s)
  {
    if |s.role| > 255 || |s.org| > 255 then Err("ValueError")
    else
      Ok(CodeBytes(DOM_AUTH)
         + (FromHex(Chomp(s.recordId))
            + (FromHex(Chomp(s.configId))
               + (FromHex(Chomp(s.domainHash))
                  + ([|s.role|] + (s.role + (BigEndian(s.epoch, 8) + ([|s.org|] + s.org))))))))
  }

  lemma {:induction false} FromHexInjective(s: string, t: string)
    requires |s| == |t| && |s| % 2 == 0
    requires (forall i | 0 <= i < |s| :: HexChar(s[i])) && forall i | 0 <= i < |t| :: HexChar(t[i])
    requires FromHex(s) == FromHex(t)
    ensures s == t
  {
    if s != "" {
      assert FromHex(s)[0] == 16 * HexValue(s[0]) + HexValue(s[1]);
      assert FromHex(t)[0] == 16 * HexValue(t[0]) + HexValue(t[1]);
      assert FromHex(s)[1..] == FromHex(s[2..]) && FromHex(t)[1..] == FromHex(t[2..]);
      FromHexInjective(s[2..], t[2..]);
      assert s == [s[0], s[1]] + s[2..] && t == [t[0], t[1]] + t[2..];
    }
  }

  lemma {:induction false} BigEndianInjective(m: nat, n: nat, k: nat)
    requires m < Power256(k) && n < Power256(k) && BigEndian(m, k) == BigEndian(n, k)
    ensures m == n
  {
    if k > 0 {
      var x, y := BigEndian(m, k), BigEndian(n, k);
      assert x[k - 1] == m % 256 && y[k - 1] == n % 256;
      assert x[..k - 1] == BigEndian(m / 256, k - 1) && y[..k - 1] == BigEndian(n / 256, k - 1);
      BigEndianInjective(m / 256, n / 256, k - 1);
    }
  }

  /** Blocks of equal length can be taken apart. */
  lemma SplitBlocks(x: Bytes, y: Bytes, u: Bytes, v: Bytes)
    requires |x| == |y| && x + u == y + v
    ensures x == y && u == v
  {
    assert (x + u)[..|x|] == x && (y + v)[..|y|] == y;
    assert (x + u)[|x|..] == u && (y + v)[|y|..] == v;
  }

  /** The blocks of two equal messages are equal one by one. */
  lemma BlocksAgree(a: Signed, b: Signed)
    requires WellFormed(a) && WellFormed(b) && Message(a).Ok? && Message(a) == Message(b)
    ensures FromHex(Chomp(a.recordId)) == FromHex(Chomp(b.recordId))
    ensures FromHex(Chomp(a.configId)) == FromHex(Chomp(b.configId))
    ensures FromHex(Chomp(a.domainHash)) == FromHex(Chomp(b.domainHash))
    ensures a.role == b.role && a.org == b.org && BigEndian(a.epoch, 8) == BigEndian(b.epoch, 8)
  {
    hide FromHex, BigEndian, CodeBytes, Power256, Chomp;
    var a7, b7 := [|a.org|] + a.org, [|b.org|] + b.org;
    var a6, b6 := BigEndian(a.epoch, 8) + a7, BigEndian(b.epoch, 8) + b7;
    var a5, b5 := a.role + a6, b.role + b6;
    var a4, b4 := [|a.role|] + a5, [|b.role|] + b5;
    var a3, b3 := FromHex(Chomp(a.domainHash)) + a4, FromHex(Chomp(b.domainHash)) + b4;
    var a2, b2 := FromHex(Chomp(a.configId)) + a3, FromHex(Chomp(b.configId)) + b3;
    var a1, b1 := FromHex(Chomp(a.recordId)) + a2, FromHex(Chomp(b.recordId)) + b2;
    SplitBlocks(CodeBytes(DOM_AUTH), CodeBytes(DOM_AUTH), a1, b1);
    SplitBlocks(FromHex(Chomp(a.recordId)), FromHex(Chomp(b.recordId)), a2, b2);
    SplitBlocks(FromHex(Chomp(a.configId)), FromHex(Chomp(b.configId)), a3, b3);
    SplitBlocks(FromHex(Chomp(a.domainHash)), FromHex(Chomp(b.domainHash)), a4, b4);
    SplitBlocks([|a.role|], [|b.role|], a5, b5);
    assert [|a.role|][0] == [|b.role|][0];
    SplitBlocks(a.role, b.role, a6, b6);
    SplitBlocks(BigEndian(a.epoch, 8), BigEndian(b.epoch, 8), a7, b7);
    SplitBlocks([|a.org|], [|b.org|], a.org, b.org);
  }

  /** Two contents give the same message exactly if they agree on everything but a trailing newline of an id. */
  lemma MessageDetermines(a: Signed, b: Signed)
    requires WellFormed(a) && WellFormed(b) && Message(a).Ok?
    ensures Message(a) == Message(b) <==> Trimmed(a) == Trimmed(b)
  {
    if Message(a) == Message(b) {
      BlocksAgree(a, b);
      hide Message;
      FromHexInjective(Chomp(a.recordId), Chomp(b.recordId));
      FromHexInjective(Chomp(a.configId), Chomp(b.configId));
      FromHexInjective(Chomp(a.domainHash), Chomp(b.domainHash));
      BigEndianInjective(a.epoch, b.epoch, 8);
    }
  }
}
