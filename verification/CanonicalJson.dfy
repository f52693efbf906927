/**
  The canonical text on which every hash of the bus rests: the JCS profile of
  RFC 8785 (sections 3.2.2.2 and 3.2.3) implemented by sds_envelope.py.
  The main results are that the text determines the value (`TextInjective`)
  and that it does not depend on the insertion order of a dictionary
  (`DictOrderFree`).
*/
module CanonicalJson {
  import opened Wrappers

  datatype Json =
    | Null
    | Bool(b: bool)
    | Int(n: int)
    | Float(r: real)
    | Str(s: string)
    | Arr(xs: seq<Json>)
    | Obj(m: map<string, Json>)

  const SAFE_INT := 0x1F_FFFF_FFFF_FFFF

  /** The values the profile accepts: no floats, integers within 2^53 - 1. */
  predicate Canonical(v: Json) {
    match v
    case Int(n) => -SAFE_INT <= n <= SAFE_INT
    case Float(_) => false
    case Arr(xs) => forall i | 0 <= i < |xs| :: Canonical(xs[i])
    case Obj(m) => forall k | k in m :: Canonical(m[k])
    case _ => true
  }

  // ---------------------------------------------------------------- integers

  predicate IsDigit(c: char) { '0' <= c <= '9' }

  predicate AllDigits(s: string) { forall i | 0 <= i < |s| :: IsDigit(s[i]) }

  predicate StartsWithDigit(s: string) { s != "" && IsDigit(s[0]) }

  function DigitChar(d: nat): (c: char)
    requires d < 10
    ensures IsDigit(c) && (c as int) - ('0' as int) == d
  {
    (('0' as int) + d) as char
  }

  function Digits(n: nat): (s: string)
    ensures s != "" && AllDigits(s)
  {
    if n < 10 then [DigitChar(n)] else Digits(n / 10) + [DigitChar(n % 10)]
  }

  function NumberOf(s: string): nat
    requires AllDigits(s)
  {
    if s == "" then 0 else NumberOf(s[..|s| - 1]) * 10 + ((s[|s| - 1] as int) - ('0' as int))
  }

  lemma {:induction false} NumberOfDigits(n: nat)
    ensures NumberOf(Digits(n)) == n
  {
    if n >= 10 {
      NumberOfDigits(n / 10);
      assert Digits(n)[..|Digits(n)| - 1] == Digits(n / 10);
    } else {
      assert Digits(n)[..0] == "";
    }
  }

  function IntText(n: int): string {
    if n < 0 then "-" + Digits(-n) else Digits(n)
  }

  lemma DigitRunLength(d: string, e: string, s: string, t: string)
    requires AllDigits(d) && AllDigits(e) && d + s == e + t && !StartsWithDigit(s)
    ensures |e| <= |d|
  {
    var a, b := d + s, e + t;
    assert |d| < |a| ==> a[|d|] == s[0];
  }

  /** A run of digits ends where the first other character stands. */
  lemma DigitRunUnique(d: string, e: string, s: string, t: string)
    requires AllDigits(d) && AllDigits(e) && d + s == e + t
    requires !StartsWithDigit(s) && !StartsWithDigit(t)
    ensures d == e && s == t
  {
    DigitRunLength(d, e, s, t);
    DigitRunLength(e, d, t, s);
    assert d == (d + s)[..|d|] && s == (d + s)[|d|..];
    assert e == (e + t)[..|e|] && t == (e + t)[|e|..];
  }

  lemma DigitsUnique(m: nat, n: nat, s: string, t: string)
    requires Digits(m) + s == Digits(n) + t
    requires !StartsWithDigit(s) && !StartsWithDigit(t)
    ensures m == n && s == t
  {
    DigitRunUnique(Digits(m), Digits(n), s, t);
    NumberOfDigits(m);
    NumberOfDigits(n);
  }

  lemma IntTextUnique(m: int, n: int, s: string, t: string)
    requires IntText(m) + s == IntText(n) + t
    requires !StartsWithDigit(s) && !StartsWithDigit(t)
    ensures m == n && s == t
  {
    IntTextSign(m, s);
    IntTextSign(n, t);
    if m < 0 {
      DigitsUnique(-m, -n, s, t);
    } else {
      DigitsUnique(m, n, s, t);
    }
  }

  lemma IntTextSign(m: int, s: string)
    ensures (IntText(m) + s)[0] == '-' <==> m < 0
    ensures m < 0 ==> (IntText(m) + s)[1..] == Digits(-m) + s
  {
  }

  // ----------------------------------------------------------------- strings

  function HexDigit(d: nat): char
    requires d < 16
  {
    if d < 10 then (('0' as int) + d) as char else (('a' as int) + (d - 10)) as char
  }

  /** One character of a quoted string, as `_jcs_str` writes it. */
  function Escape(c: char): (e: string)
    ensures e != "" && e[0] != '"'
  {
    var o := c as int;
    if c == '"' then "\\\""
    else if c == '\\' then "\\\\"
    else if o == 8 then "\\b"
    else if o == 9 then "\\t"
    else if o == 10 then "\\n"
    else if o == 12 then "\\f"
    else if o == 13 then "\\r"
    else if o < 0x20 then "\\u00" + [HexDigit(o / 16), HexDigit(o % 16)]
    else [c]
  }

  function Escaped(s: string): string {
    if s == "" then "" else Escape(s[0]) + Escaped(s[1..])
  }

  function Quoted(s: string): string {
    "\"" + Escaped(s) + "\""
  }

  lemma EscapeLength(c: char)
    ensures Escape(c)[0] != '\\' ==> Escape(c) == [c]
    ensures Escape(c)[0] == '\\' ==> |Escape(c)| == if Escape(c)[1] == 'u' then 6 else 2
  {
  }

  lemma EscapeInjective(c: char, d: char)
    requires Escape(c) == Escape(d)
    ensures c == d
  {
    if |Escape(c)| == 6 {
      var o, p := c as int, d as int;
      assert Escape(c)[4] == HexDigit(o / 16) && Escape(c)[5] == HexDigit(o % 16);
      assert Escape(d)[4] == HexDigit(p / 16) && Escape(d)[5] == HexDigit(p % 16);
      HexDigitInjective(o / 16, p / 16);
      HexDigitInjective(o % 16, p % 16);
    } else if |Escape(c)| == 2 {
      assert Escape(c)[1] == Escape(d)[1];
    } else {
      assert Escape(c)[0] == Escape(d)[0];
    }
  }

  lemma HexDigitInjective(a: nat, b: nat)
    requires a < 16 && b < 16 && HexDigit(a) == HexDigit(b)
    ensures a == b
  {
  }

  lemma EscapeUnique(c: char, d: char, s: string, t: string)
    requires Escape(c) + s == Escape(d) + t
    ensures c == d && s == t
  {
    var a, b := Escape(c) + s, Escape(d) + t;
    EscapeLength(c);
    EscapeLength(d);
    assert a[0] == Escape(c)[0] && b[0] == Escape(d)[0];
    if a[0] == '\\' {
      assert a[1] == Escape(c)[1] && b[1] == Escape(d)[1];
    }
    assert Escape(c) == a[..|Escape(c)|] && Escape(d) == b[..|Escape(d)|];
    assert s == a[|Escape(c)|..] && t == b[|Escape(d)|..];
    EscapeInjective(c, d);
  }

  lemma EscapedStep(a: string, s: string)
    ensures a == "" ==> Escaped(a) + "\"" + s == "\"" + s
    ensures a != "" ==> Escaped(a) + "\"" + s == Escape(a[0]) + (Escaped(a[1..]) + "\"" + s)
    ensures (Escaped(a) + "\"" + s)[0] == '"' <==> a == ""
  {
  }

  lemma {:induction false} EscapedUnique(a: string, b: string, s: string, t: string)
    requires Escaped(a) + "\"" + s == Escaped(b) + "\"" + t
    ensures a == b && s == t
  {
    EscapedStep(a, s);
    EscapedStep(b, t);
    if a != "" {
      EscapeUnique(a[0], b[0], Escaped(a[1..]) + "\"" + s, Escaped(b[1..]) + "\"" + t);
      EscapedUnique(a[1..], b[1..], s, t);
      assert a == [a[0]] + a[1..] && b == [b[0]] + b[1..];
    } else {
      assert s == ("\"" + s)[1..] && t == ("\"" + t)[1..];
    }
  }

  lemma QuotedUnique(a: string, b: string, s: string, t: string)
    requires Quoted(a) + s == Quoted(b) + t
    ensures a == b && s == t
  {
    assert (Quoted(a) + s)[1..] == Escaped(a) + "\"" + s;
    assert (Quoted(b) + t)[1..] == Escaped(b) + "\"" + t;
    EscapedUnique(a, b, s, t);
  }

  lemma {:induction false} EscapedAppend(s: string, c: char)
    ensures Escaped(s + [c]) == Escaped(s) + Escape(c)
  {
    if s == "" {
      assert (s + [c])[1..] == "";
    } else {
      EscapedAppend(s[1..], c);
      assert (s + [c])[1..] == s[1..] + [c];
    }
  }

  /** The writer's own loop: the pieces are appended in the order of the characters. */
  method JcsStr(s: string) returns (text: string)
    ensures text == Quoted(s)
  {
    text := "\"";
    for i := 0 to |s|
      invariant text == "\"" + Escaped(s[..i])
    {
      EscapedAppend(s[..i], s[i]);
      assert s[..i + 1] == s[..i] + [s[i]];
      text := text + Escape(s[i]);
    }
    assert s[..|s|] == s;
    text := text + "\"";
  }

  // ------------------------------------------------ the order of object keys

  /** UTF-16 code units of one character, big end first for the astral planes. */
  function UnitsOf(c: char): seq<int> {
    var n := c as int;
    if n < 0x10000 then [n]
    else [0xD800 + (n - 0x10000) / 0x400, 0xDC00 + (n - 0x10000) % 0x400]
  }

  function Units(s: string): seq<int> {
    if s == "" then [] else UnitsOf(s[0]) + Units(s[1..])
  }

  predicate UnitsLess(a: seq<int>, b: seq<int>) {
    if a == [] then b != []
    else b != [] && (a[0] < b[0] || (a[0] == b[0] && UnitsLess(a[1..], b[1..])))
  }

  /** The sort key of `jcs`: code-unit order of the key's UTF-16 form. */
  predicate KeyLess(j: string, k: string) { UnitsLess(Units(j), Units(k)) }

  lemma UnitsOfUnique(c: char, d: char, s: seq<int>, t: seq<int>)
    requires UnitsOf(c) + s == UnitsOf(d) + t
    ensures c == d && s == t
  {
    var a, b := UnitsOf(c) + s, UnitsOf(d) + t;
    assert a[0] == UnitsOf(c)[0] && b[0] == UnitsOf(d)[0];
    if |UnitsOf(c)| == 2 {
      assert a[1] == UnitsOf(c)[1] && b[1] == UnitsOf(d)[1];
    }
    assert s == a[|UnitsOf(c)|..] && t == b[|UnitsOf(d)|..];
  }

  lemma {:induction false} UnitsInjective(a: string, b: string)
    requires Units(a) == Units(b)
    ensures a == b
  {
    if a != "" && b != "" {
      UnitsOfUnique(a[0], b[0], Units(a[1..]), Units(b[1..]));
      UnitsInjective(a[1..], b[1..]);
      assert a == [a[0]] + a[1..] && b == [b[0]] + b[1..];
    }
  }

  lemma {:induction false} UnitsTotal(a: seq<int>, b: seq<int>)
    ensures a == b || UnitsLess(a, b) || UnitsLess(b, a)
    ensures !(UnitsLess(a, b) && UnitsLess(b, a)) && !UnitsLess(a, a)
  {
    if a != [] {
      UnitsTotal(a[1..], a[1..]);
      if b != [] {
        UnitsTotal(a[1..], b[1..]);
        assert a == [a[0]] + a[1..] && b == [b[0]] + b[1..];
      }
    }
  }

  lemma {:induction false} UnitsTransitive(a: seq<int>, b: seq<int>, c: seq<int>)
    requires UnitsLess(a, b) && UnitsLess(b, c)
    ensures UnitsLess(a, c)
  {
    if a != [] && a[0] == b[0] == c[0] {
      UnitsTransitive(a[1..], b[1..], c[1..]);
    }
  }

  /** UTF-16 order on keys is a strict total order, so sorting leaves no choice. */
  lemma KeyOrderTotal(j: string, k: string)
    ensures j == k || KeyLess(j, k) || KeyLess(k, j)
    ensures !(KeyLess(j, k) && KeyLess(k, j)) && !KeyLess(j, j)
  {
    UnitsTotal(Units(j), Units(k));
    UnitsTotal(Units(j), Units(j));
    if Units(j) == Units(k) {
      UnitsInjective(j, k);
    }
  }

  predicate IsLeast(k: string, ks: set<string>) {
    k in ks && forall j | j in ks :: j == k || KeyLess(k, j)
  }

  lemma {:induction false} LeastExists(ks: set<string>)
    requires ks != {}
    ensures exists k :: IsLeast(k, ks)
    decreases |ks|
  {
    var k :| k in ks;
    if ks == {k} {
      assert IsLeast(k, ks);
    } else {
      var rest := ks - {k};
      LeastExists(rest);
      var l :| IsLeast(l, rest);
      assert l in ks && ks == rest + {k};
      KeyOrderTotal(k, l);
      if KeyLess(k, l) {
        forall j | j in ks ensures j == k || KeyLess(k, j) {
          if j != k && j != l {
            assert j in rest;
            UnitsTransitive(Units(k), Units(l), Units(j));
          }
        }
        assert IsLeast(k, ks);
      } else {
        assert IsLeast(l, ks);
      }
    }
  }

  lemma LeastUnique(ks: set<string>)
    ensures forall j, k | IsLeast(j, ks) && IsLeast(k, ks) :: j == k
  {
    forall j, k | IsLeast(j, ks) && IsLeast(k, ks) ensures j == k {
      KeyOrderTotal(j, k);
    }
  }

  /** The keys of a dictionary in the one order `sorted` can give them. */
  function SortedKeys(ks: set<string>): (s: seq<string>)
    ensures |s| == |ks| && forall k :: k in s <==> k in ks
    decreases |ks|
  {
    if ks == {} then []
    else
      LeastExists(ks);
      LeastUnique(ks);
      var k :| IsLeast(k, ks);
      [k] + SortedKeys(ks - {k})
  }

  // ---------------------------------------------------------------- the text

  function Text(v: Json): string
    requires Canonical(v)
    decreases v, 1, 0
  {
    match v
    case Null => "null"
    case Bool(b) => if b then "true" else "false"
    case Int(n) => IntText(n)
    case Str(s) => Quoted(s)
    case Arr(xs) => "[" + Elements(xs, v) + "]"
    case Obj(m) => "{" + Members(m, SortedKeys(m.Keys), v) + "}"
  }

  function Elements(xs: seq<Json>, ghost parent: Json): string
    requires forall i | 0 <= i < |xs| :: xs[i] < parent && Canonical(xs[i])
    decreases parent, 0, |xs|
  {
    if xs == [] then ""
    else if |xs| == 1 then Text(xs[0])
    else Text(xs[0]) + "," + Elements(xs[1..], parent)
  }

  function Members(m: map<string, Json>, ks: seq<string>, ghost parent: Json): string
    requires forall k | k in ks :: k in m && m[k] < parent && Canonical(m[k])
    decreases parent, 0, |ks|
  {
    if ks == [] then ""
    else if |ks| == 1 then Member(m, ks[0], parent)
    else Member(m, ks[0], parent) + "," + Members(m, ks[1..], parent)
  }

  function Member(m: map<string, Json>, k: string, ghost parent: Json): string
    requires k in m && m[k] < parent && Canonical(m[k])
    decreases parent, 0, 0
  {
    Quoted(k) + ":" + Text(m[k])
  }

  /** `jcs` itself: an exception exactly on a float or an integer outside the safe range. */
  function Jcs(v: Json): (r: Result<string>)
    ensures r.Ok? <==> Canonical(v)
  {
    if Canonical(v) then Ok(Text(v)) else Err("ValueError")
  }

  // ------------------------------------------------- the text is the value

  function Lead(c: char): nat {
    match c
    case 'n' => 0
    case 't' => 1
    case 'f' => 2
    case '"' => 4
    case '[' => 5
    case '{' => 6
    case _ => if c == '-' || IsDigit(c) then 3 else 7
  }

  function KindOf(v: Json): nat {
    match v
    case Null => 0
    case Bool(b) => if b then 1 else 2
    case Int(_) => 3
    case Float(_) => 8
    case Str(_) => 4
    case Arr(_) => 5
    case Obj(_) => 6
  }

  lemma TextLead(v: Json, s: string)
    requires Canonical(v)
    ensures Text(v) != "" && Lead((Text(v) + s)[0]) == KindOf(v)
  {
    match v
    case Int(n) =>
      assert IsDigit(Digits(if n < 0 then -n else n)[0]);
    case _ =>
  }

  /** No text continues another one: what follows a value is never part of it. */
  lemma {:induction false} TextUnique(v: Json, w: Json, s: string, t: string)
    requires Canonical(v) && Canonical(w) && Text(v) + s == Text(w) + t
    requires !StartsWithDigit(s) && !StartsWithDigit(t)
    ensures v == w && s == t
    decreases v, 1, 0
  {
    TextLead(v, s);
    TextLead(w, t);
    match v
    case Null => SamePrefix("null", s, t);
    case Bool(b) => SamePrefix(Text(v), s, t);
    case Int(n) => IntTextUnique(n, w.n, s, t);
    case Str(x) => QuotedUnique(x, w.s, s, t);
    case Arr(xs) => ArrUnique(v, w, s, t);
    case Obj(m) => ObjUnique(v, w, s, t);
  }

  lemma ArrUnique(v: Json, w: Json, s: string, t: string)
    requires v.Arr? && w.Arr? && Canonical(v) && Canonical(w) && Text(v) + s == Text(w) + t
    ensures v == w && s == t
    decreases v, 0, |v.xs| + 1
  {
    Bracketed("[", Elements(v.xs, v), "]", s);
    Bracketed("[", Elements(w.xs, w), "]", t);
    ElementsUnique(v.xs, w.xs, s, t, v, w);
  }

  lemma ObjUnique(v: Json, w: Json, s: string, t: string)
    requires v.Obj? && w.Obj? && Canonical(v) && Canonical(w) && Text(v) + s == Text(w) + t
    ensures v == w && s == t
    decreases v, 0, |v.m| + 1
  {
    var ks, ls := SortedKeys(v.m.Keys), SortedKeys(w.m.Keys);
    Bracketed("{", Members(v.m, ks, v), "}", s);
    Bracketed("{", Members(w.m, ls, w), "}", t);
    MembersUnique(v.m, w.m, ks, ls, s, t, v, w);
    assert v.m.Keys == w.m.Keys;
    assert v.m == w.m;
  }

  lemma Bracketed(open: string, body: string, close: string, s: string)
    requires |open| == 1
    ensures (open + body + close + s)[1..] == body + (close + s)
  {
  }

  lemma Assoc(a: string, b: string, c: string)
    ensures a + b + c == a + (b + c)
  {
  }

  lemma SamePrefix(p: string, s: string, t: string)
    requires p + s == p + t
    ensures s == t
  {
    assert s == (p + s)[|p|..] && t == (p + t)[|p|..];
  }

  /** What follows the first element of a list: a comma and the rest, or the closing bracket. */
  function AfterElement(xs: seq<Json>, s: string, ghost parent: Json): string
    requires xs != [] && forall i | 0 <= i < |xs| :: xs[i] < parent && Canonical(xs[i])
  {
    if |xs| == 1 then "]" + s else "," + (Elements(xs[1..], parent) + ("]" + s))
  }

  lemma ElementsSplit(xs: seq<Json>, s: string, parent: Json)
    requires forall i | 0 <= i < |xs| :: xs[i] < parent && Canonical(xs[i])
    ensures xs == [] ==> Elements(xs, parent) + ("]" + s) == "]" + s
    ensures xs != [] ==> Elements(xs, parent) + ("]" + s) == Text(xs[0]) + AfterElement(xs, s, parent)
  {
    if |xs| > 1 {
      Assoc(Text(xs[0]) + ",", Elements(xs[1..], parent), "]" + s);
      Assoc(Text(xs[0]), ",", Elements(xs[1..], parent) + ("]" + s));
    }
  }

  lemma ElementsEmpty(xs: seq<Json>, s: string, parent: Json)
    requires forall i | 0 <= i < |xs| :: xs[i] < parent && Canonical(xs[i])
    ensures (Elements(xs, parent) + ("]" + s))[0] == ']' <==> xs == []
  {
    ElementsSplit(xs, s, parent);
    if xs != [] {
      TextLead(xs[0], AfterElement(xs, s, parent));
    }
  }

  lemma AfterElementSplit(xs: seq<Json>, s: string, parent: Json)
    requires xs != [] && forall i | 0 <= i < |xs| :: xs[i] < parent && Canonical(xs[i])
    ensures AfterElement(xs, s, parent)[0] == ']' <==> |xs| == 1
    ensures !StartsWithDigit(AfterElement(xs, s, parent))
    ensures |xs| == 1 ==> AfterElement(xs, s, parent)[1..] == s
    ensures |xs| > 1 ==> AfterElement(xs, s, parent)[1..] == Elements(xs[1..], parent) + ("]" + s)
  {
  }

  lemma {:induction false} ElementsUnique(xs: seq<Json>, ys: seq<Json>, s: string, t: string, v: Json, w: Json)
    requires forall i | 0 <= i < |xs| :: xs[i] < v && Canonical(xs[i])
    requires forall i | 0 <= i < |ys| :: ys[i] < w && Canonical(ys[i])
    requires Elements(xs, v) + ("]" + s) == Elements(ys, w) + ("]" + t)
    ensures xs == ys && s == t
    decreases v, 0, |xs|
  {
    ElementsEmpty(xs, s, v);
    ElementsEmpty(ys, t, w);
    ElementsSplit(xs, s, v);
    ElementsSplit(ys, t, w);
    if xs == [] {
      SamePrefix("]", s, t);
    } else {
      AfterElementSplit(xs, s, v);
      AfterElementSplit(ys, t, w);
      TextUnique(xs[0], ys[0], AfterElement(xs, s, v), AfterElement(ys, t, w));
      if |xs| > 1 {
        ElementsUnique(xs[1..], ys[1..], s, t, v, w);
      }
      assert xs == [xs[0]] + xs[1..] && ys == [ys[0]] + ys[1..];
    }
  }

  function AfterMember(m: map<string, Json>, ks: seq<string>, s: string, ghost parent: Json): string
    requires ks != [] && forall k | k in ks :: k in m && m[k] < parent && Canonical(m[k])
  {
    if |ks| == 1 then "}" + s else "," + (Members(m, ks[1..], parent) + ("}" + s))
  }

  function FromMember(m: map<string, Json>, ks: seq<string>, s: string, ghost parent: Json): string
    requires ks != [] && forall k | k in ks :: k in m && m[k] < parent && Canonical(m[k])
  {
    Quoted(ks[0]) + (":" + (Text(m[ks[0]]) + AfterMember(m, ks, s, parent)))
  }

  lemma MembersSplit(m: map<string, Json>, ks: seq<string>, s: string, parent: Json)
    requires forall k | k in ks :: k in m && m[k] < parent && Canonical(m[k])
    ensures ks == [] ==> Members(m, ks, parent) + ("}" + s) == "}" + s
    ensures ks != [] ==> Members(m, ks, parent) + ("}" + s) == FromMember(m, ks, s, parent)
    ensures ks != [] ==> FromMember(m, ks, s, parent)[0] == '"'
  {
    if ks != [] {
      var rest := AfterMember(m, ks, s, parent);
      Assoc(Quoted(ks[0]) + ":", Text(m[ks[0]]), rest);
      Assoc(Quoted(ks[0]), ":", Text(m[ks[0]]) + rest);
      if |ks| > 1 {
        Assoc(Member(m, ks[0], parent) + ",", Members(m, ks[1..], parent), "}" + s);
        Assoc(Member(m, ks[0], parent), ",", Members(m, ks[1..], parent) + ("}" + s));
      }
    }
  }

  lemma {:induction false} MembersUnique(m: map<string, Json>, n: map<string, Json>, ks: seq<string>, ls: seq<string>,
                                         s: string, t: string, v: Json, w: Json)
    requires forall k | k in ks :: k in m && m[k] < v && Canonical(m[k])
    requires forall k | k in ls :: k in n && n[k] < w && Canonical(n[k])
    requires Members(m, ks, v) + ("}" + s) == Members(n, ls, w) + ("}" + t)
    ensures ks == ls && s == t && forall k | k in ks :: m[k] == n[k]
    decreases v, 0, |ks|
  {
    MembersSplit(m, ks, s, v);
    MembersSplit(n, ls, t, w);
    if ks == [] {
      assert ls == [];
      SamePrefix("}", s, t);
    } else {
      assert ls != [];
      var k, l := ks[0], ls[0];
      var a, b := AfterMember(m, ks, s, v), AfterMember(n, ls, t, w);
      QuotedUnique(k, l, ":" + (Text(m[k]) + a), ":" + (Text(n[l]) + b));
      SamePrefix(":", Text(m[k]) + a, Text(n[l]) + b);
      TextUnique(m[k], n[l], a, b);
      assert a[0] == b[0];
      assert |ks| == 1 <==> |ls| == 1;
      if |ks| == 1 {
        SamePrefix("}", s, t);
        assert ks == [k] && ls == [l];
      } else {
        SamePrefix(",", Members(m, ks[1..], v) + ("}" + s), Members(n, ls[1..], w) + ("}" + t));
        MembersUnique(m, n, ks[1..], ls[1..], s, t, v, w);
        assert ks == [k] + ks[1..] && ls == [l] + ls[1..];
      }
    }
  }

  /** Two values with one canonical text are one value. */
  lemma TextInjective(v: Json, w: Json)
    requires Canonical(v) && Canonical(w) && Jcs(v) == Jcs(w)
    ensures v == w
  {
    assert Text(v) + "" == Text(v) && Text(w) + "" == Text(w);
    TextUnique(v, w, "", "");
  }

  // -------------------------------------------- insertion order is invisible

  /** A Python dictionary as it was filled: distinct keys in insertion order. */
  predicate Dict(items: seq<(string, Json)>) {
    forall i, j | 0 <= i < j < |items| :: items[i].0 != items[j].0
  }

  function MapOf(items: seq<(string, Json)>): map<string, Json>
    requires Dict(items)
  {
    map i | 0 <= i < |items| :: items[i].0 := items[i].1
  }

  /** Keys in ascending order without repetition: what `sorted` leaves of a dictionary. */
  predicate Ascending(ks: seq<string>) {
    forall i, j | 0 <= i < j < |ks| :: KeyLess(ks[i], ks[j])
  }

  function InsertKey(k: string, ks: seq<string>): seq<string> {
    if ks == [] || KeyLess(k, ks[0]) then [k] + ks else [ks[0]] + InsertKey(k, ks[1..])
  }

  /** `sorted` over the keys in the order in which the dictionary was filled. */
  function SortKeys(ks: seq<string>): seq<string> {
    if ks == [] then [] else InsertKey(ks[0], SortKeys(ks[1..]))
  }

  lemma {:induction false} InsertKeyMembers(k: string, ks: seq<string>)
    ensures forall j :: j in InsertKey(k, ks) <==> j == k || j in ks
  {
    if ks != [] && !KeyLess(k, ks[0]) {
      InsertKeyMembers(k, ks[1..]);
      assert ks == [ks[0]] + ks[1..];
    }
  }

  lemma {:induction false} InsertKeyAscending(k: string, ks: seq<string>)
    requires Ascending(ks) && k !in ks
    ensures Ascending(InsertKey(k, ks))
  {
    if ks == [] {
    } else if KeyLess(k, ks[0]) {
      forall j | 1 <= j < |ks| ensures KeyLess(k, ks[j]) {
        UnitsTransitive(Units(k), Units(ks[0]), Units(ks[j]));
      }
    } else {
      KeyOrderTotal(k, ks[0]);
      InsertKeyAscending(k, ks[1..]);
      InsertKeyMembers(k, ks[1..]);
      var rest := InsertKey(k, ks[1..]);
      forall j | 0 <= j < |rest| ensures KeyLess(ks[0], rest[j]) {
        assert rest[j] in rest;
      }
    }
  }

  lemma {:induction false} SortKeysSorts(ks: seq<string>)
    requires forall i, j | 0 <= i < j < |ks| :: ks[i] != ks[j]
    ensures Ascending(SortKeys(ks)) && forall k :: k in SortKeys(ks) <==> k in ks
  {
    if ks != [] {
      SortKeysSorts(ks[1..]);
      InsertKeyMembers(ks[0], SortKeys(ks[1..]));
      assert forall k :: k in ks <==> k == ks[0] || k in ks[1..];
      InsertKeyAscending(ks[0], SortKeys(ks[1..]));
    }
  }

  /** A strict total order leaves one ascending listing of a set. */
  lemma {:induction false} AscendingUnique(ks: seq<string>, set_: set<string>)
    requires Ascending(ks) && forall k :: k in ks <==> k in set_
    ensures ks == SortedKeys(set_)
    decreases |ks|
  {
    if ks != [] {
      assert ks[0] in ks;
      assert IsLeast(ks[0], set_);
      LeastUnique(set_);
      var rest := set_ - {ks[0]};
      forall k ensures k in ks[1..] <==> k in rest {
        KeyOrderTotal(ks[0], ks[0]);
        assert k in ks <==> k == ks[0] || k in ks[1..];
      }
      AscendingUnique(ks[1..], rest);
      assert ks == [ks[0]] + ks[1..];
    } else {
      assert set_ == {};
    }
  }

  function KeysOf(items: seq<(string, Json)>): seq<string> {
    seq(|items|, i requires 0 <= i < |items| => items[i].0)
  }

  /** The text of a dictionary written from its items in their insertion order. */
  function DictText(items: seq<(string, Json)>): string
    requires Dict(items) && Canonical(Obj(MapOf(items)))
  {
    SortKeysSorts(KeysOf(items));
    var m := MapOf(items);
    "{" + Members(m, SortKeys(KeysOf(items)), Obj(m)) + "}"
  }

  /** Whatever the insertion order, a dictionary has the text of the mapping it holds. */
  lemma DictOrderFree(items: seq<(string, Json)>)
    requires Dict(items) && Canonical(Obj(MapOf(items)))
    ensures DictText(items) == Text(Obj(MapOf(items)))
  {
    var ks := KeysOf(items);
    SortKeysSorts(ks);
    forall k ensures k in SortKeys(ks) <==> k in MapOf(items).Keys {
      if k in ks {
        var i :| 0 <= i < |ks| && ks[i] == k;
        assert items[i].0 in MapOf(items);
      }
      if k in MapOf(items) {
        var i :| 0 <= i < |items| && items[i].0 == k;
        assert ks[i] == k;
      }
    }
    AscendingUnique(SortKeys(ks), MapOf(items).Keys);
  }
}
