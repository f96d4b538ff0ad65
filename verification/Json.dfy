/** Compact JSON as `json.dumps` prints it, and why it can be read back. */
module Json {
  import opened Options
  import opened Text

  datatype Value = Null | Bool(b: bool) | Number(n: nat) | Str(s: string)

  type Member = (string, Value)

  // ----- strings --------------------------------------------------------------------------

  function HexDigit(n: nat): char
    requires n < 16
  {
    if n < 10 then Digit(n) else ('a' as int + n - 10) as char
  }

  lemma HexDigitInjective(m: nat, n: nat)
    requires m < 16 && n < 16 && HexDigit(m) == HexDigit(n)
    ensures m == n
  {
  }

  function Power16(width: nat): nat {
    if width == 0 then 1 else 16 * Power16(width - 1)
  }

  function Hex(n: nat, width: nat): (text: string)
    requires n < Power16(width)
    ensures |text| == width
  {
    if width == 0 then "" else Hex(n / 16, width - 1) + [HexDigit(n % 16)]
  }

  lemma {:induction false} HexInjective(m: nat, n: nat, width: nat)
    requires m < Power16(width) && n < Power16(width) && Hex(m, width) == Hex(n, width)
    ensures m == n
    decreases width
  {
    if width > 0 {
      var x, y := Hex(m, width), Hex(n, width);
      assert x[width - 1] == y[width - 1] && x[..width - 1] == Hex(m / 16, width - 1) && y[..width - 1] == Hex(n / 16, width - 1);
      HexDigitInjective(m % 16, n % 16);
      HexInjective(m / 16, n / 16, width - 1);
    }
  }

  function Hex4(n: nat): (text: string)
    requires n < 0x1_0000
    ensures |text| == 4
  {
    assert Power16(4) == 0x1_0000;
    Hex(n, 4)
  }

  lemma Hex4Injective(m: nat, n: nat)
    requires m < 0x1_0000 && n < 0x1_0000 && Hex4(m) == Hex4(n)
    ensures m == n
  {
    HexInjective(m, n, 4);
  }

  function HighSurrogate(n: nat): nat
    requires 0x1_0000 <= n < 0x11_0000
  {
    0xD800 + (n - 0x1_0000) / 1024
  }

  function LowSurrogate(n: nat): nat
    requires 0x1_0000 <= n < 0x11_0000
  {
    0xDC00 + (n - 0x1_0000) % 1024
  }

  function FirstUnit(c: char): (unit: nat)
    ensures unit < 0x1_0000
  {
    if c as int < 0x1_0000 then c as int else HighSurrogate(c as int)
  }

  /** A character outside printable ASCII; beyond the basic plane, as a surrogate pair. */
  function UnicodeEscape(c: char): string {
    "\\u" + Hex4(FirstUnit(c)) + if c as int < 0x1_0000 then "" else "\\u" + Hex4(LowSurrogate(c as int))
  }

  /** The letter of a two-character escape, or nothing. */
  function ShortEscape(c: char): Option<char> {
    match c
    case '"' => Some('"')
    case '\\' => Some('\\')
    case '\n' => Some('n')
    case '\r' => Some('r')
    case '\t' => Some('t')
    case '\U{0008}' => Some('b')
    case '\U{000C}' => Some('f')
    case _ => None
  }

  function Escape(c: char): (text: string)
    ensures text != []
  {
    match ShortEscape(c)
    case Some(letter) => ['\\', letter]
    case None => if ' ' <= c <= '~' then [c] else UnicodeEscape(c)
  }

  function EscapedFrom(text: string, k: nat): string
    requires k <= |text|
    decreases |text| - k
  {
    if k == |text| then "" else Escape(text[k]) + EscapedFrom(text, k + 1)
  }

  function Quote(text: string): string {
    "\"" + EscapedFrom(text, 0) + "\""
  }

  lemma UnicodeEscapeReadsBack(c: char, x: string, d: char, y: string)
    requires UnicodeEscape(c) + x == UnicodeEscape(d) + y
    ensures c == d
  {
    hide Hex4;
    var s, t := UnicodeEscape(c) + x, UnicodeEscape(d) + y;
    assert s[2..6] == Hex4(FirstUnit(c)) && t[2..6] == Hex4(FirstUnit(d));
    Hex4Injective(FirstUnit(c), FirstUnit(d));
    if c as int >= 0x1_0000 {
      assert s[8..12] == Hex4(LowSurrogate(c as int)) && t[8..12] == Hex4(LowSurrogate(d as int));
      Hex4Injective(LowSurrogate(c as int), LowSurrogate(d as int));
    }
  }

  /** No escape is the start of another. */
  lemma EscapeReadsBack(c: char, x: string, d: char, y: string)
    requires Escape(c) + x == Escape(d) + y
    ensures c == d && x == y
  {
    hide UnicodeEscape;
    var s, t := Escape(c) + x, Escape(d) + y;
    assert s[0] == Escape(c)[0] && t[0] == Escape(d)[0];
    EscapeShape(c);
    EscapeShape(d);
    if Escape(c)[0] == '\\' {
      assert s[1] == Escape(c)[1] && t[1] == Escape(d)[1];
      if Escape(c)[1] == 'u' { UnicodeEscapeReadsBack(c, x, d, y); }
    }
    assert s[|Escape(c)|..] == x && t[|Escape(d)|..] == y;
  }

  lemma EscapeShape(c: char)
    ensures Escape(c)[0] != '"'
    ensures Escape(c)[0] == '\\' ==> |Escape(c)| >= 2
    ensures Escape(c)[0] != '\\' ==> Escape(c) == [c]
    ensures Escape(c)[0] == '\\' && Escape(c)[1] != 'u' ==> ShortEscape(c) == Some(Escape(c)[1])
    ensures Escape(c)[0] == '\\' && Escape(c)[1] == 'u' ==> Escape(c) == UnicodeEscape(c)
  {
  }

  lemma {:induction false} EscapedReadsBack(s: string, x: string, t: string, y: string, i: nat)
    requires i <= |s| && i <= |t| && EscapedFrom(s, i) + ("\"" + x) == EscapedFrom(t, i) + ("\"" + y)
    ensures |s| == |t| && s[i..] == t[i..] && x == y
    decreases |s| - i
  {
    hide Escape;
    FirstOfEscaped(s, i, x);
    FirstOfEscaped(t, i, y);
    if i < |s| {
      var u, v := EscapedFrom(s, i + 1) + ("\"" + x), EscapedFrom(t, i + 1) + ("\"" + y);
      assert EscapedFrom(s, i) + ("\"" + x) == Escape(s[i]) + u;
      assert EscapedFrom(t, i) + ("\"" + y) == Escape(t[i]) + v;
      EscapeReadsBack(s[i], u, t[i], v);
      EscapedReadsBack(s, x, t, y, i + 1);
    } else {
      assert "" + ("\"" + x) == "\"" + x && "" + ("\"" + y) == "\"" + y;
      assert ("\"" + x)[1..] == x && ("\"" + y)[1..] == y;
    }
  }

  /** The closing quote is the first unescaped one. */
  lemma FirstOfEscaped(text: string, k: nat, x: string)
    requires k <= |text|
    ensures (EscapedFrom(text, k) + ("\"" + x))[0] == '"' <==> k == |text|
  {
    if k < |text| { EscapeShape(text[k]); }
  }

  lemma QuoteReadsBack(s: string, x: string, t: string, y: string)
    requires Quote(s) + x == Quote(t) + y
    ensures s == t && x == y
  {
    assert (Quote(s) + x)[1..] == EscapedFrom(s, 0) + ("\"" + x);
    assert (Quote(t) + y)[1..] == EscapedFrom(t, 0) + ("\"" + y);
    EscapedReadsBack(s, x, t, y, 0);
    assert s[0..] == s && t[0..] == t;
  }

  // ----- values and objects ------------------------------------------------------------------

  function Print(value: Value): (text: string)
    ensures text != []
  {
    match value
    case Null => "null"
    case Bool(b) => if b then "true" else "false"
    case Number(n) => Decimal(n)
    case Str(s) => Quote(s)
  }

  predicate Ends(rest: string) {
    rest != [] && (rest[0] == ',' || rest[0] == '}')
  }

  lemma PrintShape(value: Value)
    ensures match value
      case Null => Print(value)[0] == 'n'
      case Bool(b) => Print(value)[0] == if b then 't' else 'f'
      case Number(n) => IsDigit(Print(value)[0])
      case Str(s) => Print(value)[0] == '"'
  {
    if value.Number? { DecimalHasDigits(value.n); }
  }

  lemma PrintReadsBack(v: Value, x: string, w: Value, y: string)
    requires Print(v) + x == Print(w) + y && Ends(x) && Ends(y)
    ensures v == w && x == y
  {
    PrintShape(v);
    PrintShape(w);
    assert (Print(v) + x)[0] == Print(v)[0] && (Print(w) + y)[0] == Print(w)[0];
    match v
    case Number(n) => DecimalReadsBack(n, x, w.n, y);
    case Str(s) => QuoteReadsBack(s, x, w.s, y);
    case _ => assert (Print(v) + x)[|Print(v)|..] == x && (Print(w) + y)[|Print(w)|..] == y;
  }

  /** The members from the `k`th on, and the closing brace. */
  function MembersFrom(members: seq<Member>, k: nat): string
    requires k < |members|
    decreases |members| - k
  {
    Quote(members[k].0) + (":" + (Print(members[k].1) + Rest(members, k)))
  }

  function Rest(members: seq<Member>, k: nat): (rest: string)
    requires k < |members|
    ensures Ends(rest)
    decreases |members| - k, 0
  {
    if k == |members| - 1 then "}" else "," + MembersFrom(members, k + 1)
  }

  function Object(members: seq<Member>): string {
    if members == [] then "{}" else "{" + MembersFrom(members, 0)
  }

  lemma MemberReadsBack(a: Member, x: string, b: Member, y: string)
    requires Quote(a.0) + (":" + (Print(a.1) + x)) == Quote(b.0) + (":" + (Print(b.1) + y)) && Ends(x) && Ends(y)
    ensures a == b && x == y
  {
    hide Quote, Print;
    var u, v := Print(a.1) + x, Print(b.1) + y;
    QuoteReadsBack(a.0, ":" + u, b.0, ":" + v);
    assert (":" + u)[1..] == u && (":" + v)[1..] == v;
    PrintReadsBack(a.1, x, b.1, y);
  }

  lemma {:induction false} MembersReadBack(a: seq<Member>, b: seq<Member>, k: nat)
    requires k < |a| && k < |b| && MembersFrom(a, k) == MembersFrom(b, k)
    ensures |a| == |b| && a[k..] == b[k..]
    decreases |a| - k
  {
    hide Quote, Print;
    MemberReadsBack(a[k], Rest(a, k), b[k], Rest(b, k));
    if k < |a| - 1 && k < |b| - 1 {
      assert ("," + MembersFrom(a, k + 1))[1..] == MembersFrom(a, k + 1);
      assert ("," + MembersFrom(b, k + 1))[1..] == MembersFrom(b, k + 1);
      MembersReadBack(a, b, k + 1);
    }
  }

  /** Printing is injective on objects, whatever the strings in them. */
  lemma ObjectReadsBack(a: seq<Member>, b: seq<Member>)
    requires Object(a) == Object(b)
    ensures a == b
  {
    hide MembersFrom, Quote, Print;
    ObjectShape(a);
    ObjectShape(b);
    if a != [] {
      assert ("{" + MembersFrom(a, 0))[1..] == MembersFrom(a, 0);
      assert ("{" + MembersFrom(b, 0))[1..] == MembersFrom(b, 0);
      MembersReadBack(a, b, 0);
      assert a[0..] == a && b[0..] == b;
    }
  }

  lemma ObjectShape(members: seq<Member>)
    ensures |Object(members)| >= 2 && (Object(members)[1] == '}' <==> members == [])
  {
    if members != [] { assert Object(members)[1] == MembersFrom(members, 0)[0] == '"'; }
  }
}
