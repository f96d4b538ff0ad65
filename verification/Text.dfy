/** Printed forms that the signed messages are built from, and why they can be read back. */
module Text {
  import opened Options

  predicate IsDigit(c: char) {
    '0' <= c <= '9'
  }

  predicate IsLetter(c: char) {
    'a' <= c <= 'z' || 'A' <= c <= 'Z'
  }

  predicate IsHex(c: char) {
    IsDigit(c) || 'a' <= c <= 'f'
  }

  predicate IsBase58(c: char) {
    (IsDigit(c) && c != '0') || (IsLetter(c) && c != 'O' && c != 'I' && c != 'l')
  }

  predicate IsUuidChar(c: char) {
    IsHex(c) || c == '-'
  }

  predicate Within(text: string, allowed: char -> bool) {
    forall i :: 0 <= i < |text| ==> allowed(text[i])
  }

  predicate Without(text: string, c: char) {
    forall i :: 0 <= i < |text| ==> text[i] != c
  }

  // ----- reading a field back ------------------------------------------------------------

  /** The first position from `k` on whose character stops a field, or the end. */
  function Span(text: string, k: nat, stops: char -> bool): nat
    requires k <= |text|
    decreases |text| - k
  {
    if k < |text| && !stops(text[k]) then Span(text, k + 1, stops) else k
  }

  lemma {:induction false} SpanIs(text: string, k: nat, n: nat, stops: char -> bool)
    requires k <= n <= |text| && (forall i :: k <= i < n ==> !stops(text[i])) && (n < |text| ==> stops(text[n]))
    ensures Span(text, k, stops) == n
    decreases n - k
  {
    if k < n { SpanIs(text, k + 1, n, stops); }
  }

  /** A field without stopping characters is read back with what follows it. */
  lemma FieldReadsBack(x: string, rest: string, y: string, rest': string, stops: char -> bool)
    requires x + rest == y + rest'
    requires (forall i :: 0 <= i < |x| ==> !stops(x[i])) && (forall i :: 0 <= i < |y| ==> !stops(y[i]))
    requires (rest != [] ==> stops(rest[0])) && (rest' != [] ==> stops(rest'[0]))
    ensures x == y && rest == rest'
  {
    SpanIs(x + rest, 0, |x|, stops);
    SpanIs(y + rest', 0, |y|, stops);
    assert (x + rest)[..|x|] == x && (y + rest')[..|y|] == y;
    assert (x + rest)[|x|..] == rest && (y + rest')[|y|..] == rest';
  }

  // ----- decimal numbers --------------------------------------------------------------------

  function Digit(n: nat): (c: char)
    requires n < 10
    ensures IsDigit(c) && c as int == '0' as int + n
  {
    ('0' as int + n) as char
  }

  /** `str(n)`. */
  function Decimal(n: nat): (text: string)
    ensures text != []
  {
    if n < 10 then [Digit(n)] else Decimal(n / 10) + [Digit(n % 10)]
  }

  lemma {:induction false} DecimalHasDigits(n: nat)
    ensures Within(Decimal(n), IsDigit)
  {
    if n >= 10 { DecimalHasDigits(n / 10); }
  }

  lemma DecimalSplit(n: nat)
    ensures Decimal(n)[|Decimal(n)| - 1] == Digit(n % 10)
    ensures if n < 10 then |Decimal(n)| == 1 else |Decimal(n)| > 1 && Decimal(n)[..|Decimal(n)| - 1] == Decimal(n / 10)
  {
  }

  lemma {:induction false} DecimalInjective(a: nat, b: nat)
    requires Decimal(a) == Decimal(b)
    ensures a == b
  {
    DecimalSplit(a);
    DecimalSplit(b);
    if a >= 10 && b >= 10 { DecimalInjective(a / 10, b / 10); }
  }

  lemma DecimalReadsBack(a: nat, rest: string, b: nat, rest': string)
    requires Decimal(a) + rest == Decimal(b) + rest'
    requires (rest != [] ==> !IsDigit(rest[0])) && (rest' != [] ==> !IsDigit(rest'[0]))
    ensures a == b && rest == rest'
  {
    DecimalHasDigits(a);
    DecimalHasDigits(b);
    FieldReadsBack(Decimal(a), rest, Decimal(b), rest', c => !IsDigit(c));
    DecimalInjective(a, b);
  }

  lemma DecimalWithout(n: nat, c: char)
    requires !IsDigit(c)
    ensures Without(Decimal(n), c)
  {
    DecimalHasDigits(n);
  }

  // ----- separated fields -----------------------------------------------------------------------

  /** `sep.join(parts[k:])`. */
  function JoinedFrom(parts: seq<string>, k: nat, sep: char): string
    requires k < |parts|
    decreases |parts| - k
  {
    if k == |parts| - 1 then parts[k] else parts[k] + ([sep] + JoinedFrom(parts, k + 1, sep))
  }

  function Joined(parts: seq<string>, sep: char): string
    requires parts != []
  {
    JoinedFrom(parts, 0, sep)
  }

  ghost predicate AllWithout(parts: seq<string>, sep: char) {
    forall k :: 0 <= k < |parts| ==> Without(parts[k], sep)
  }

  lemma AllWithoutAppend(a: seq<string>, b: seq<string>, sep: char)
    requires AllWithout(a, sep) && AllWithout(b, sep)
    ensures AllWithout(a + b, sep)
  {
  }

  lemma {:induction false} JoinedFromReadsBack(a: seq<string>, b: seq<string>, k: nat, sep: char)
    requires k < |a| && k < |b| && AllWithout(a, sep) && AllWithout(b, sep)
    requires JoinedFrom(a, k, sep) == JoinedFrom(b, k, sep)
    ensures |a| == |b| && forall i :: k <= i < |a| ==> a[i] == b[i]
    decreases |a| - k
  {
    var rest := if k == |a| - 1 then "" else [sep] + JoinedFrom(a, k + 1, sep);
    var rest' := if k == |b| - 1 then "" else [sep] + JoinedFrom(b, k + 1, sep);
    assert a[k] + rest == JoinedFrom(a, k, sep) && b[k] + rest' == JoinedFrom(b, k, sep);
    assert Without(a[k], sep) && Without(b[k], sep);
    FieldReadsBack(a[k], rest, b[k], rest', c => c == sep);
    if k < |a| - 1 {
      assert rest[1..] == JoinedFrom(a, k + 1, sep) && rest'[1..] == JoinedFrom(b, k + 1, sep);
      JoinedFromReadsBack(a, b, k + 1, sep);
    }
  }

  /** Fields without the separator can be read back from their join. */
  lemma JoinedReadsBack(a: seq<string>, b: seq<string>, sep: char)
    requires a != [] && b != [] && AllWithout(a, sep) && AllWithout(b, sep)
    requires Joined(a, sep) == Joined(b, sep)
    ensures a == b
  {
    JoinedFromReadsBack(a, b, 0, sep);
  }

  lemma {:induction false} JoinedFromWithout(parts: seq<string>, k: nat, sep: char, c: char)
    requires k < |parts| && AllWithout(parts, c) && sep != c
    ensures Without(JoinedFrom(parts, k, sep), c)
    decreases |parts| - k
  {
    assert Without(parts[k], c);
    if k < |parts| - 1 { JoinedFromWithout(parts, k + 1, sep, c); }
  }

  /** `text.split(sep)`. */
  function Split(text: string, sep: char): (fields: seq<string>)
    ensures fields != []
    decreases |text|
  {
    var n := Field(text, sep);
    [text[..n]] + if n == |text| then [] else Split(text[n + 1..], sep)
  }

  /** How long the first field is. */
  function Field(text: string, sep: char): (n: nat)
    ensures n <= |text| && (forall i :: 0 <= i < n ==> text[i] != sep) && (n < |text| ==> text[n] == sep)
    decreases |text|
  {
    if text == "" || text[0] == sep then 0 else 1 + Field(text[1..], sep)
  }

  lemma {:induction false} SplitOfJoinedFrom(parts: seq<string>, k: nat, sep: char)
    requires k < |parts| && AllWithout(parts, sep)
    ensures Split(JoinedFrom(parts, k, sep), sep) == parts[k..]
    decreases |parts| - k
  {
    hide Split, Without;
    assert Without(parts[k], sep);
    if k == |parts| - 1 {
      FirstField(parts[k], "", sep);
      assert parts[k..] == [parts[k]];
    } else {
      var rest := JoinedFrom(parts, k + 1, sep);
      FirstField(parts[k], rest, sep);
      SplitOfJoinedFrom(parts, k + 1, sep);
      assert parts[k..] == [parts[k]] + parts[k + 1..];
    }
  }

  lemma FirstField(field: string, rest: string, sep: char)
    requires Without(field, sep)
    ensures Split(field + ([sep] + rest), sep) == [field] + Split(rest, sep)
    ensures Split(field, sep) == [field]
  {
    var text := field + ([sep] + rest);
    assert text[|field|] == sep && text[..|field|] == field && text[|field| + 1..] == rest;
    assert Field(text, sep) == |field| && Field(field, sep) == |field|;
    assert field[..|field|] == field;
  }

  /** Splitting a join gives the fields back when none contains the separator. */
  lemma SplitOfJoined(parts: seq<string>, sep: char)
    requires parts != [] && AllWithout(parts, sep)
    ensures Split(Joined(parts, sep), sep) == parts
  {
    SplitOfJoinedFrom(parts, 0, sep);
  }

  // ----- the order of strings -------------------------------------------------------------------

  /** A strict total order on strings: the first difference decides, and a prefix comes first. */
  predicate LessFrom(a: string, b: string, k: nat)
    requires k <= |a| && k <= |b|
    decreases |a| - k
  {
    k < |b| && (k == |a| || a[k] < b[k] || (a[k] == b[k] && LessFrom(a, b, k + 1)))
  }

  predicate Less(a: string, b: string) {
    LessFrom(a, b, 0)
  }

  lemma {:induction false} LessIsTotal(a: string, b: string, k: nat)
    requires k <= |a| && k <= |b| && a[..k] == b[..k] && a != b
    ensures LessFrom(a, b, k) <==> !LessFrom(b, a, k)
    decreases |a| - k
  {
    if k < |a| && k < |b| && a[k] == b[k] {
      assert a[..k + 1] == a[..k] + [a[k]] && b[..k + 1] == b[..k] + [b[k]];
      LessIsTotal(a, b, k + 1);
    } else {
      assert a[..|a|] == a && b[..|b|] == b;
    }
  }

  lemma {:induction false} LessIsIrreflexive(a: string, k: nat)
    requires k <= |a|
    ensures !LessFrom(a, a, k)
    decreases |a| - k
  {
    if k < |a| { LessIsIrreflexive(a, k + 1); }
  }

  lemma {:induction false} LessIsTransitive(a: string, b: string, c: string, k: nat)
    requires k <= |a| && k <= |b| && k <= |c| && LessFrom(a, b, k) && LessFrom(b, c, k)
    ensures LessFrom(a, c, k)
    decreases |a| - k
  {
    if k < |a| && a[k] == b[k] == c[k] { LessIsTransitive(a, b, c, k + 1); }
  }
}
