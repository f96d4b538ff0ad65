/** The comment masker of `ditto_screener/source_signals.py`: a scanner that jumps
    from construct to construct, proved to blank exactly the characters that a
    one-character-at-a-time lexer classifies as comment, and to be idempotent. */
module CommentMask {

  // ----- the reference lexer --------------------------------------------------

  /** Where the reference lexer stands before it reads a character. */
  datatype Mode =
    | Code
    | LineComment
    | BlockComment(depth: nat)
    | BlockDelimiter(depth: nat)        // on the second character of `/*` or `*/`
    | RawHead(hashes: nat)              // between the prefix and the opening quote
    | RawBody(hashes: nat)
    | RawTail(hashes: nat, seen: nat)   // after a quote and `seen` hashes
    | Str
    | StrEscape
    | CharTail(left: nat)

  predicate At(text: string, i: nat, c: char) {
    i < |text| && text[i] == c
  }

  predicate Pair(text: string, i: nat, c: char, d: char) {
    At(text, i, c) && At(text, i + 1, d)
  }

  function HashesEnd(text: string, i: nat): nat
    decreases |text| - i
  {
    if At(text, i, '#') then HashesEnd(text, i + 1) else i
  }

  function RawHashStart(text: string, i: nat): nat {
    if Pair(text, i, 'b', 'r') then i + 2 else i + 1
  }

  /** A raw-string opener: `r`, `b` or `br`, any hashes, then a quote. */
  predicate RawOpens(text: string, i: nat) {
    (At(text, i, 'r') || At(text, i, 'b')) && At(text, HashesEnd(text, RawHashStart(text, i)), '"')
  }

  /** The lexer's step from code. Only this one looks ahead. */
  function NextInCode(text: string, i: nat): Mode
    requires i < |text|
  {
    if Pair(text, i, '/', '/') then LineComment
    else if Pair(text, i, '/', '*') then BlockDelimiter(1)
    else if RawOpens(text, i) then RawHead(0)
    else if text[i] == '"' then Str
    else if text[i] == '\'' && At(text, i + 2, '\'') then CharTail(2)
    else if text[i] == '\'' && At(text, i + 3, '\'') then CharTail(3)
    else Code
  }

  /** The lexer's step over the character at `i`. */
  function Next(text: string, i: nat, mode: Mode): Mode
    requires i < |text|
  {
    match mode
    case Code => NextInCode(text, i)
    case LineComment => if text[i] == '\n' then Code else LineComment
    case BlockComment(depth) =>
      if Pair(text, i, '/', '*') then BlockDelimiter(depth + 1)
      else if Pair(text, i, '*', '/') && depth > 0 then BlockDelimiter(depth - 1)
      else mode
    case BlockDelimiter(depth) => if depth == 0 then Code else BlockComment(depth)
    case RawHead(hashes) =>
      if text[i] == '"' then RawBody(hashes)
      else if text[i] == '#' then RawHead(hashes + 1)
      else mode
    case RawBody(hashes) =>
      if text[i] != '"' then mode else if hashes == 0 then Code else RawTail(hashes, 0)
    case RawTail(hashes, seen) =>
      if text[i] == '"' then RawTail(hashes, 0)
      else if text[i] != '#' then RawBody(hashes)
      else if seen + 1 == hashes then Code
      else RawTail(hashes, seen + 1)
    case Str => if text[i] == '\\' then StrEscape else if text[i] == '"' then Code else Str
    case StrEscape => Str
    case CharTail(left) => if left <= 1 then Code else CharTail(left - 1)
  }

  predicate InComment(text: string, i: nat, mode: Mode)
    requires i < |text|
  {
    match mode
    case Code => Pair(text, i, '/', '/') || Pair(text, i, '/', '*')
    case LineComment => text[i] != '\n'
    case BlockComment(_) => true
    case BlockDelimiter(_) => true
    case _ => false
  }

  /** The modes before each of the first `n` characters, and after them. */
  function LexPrefix(text: string, n: nat): (modes: seq<Mode>)
    requires n <= |text|
    ensures |modes| == n + 1
  {
    if n == 0 then [Code] else
      var before := LexPrefix(text, n - 1);
      before + [Next(text, n - 1, before[n - 1])]
  }

  function Lex(text: string): (modes: seq<Mode>)
    ensures |modes| == |text| + 1
  {
    LexPrefix(text, |text|)
  }

  predicate IsComment(text: string, i: nat)
    requires i < |text|
  {
    InComment(text, i, Lex(text)[i])
  }

  /** What the masker should return: comment characters blanked, newlines kept. */
  function Masked(text: string): (masked: string)
    ensures |masked| == |text|
  {
    seq(|text|, i requires 0 <= i < |text| => if IsComment(text, i) && text[i] != '\n' then ' ' else text[i])
  }

  // ----- runs of the lexer, instantiated one character at a time ---------------

  ghost predicate Step(text: string, modes: seq<Mode>, i: nat) {
    i < |text| && i + 1 < |modes| && modes[i + 1] == Next(text, i, modes[i])
  }

  ghost predicate Run(text: string, modes: seq<Mode>) {
    && |modes| == |text| + 1 && modes[0] == Code
    && forall i :: 0 <= i < |text| ==> Step(text, modes, i)
  }

  ghost predicate MaskedAt(text: string, modes: seq<Mode>, masked: seq<char>, i: nat) {
    && i < |text| && i < |modes| && i < |masked|
    && masked[i] == if InComment(text, i, modes[i]) && text[i] != '\n' then ' ' else text[i]
  }

  ghost predicate IsMask(text: string, modes: seq<Mode>, masked: seq<char>) {
    |masked| == |text| && forall i :: 0 <= i < |text| ==> MaskedAt(text, modes, masked, i)
  }

  /** No comment in this stretch, which ends at `to` or with the text. */
  ghost predicate Plain(text: string, modes: seq<Mode>, from: nat, to: nat) {
    forall k :: from <= k < to && k < |text| && k < |modes| ==> !InComment(text, k, modes[k])
  }

  lemma {:induction false} LexPrefixRuns(text: string, n: nat, i: nat)
    requires i < n <= |text|
    ensures LexPrefix(text, n)[0] == Code && Step(text, LexPrefix(text, n), i)
  {
    var before := LexPrefix(text, n - 1);
    if i < n - 1 {
      LexPrefixRuns(text, n - 1, i);
    } else if i > 0 {
      LexPrefixRuns(text, n - 1, i - 1);
    }
  }

  lemma LexRuns(text: string)
    ensures Run(text, Lex(text))
  {
    if |text| > 0 { LexPrefixRuns(text, |text|, 0); }
    forall i | 0 <= i < |text| ensures Step(text, Lex(text), i) {
      LexPrefixRuns(text, |text|, i);
    }
  }

  /** A text has one run, so `Lex` is no arbitrary choice. */
  lemma {:induction false} RunIsUnique(text: string, modes: seq<Mode>, i: nat)
    requires Run(text, modes) && i <= |text|
    ensures modes[i] == Lex(text)[i]
  {
    LexRuns(text);
    if i > 0 {
      RunIsUnique(text, modes, i - 1);
      assert Step(text, modes, i - 1) && Step(text, Lex(text), i - 1);
    }
  }

  lemma MaskedIsMask(text: string)
    ensures IsMask(text, Lex(text), Masked(text))
  {
  }

  // ----- stretches the scanner jumps over --------------------------------------

  lemma {:induction false} CharTailModes(text: string, modes: seq<Mode>, k: nat, left: nat)
    requires Run(text, modes) && 0 < left && k + left <= |text| && modes[k] == CharTail(left)
    ensures modes[k + left] == Code && Plain(text, modes, k, k + left)
    decreases left
  {
    assert Step(text, modes, k);
    if left > 1 { CharTailModes(text, modes, k + 1, left - 1); }
  }

  lemma {:induction false} RawHashModes(text: string, modes: seq<Mode>, k: nat, seen: nat, left: nat)
    requires Run(text, modes) && k + left <= |text| && modes[k] == RawHead(seen)
    requires forall j :: k <= j < k + left ==> At(text, j, '#')
    ensures modes[k + left] == RawHead(seen + left) && Plain(text, modes, k, k + left)
    decreases left
  {
    if left > 0 {
      assert At(text, k, '#') && Step(text, modes, k);
      RawHashModes(text, modes, k + 1, seen + 1, left - 1);
    }
  }

  lemma RawHeadModes(text: string, modes: seq<Mode>, index: nat, hashes: nat)
    requires Run(text, modes) && index < |text| && modes[index] == Code && RawOpens(text, index)
    requires forall j :: RawHashStart(text, index) <= j < RawHashStart(text, index) + hashes ==> At(text, j, '#')
    requires At(text, RawHashStart(text, index) + hashes, '"')
    ensures var quote := RawHashStart(text, index) + hashes;
      modes[quote + 1] == RawBody(hashes) && Plain(text, modes, index, quote + 1)
  {
    var start := RawHashStart(text, index);
    assert Step(text, modes, index) && modes[index + 1] == RawHead(0);
    if start == index + 2 { assert Step(text, modes, index + 1); }
    RawHashModes(text, modes, start, 0, hashes);
    assert Step(text, modes, start + hashes);
  }

  function Terminator(hashes: nat): string {
    "\"" + seq(hashes, _ => '#')
  }

  predicate Occurs(text: string, pattern: string, k: nat) {
    k + |pattern| <= |text| && text[k..k + |pattern|] == pattern
  }

  lemma TerminatorGrows(text: string, k: nat, n: nat)
    requires Occurs(text, Terminator(n), k) && At(text, k + 1 + n, '#')
    ensures Occurs(text, Terminator(n + 1), k)
  {
    assert text[k..k + 2 + n] == text[k..k + 1 + n] + [text[k + 1 + n]];
    assert Terminator(n + 1) == Terminator(n) + ['#'];
  }

  /** Inside the raw string at `k`; a tail mode has its quote and hashes just behind it. */
  ghost predicate InRaw(text: string, mode: Mode, start: nat, k: nat, hashes: nat) {
    match mode
    case RawBody(n) => n == hashes
    case RawTail(n, seen) =>
      n == hashes && seen < hashes && start + seen < k && Occurs(text, Terminator(seen), k - 1 - seen)
    case _ => false
  }

  lemma RawStays(text: string, mode: Mode, start: nat, k: nat, hashes: nat)
    requires start <= k < |text| && InRaw(text, mode, start, k, hashes)
    requires forall j :: start <= j <= k ==> !Occurs(text, Terminator(hashes), j)
    ensures InRaw(text, Next(text, k, mode), start, k + 1, hashes)
  {
    if text[k] == '"' {
      assert Occurs(text, Terminator(0), k);
    } else if mode.RawTail? && text[k] == '#' {
      TerminatorGrows(text, k - 1 - mode.seen, mode.seen);
    }
  }

  lemma {:induction false} RawRun(text: string, modes: seq<Mode>, start: nat, k: nat, stop: nat, hashes: nat)
    requires Run(text, modes) && start <= k <= stop <= |text| && InRaw(text, modes[k], start, k, hashes)
    requires forall j :: start <= j < stop ==> !Occurs(text, Terminator(hashes), j)
    ensures InRaw(text, modes[stop], start, stop, hashes) && Plain(text, modes, k, stop)
    decreases stop - k
  {
    if k < stop {
      RawStays(text, modes[k], start, k, hashes);
      assert Step(text, modes, k);
      RawRun(text, modes, start, k + 1, stop, hashes);
    }
  }

  lemma {:induction false} RawCloses(text: string, modes: seq<Mode>, k: nat, hashes: nat, seen: nat)
    requires Run(text, modes) && seen < hashes && Occurs(text, Terminator(hashes), k)
    requires modes[k + 1 + seen] == RawTail(hashes, seen)
    ensures modes[k + 1 + hashes] == Code && Plain(text, modes, k + 1 + seen, k + 1 + hashes)
    decreases hashes - seen
  {
    assert text[k + 1 + seen] == text[k..k + 1 + hashes][1 + seen] == '#';
    assert Step(text, modes, k + 1 + seen);
    if seen + 1 < hashes { RawCloses(text, modes, k, hashes, seen + 1); }
  }

  /** The reference lexer's per-character count finds the first occurrence of a quote
      followed by `hashes` hashes, which is what the scanner's search finds. */
  lemma RawBodyModes(text: string, modes: seq<Mode>, start: nat, hashes: nat, stop: nat)
    requires Run(text, modes) && start <= stop <= |text| && modes[start] == RawBody(hashes)
    requires forall j :: start <= j < stop ==> !Occurs(text, Terminator(hashes), j)
    requires stop == |text| || Occurs(text, Terminator(hashes), stop)
    ensures stop == |text| ==> Plain(text, modes, start, stop)
    ensures stop < |text| ==> modes[stop + 1 + hashes] == Code && Plain(text, modes, start, stop + 1 + hashes)
  {
    RawRun(text, modes, start, start, stop, hashes);
    if stop < |text| {
      assert text[stop] == text[stop..stop + 1 + hashes][0] == '"';
      assert Step(text, modes, stop);
      if hashes > 0 { RawCloses(text, modes, stop, hashes, 0); }
    }
  }

  // ----- the jumping scanner ----------------------------------------------------

  /** The first `upto` characters are final and the others untouched. */
  ghost predicate Scanned(chars: array<char>, text: string, modes: seq<Mode>, upto: nat)
    reads chars
  {
    && chars.Length == |text|
    && (forall k :: 0 <= k < upto && k < |text| ==> MaskedAt(text, modes, chars[..], k))
    && (forall k :: upto <= k < |text| ==> chars[k] == text[k])
  }

  lemma ScannedOn(chars: array<char>, text: string, modes: seq<Mode>, from: nat, to: nat)
    requires Run(text, modes) && Scanned(chars, text, modes, from) && from <= to && Plain(text, modes, from, to)
    ensures Scanned(chars, text, modes, to)
  {
    forall k | from <= k < to && k < |text| ensures MaskedAt(text, modes, chars[..], k) {
      assert chars[..][k] == text[k];
    }
  }

  /** The lexer reads the character at `index` as code: a newline that ends a line
      comment is left for the main loop, which steps over it. */
  ghost predicate Resumes(text: string, modes: seq<Mode>, index: nat) {
    index < |text| && index < |modes| ==>
      modes[index] == Code || (modes[index] == LineComment && text[index] == '\n')
  }

  /** `text.find(pattern, start)`, with -1 for no occurrence. */
  method Find(text: string, pattern: string, start: nat) returns (at: int)
    ensures at == -1 || (start <= at && Occurs(text, pattern, at))
    ensures forall k :: start <= k && (at >= 0 ==> k < at) ==> !Occurs(text, pattern, k)
  {
    at := start;
    while at + |pattern| <= |text|
      invariant start <= at
      invariant forall k :: start <= k < at ==> !Occurs(text, pattern, k)
    {
      if text[at..at + |pattern|] == pattern { return; }
      at := at + 1;
    }
    at := -1;
  }

  /** Overwrites one comment character that the lexer has just reached. */
  method Blank(text: string, ghost modes: seq<Mode>, chars: array<char>, index: nat)
    requires Run(text, modes) && index < |text| && Scanned(chars, text, modes, index)
    requires InComment(text, index, modes[index]) && text[index] != '\n'
    modifies chars
    ensures Scanned(chars, text, modes, index + 1)
  {
    ghost var before := chars[..];
    chars[index] := ' ';
    forall k | 0 <= k < index + 1 ensures MaskedAt(text, modes, chars[..], k) {
      if k < index {
        assert MaskedAt(text, modes, before, k);
        assert chars[..][k] == before[k];
      }
    }
  }

  method BlankLineComment(text: string, ghost modes: seq<Mode>, chars: array<char>, index: nat) returns (end: nat)
    requires Run(text, modes) && index < |text| && Scanned(chars, text, modes, index)
    requires Resumes(text, modes, index) && Pair(text, index, '/', '/')
    modifies chars
    ensures index < end && Scanned(chars, text, modes, end) && Resumes(text, modes, end)
  {
    var found := Find(text, "\n", index);
    end := if found < 0 then |text| else found;
    assert Occurs(text, "\n", end) || end == |text|;
    var offset := index;
    while offset < end
      invariant index <= offset <= end <= |text|
      invariant modes[offset] == if index < offset then LineComment else Code
      invariant Scanned(chars, text, modes, offset)
    {
      assert !Occurs(text, "\n", offset) && Step(text, modes, offset);
      Blank(text, modes, chars, offset);
      offset := offset + 1;
    }
    assert end < |text| ==> text[end..end + 1][0] == '\n';
  }

  /** Blanks a two-character delimiter, leaving the lexer at `depth`. */
  method BlankPair(text: string, ghost modes: seq<Mode>, chars: array<char>, index: nat, ghost depth: nat)
    requires Run(text, modes) && index + 1 < |text| && Scanned(chars, text, modes, index)
    requires InComment(text, index, modes[index]) && text[index] != '\n' && text[index + 1] != '\n'
    requires Next(text, index, modes[index]) == BlockDelimiter(depth)
    modifies chars
    ensures Scanned(chars, text, modes, index + 2)
    ensures modes[index + 2] == if depth == 0 then Code else BlockComment(depth)
  {
    assert Step(text, modes, index) && Step(text, modes, index + 1);
    Blank(text, modes, chars, index);
    Blank(text, modes, chars, index + 1);
  }

  method BlankBlockComment(text: string, ghost modes: seq<Mode>, chars: array<char>, index: nat)
    returns (cursor: nat)
    requires Run(text, modes) && index < |text| && Scanned(chars, text, modes, index)
    requires Resumes(text, modes, index) && Pair(text, index, '/', '*')
    modifies chars
    ensures index < cursor && Scanned(chars, text, modes, cursor) && Resumes(text, modes, cursor)
  {
    var depth := 1;
    BlankPair(text, modes, chars, index, 1);
    cursor := index + 2;
    while cursor < |text| && depth != 0
      invariant index + 2 <= cursor <= |text| && 0 <= depth
      invariant modes[cursor] == if depth == 0 then Code else BlockComment(depth)
      invariant Scanned(chars, text, modes, cursor)
    {
      if Pair(text, cursor, '/', '*') {
        depth := depth + 1;
        BlankPair(text, modes, chars, cursor, depth);
        cursor := cursor + 2;
      } else if Pair(text, cursor, '*', '/') {
        depth := depth - 1;
        BlankPair(text, modes, chars, cursor, depth);
        cursor := cursor + 2;
      } else {
        assert Step(text, modes, cursor);
        if text[cursor] != '\n' {
          Blank(text, modes, chars, cursor);
        } else {
          SkipNewline(text, modes, chars, cursor);
        }
        cursor := cursor + 1;
      }
    }
  }

  lemma SkipNewline(text: string, modes: seq<Mode>, chars: array<char>, index: nat)
    requires Run(text, modes) && At(text, index, '\n') && Scanned(chars, text, modes, index)
    ensures Scanned(chars, text, modes, index + 1)
  {
    assert MaskedAt(text, modes, chars[..], index);
  }

  lemma {:induction false} HashesEndIs(text: string, i: nat, end: nat)
    requires i <= end && !At(text, end, '#')
    requires forall k :: i <= k < end ==> At(text, k, '#')
    ensures HashesEnd(text, i) == end
    decreases end - i
  {
    if i < end {
      assert At(text, i, '#');
      HashesEndIs(text, i + 1, end);
    }
  }

  /** The raw-string branch; not `taken` means the scanner falls through. */
  method SkipRawString(text: string, ghost modes: seq<Mode>, index: nat) returns (taken: bool, end: nat)
    requires Run(text, modes) && index < |text| && Resumes(text, modes, index)
    requires !Pair(text, index, '/', '/') && !Pair(text, index, '/', '*')
    ensures taken == RawOpens(text, index)
    ensures taken ==> index < end <= |text| && Resumes(text, modes, end) && Plain(text, modes, index, end)
  {
    taken, end := false, index;
    if At(text, index, 'r') || At(text, index, 'b') {
      var cursor := RawHashStart(text, index);
      var hashes := 0;
      while cursor < |text| && text[cursor] == '#'
        invariant cursor == RawHashStart(text, index) + hashes
        invariant forall k :: RawHashStart(text, index) <= k < cursor ==> At(text, k, '#')
        decreases |text| - cursor
      {
        hashes := hashes + 1;
        cursor := cursor + 1;
      }
      HashesEndIs(text, RawHashStart(text, index), cursor);
      if cursor < |text| && text[cursor] == '"' {
        taken := true;
        RawHeadModes(text, modes, index, hashes);
        var terminator := Terminator(hashes);
        var found := Find(text, terminator, cursor + 1);
        end := if found < 0 then |text| else found + |terminator|;
        RawBodyModes(text, modes, cursor + 1, hashes, if found < 0 then |text| else found);
      }
    }
  }

  method SkipString(text: string, ghost modes: seq<Mode>, index: nat) returns (cursor: nat)
    requires Run(text, modes) && At(text, index, '"') && Resumes(text, modes, index)
    ensures index < cursor && Resumes(text, modes, cursor) && Plain(text, modes, index, cursor)
  {
    assert Step(text, modes, index);
    cursor := index + 1;
    while cursor < |text|
      invariant index < cursor <= |text| + 1
      invariant cursor <= |text| ==> modes[cursor] == Str
      invariant Plain(text, modes, index, cursor)
    {
      assert Step(text, modes, cursor);
      if text[cursor] == '\\' {
        assert cursor + 1 < |text| ==> Step(text, modes, cursor + 1);
        cursor := cursor + 2;
        continue;
      }
      if text[cursor] == '"' {
        cursor := cursor + 1;
        break;
      }
      cursor := cursor + 1;
    }
  }

  /** The character-literal branch: a quote that closes three or four characters on. */
  method SkipCharLiteral(text: string, ghost modes: seq<Mode>, index: nat) returns (end: nat)
    requires Run(text, modes) && At(text, index, '\'') && Resumes(text, modes, index)
    ensures index < end && Resumes(text, modes, end) && Plain(text, modes, index, end)
  {
    assert Step(text, modes, index);
    if At(text, index + 2, '\'') {
      CharTailModes(text, modes, index + 1, 2);
      end := index + 3;
    } else if At(text, index + 3, '\'') {
      CharTailModes(text, modes, index + 1, 3);
      end := index + 4;
    } else {
      end := index + 1;
    }
  }

  /** The source's scanner. */
  method MaskComments(text: string) returns (masked: string)
    ensures masked == Masked(text)
  {
    ghost var modes := Lex(text);
    LexRuns(text);
    var chars := new char[|text|](i requires 0 <= i < |text| => text[i]);
    var index := 0;
    while index < |text|
      invariant 0 <= index
      invariant Scanned(chars, text, modes, index) && Resumes(text, modes, index)
    {
      ghost var from := index;
      if Pair(text, index, '/', '/') {
        index := BlankLineComment(text, modes, chars, index);
        continue;
      }
      if Pair(text, index, '/', '*') {
        index := BlankBlockComment(text, modes, chars, index);
        continue;
      }
      var raw, end := SkipRawString(text, modes, index);
      if raw {
        index := end;
      } else if text[index] == '"' {
        index := SkipString(text, modes, index);
      } else if text[index] == '\'' {
        index := SkipCharLiteral(text, modes, index);
      } else {
        assert Step(text, modes, index);
        index := index + 1;
      }
      ScannedOn(chars, text, modes, from, index);
    }
    masked := chars[..];
    MaskedIsMask(text);
    MaskIsUnique(text, modes, masked, Masked(text));
  }

  lemma MaskIsUnique(text: string, modes: seq<Mode>, a: string, b: string)
    requires IsMask(text, modes, a) && IsMask(text, modes, b)
    ensures a == b
  {
    forall i | 0 <= i < |text| ensures a[i] == b[i] {
      assert MaskedAt(text, modes, a, i) && MaskedAt(text, modes, b, i);
    }
  }

  // ----- masking twice ------------------------------------------------------------

  /** `masked` is `text` with some characters, never a newline, turned into spaces. */
  ghost predicate Blanks(text: string, masked: string) {
    && |masked| == |text|
    && forall i :: 0 <= i < |text| ==> masked[i] == text[i] || (masked[i] == ' ' && text[i] != '\n')
  }

  lemma MaskedBlanks(text: string)
    ensures Blanks(text, Masked(text))
  {
    MaskedIsMask(text);
    forall i | 0 <= i < |text|
      ensures Masked(text)[i] == text[i] || (Masked(text)[i] == ' ' && text[i] != '\n')
    {
      assert MaskedAt(text, Lex(text), Masked(text), i);
    }
  }

  /** How a comment mode reads once the comment is blank. */
  function Erase(mode: Mode): Mode {
    if mode.LineComment? || mode.BlockComment? || mode.BlockDelimiter? then Code else mode
  }

  lemma {:induction false} HashesEndScans(text: string, i: nat)
    ensures i <= HashesEnd(text, i) && !At(text, HashesEnd(text, i), '#')
    ensures forall k :: i <= k < HashesEnd(text, i) ==> At(text, k, '#')
    decreases |text| - i
  {
    if At(text, i, '#') { HashesEndScans(text, i + 1); }
  }

  /** Texts that agree on a raw-string header open the same raw string. */
  lemma SameHead(text: string, other: string, i: nat, quote: nat)
    requires |text| == |other| && RawOpens(text, i) && quote == HashesEnd(text, RawHashStart(text, i))
    requires forall k :: i <= k <= quote ==> other[k] == text[k]
    ensures RawOpens(other, i)
  {
    HashesEndScans(text, RawHashStart(text, i));
    assert RawHashStart(other, i) == RawHashStart(text, i);
    forall k | RawHashStart(text, i) <= k < quote ensures At(other, k, '#') {
      assert At(text, k, '#');
    }
    HashesEndIs(other, RawHashStart(text, i), quote);
  }

  /** Blanking neither creates nor destroys a raw-string opener in code. */
  lemma RawOpensKept(text: string, modes: seq<Mode>, masked: string, i: nat)
    requires Run(text, modes) && IsMask(text, modes, masked)
    requires i < |text| && modes[i] == Code && !InComment(text, i, Code)
    ensures RawOpens(masked, i) == RawOpens(text, i)
  {
    assert MaskedAt(text, modes, masked, i) && Step(text, modes, i);
    if RawOpens(text, i) {
      var start := RawHashStart(text, i);
      HashesEndScans(text, start);
      RawHeadModes(text, modes, i, HashesEnd(text, start) - start);
      forall k | i <= k <= HashesEnd(text, start) ensures masked[k] == text[k] {
        assert MaskedAt(text, modes, masked, k);
      }
      SameHead(text, masked, i, HashesEnd(text, start));
    } else if RawOpens(masked, i) {
      var start := RawHashStart(masked, i);
      HashesEndScans(masked, start);
      forall k | i <= k <= HashesEnd(masked, start) ensures masked[k] == text[k] {
        assert MaskedAt(text, modes, masked, k);
        assert k < start || k == HashesEnd(masked, start) || At(masked, k, '#');
        assert masked[k] != ' ';
      }
      SameHead(masked, text, i, HashesEnd(masked, start));
    }
  }

  /** Blanking does not move the end of a character literal. */
  lemma CharLiteralKept(text: string, modes: seq<Mode>, masked: string, i: nat)
    requires Run(text, modes) && IsMask(text, modes, masked) && At(text, i, '\'') && modes[i] == Code
    ensures At(masked, i + 2, '\'') == At(text, i + 2, '\'')
    ensures !At(text, i + 2, '\'') ==> At(masked, i + 3, '\'') == At(text, i + 3, '\'')
  {
    assert Step(text, modes, i);
    assert i + 2 < |text| ==> MaskedAt(text, modes, masked, i + 2);
    assert i + 3 < |text| ==> MaskedAt(text, modes, masked, i + 3);
    if At(text, i + 2, '\'') {
      CharTailModes(text, modes, i + 1, 2);
    } else if At(text, i + 3, '\'') {
      CharTailModes(text, modes, i + 1, 3);
    }
  }

  lemma PlainCodeStep(text: string, modes: seq<Mode>, masked: string, i: nat)
    requires Run(text, modes) && IsMask(text, modes, masked)
    requires i < |text| && modes[i] == Code && !InComment(text, i, Code)
    ensures NextInCode(masked, i) == NextInCode(text, i)
  {
    assert MaskedAt(text, modes, masked, i);
    assert i + 1 < |text| ==> MaskedAt(text, modes, masked, i + 1);
    RawOpensKept(text, modes, masked, i);
    if text[i] == '\'' { CharLiteralKept(text, modes, masked, i); }
  }

  /** The lexer of the masked text walks in step with the lexer of the text. */
  lemma ErasedStep(text: string, modes: seq<Mode>, masked: string, i: nat)
    requires Run(text, modes) && IsMask(text, modes, masked) && i < |text|
    ensures Next(masked, i, Erase(modes[i])) == Erase(modes[i + 1])
  {
    assert MaskedAt(text, modes, masked, i) && Step(text, modes, i);
    if modes[i] == Code && !InComment(text, i, Code) {
      PlainCodeStep(text, modes, masked, i);
    }
  }

  lemma {:induction false} ErasedRun(text: string, modes: seq<Mode>, masked: string, modes': seq<Mode>, i: nat)
    requires Run(text, modes) && IsMask(text, modes, masked) && Run(masked, modes') && i <= |text|
    ensures modes'[i] == Erase(modes[i])
  {
    if i > 0 {
      ErasedRun(text, modes, masked, modes', i - 1);
      ErasedStep(text, modes, masked, i - 1);
      assert Step(masked, modes', i - 1);
    }
  }

  /** A masked text has no comment left. */
  lemma MaskedHasNoComment(text: string, i: nat)
    requires i < |text|
    ensures !IsComment(Masked(text), i)
  {
    LexRuns(text);
    LexRuns(Masked(text));
    MaskedIsMask(text);
    ErasedRun(text, Lex(text), Masked(text), Lex(Masked(text)), i);
    assert MaskedAt(text, Lex(text), Masked(text), i);
    assert i + 1 < |text| ==> MaskedAt(text, Lex(text), Masked(text), i + 1);
  }

  /** Masking is idempotent, for every text. */
  lemma MaskIdempotent(text: string)
    ensures Masked(Masked(text)) == Masked(text)
  {
    forall i | 0 <= i < |text| ensures Masked(Masked(text))[i] == Masked(text)[i] {
      MaskedHasNoComment(text, i);
    }
  }
}
