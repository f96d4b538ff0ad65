/** The string-literal masker of `ditto_screener/source_signals.py`, and its
    composition with the comment masker into line-aligned views of one file. */
module StringMask {
  import opened CommentMask

  // ----- the reference automaton ------------------------------------------------

  datatype Quoting =
    | Outside
    | Opening(quote: char, left: nat)   // inside a triple delimiter that opens
    | Inside(quote: char, width: nat, escaped: bool)
    | Closing(left: nat)                // inside a triple delimiter that closes

  predicate IsQuote(c: char) {
    c == '"' || c == '\'' || c == '`'
  }

  predicate Triple(text: string, i: nat, c: char) {
    At(text, i, c) && At(text, i + 1, c) && At(text, i + 2, c)
  }

  function NextQuoting(text: string, i: nat, q: Quoting): Quoting
    requires i < |text|
  {
    match q
    case Outside =>
      if !IsQuote(text[i]) then Outside
      else if text[i] != '`' && Triple(text, i, text[i]) then Opening(text[i], 2)
      else Inside(text[i], 1, false)
    case Opening(quote, left) => if left <= 1 then Inside(quote, 3, false) else Opening(quote, left - 1)
    case Inside(quote, width, escaped) =>
      if width == 3 then (if Triple(text, i, quote) then Closing(2) else q)
      else if escaped then Inside(quote, width, false)
      else if text[i] == '\\' && quote != '`' then Inside(quote, width, true)
      else if text[i] == quote then Outside
      else q
    case Closing(left) => if left <= 1 then Outside else Closing(left - 1)
  }

  predicate InLiteral(text: string, i: nat, q: Quoting)
    requires i < |text|
  {
    (q == Outside ==> IsQuote(text[i])) && text[i] != '\n' && text[i] != '\r'
  }

  function QuotePrefix(text: string, n: nat): (states: seq<Quoting>)
    requires n <= |text|
    ensures |states| == n + 1
  {
    if n == 0 then [Outside] else
      var before := QuotePrefix(text, n - 1);
      before + [NextQuoting(text, n - 1, before[n - 1])]
  }

  function Quotings(text: string): (states: seq<Quoting>)
    ensures |states| == |text| + 1
  {
    QuotePrefix(text, |text|)
  }

  /** Literals, delimiters included, turned into spaces; line breaks kept. */
  function Unquoted(text: string): (masked: string)
    ensures |masked| == |text|
  {
    seq(|text|, i requires 0 <= i < |text| => if InLiteral(text, i, Quotings(text)[i]) then ' ' else text[i])
  }

  // ----- runs, one character at a time ------------------------------------------

  ghost predicate QuoteStep(text: string, states: seq<Quoting>, i: nat) {
    i < |text| && i + 1 < |states| && states[i + 1] == NextQuoting(text, i, states[i])
  }

  ghost predicate QuoteRun(text: string, states: seq<Quoting>) {
    && |states| == |text| + 1 && states[0] == Outside
    && forall i :: 0 <= i < |text| ==> QuoteStep(text, states, i)
  }

  ghost predicate UnquotedAt(text: string, states: seq<Quoting>, masked: seq<char>, i: nat) {
    && i < |text| && i < |states| && i < |masked|
    && masked[i] == if InLiteral(text, i, states[i]) then ' ' else text[i]
  }

  ghost predicate UnquotedUpTo(text: string, states: seq<Quoting>, masked: seq<char>, upto: nat) {
    && |masked| == |text|
    && (forall k :: 0 <= k < upto && k < |text| ==> UnquotedAt(text, states, masked, k))
    && (forall k :: upto <= k < |text| ==> masked[k] == text[k])
  }

  lemma {:induction false} QuotePrefixRuns(text: string, n: nat, i: nat)
    requires i < n <= |text|
    ensures QuotePrefix(text, n)[0] == Outside && QuoteStep(text, QuotePrefix(text, n), i)
  {
    if i < n - 1 {
      QuotePrefixRuns(text, n - 1, i);
    } else if i > 0 {
      QuotePrefixRuns(text, n - 1, i - 1);
    }
  }

  lemma QuotingsRun(text: string)
    ensures QuoteRun(text, Quotings(text))
  {
    if |text| > 0 { QuotePrefixRuns(text, |text|, 0); }
    forall i | 0 <= i < |text| ensures QuoteStep(text, Quotings(text), i) {
      QuotePrefixRuns(text, |text|, i);
    }
  }

  lemma UnquotedIs(text: string, masked: string)
    requires UnquotedUpTo(text, Quotings(text), masked, |text|)
    ensures masked == Unquoted(text)
  {
    forall i | 0 <= i < |text| ensures masked[i] == Unquoted(text)[i] {
      assert UnquotedAt(text, Quotings(text), masked, i);
    }
  }

  // ----- the source's scanner -----------------------------------------------------

  /** Blanks one character of a literal that the automaton has just reached. */
  method BlankQuoted(text: string, ghost states: seq<Quoting>, chars: array<char>, index: nat)
    requires QuoteRun(text, states) && index < |text| && UnquotedUpTo(text, states, chars[..], index)
    requires InLiteral(text, index, states[index])
    modifies chars
    ensures UnquotedUpTo(text, states, chars[..], index + 1)
  {
    ghost var before := chars[..];
    chars[index] := ' ';
    forall k | 0 <= k < index + 1 ensures UnquotedAt(text, states, chars[..], k) {
      if k < index {
        assert UnquotedAt(text, states, before, k) && chars[..][k] == before[k];
      }
    }
  }

  lemma KeepsCharacter(text: string, states: seq<Quoting>, masked: seq<char>, index: nat)
    requires QuoteRun(text, states) && index < |text| && UnquotedUpTo(text, states, masked, index)
    requires !InLiteral(text, index, states[index])
    ensures UnquotedUpTo(text, states, masked, index + 1)
  {
    assert UnquotedAt(text, states, masked, index);
  }

  /** The three quote characters of a triple delimiter, from the middle one on. */
  lemma TripleSteps(text: string, states: seq<Quoting>, index: nat)
    requires QuoteRun(text, states) && index < |text|
    requires IsQuote(text[index]) && Triple(text, index, text[index])
    requires states[index + 1] == Closing(2) || states[index + 1] == Opening(text[index], 2)
    ensures InLiteral(text, index + 1, states[index + 1]) && InLiteral(text, index + 2, states[index + 2])
    ensures states[index + 3] == if states[index + 1].Closing? then Outside else Inside(text[index], 3, false)
  {
    assert QuoteStep(text, states, index + 1) && QuoteStep(text, states, index + 2);
  }

  method BlankTriple(text: string, ghost states: seq<Quoting>, chars: array<char>, index: nat)
    requires QuoteRun(text, states) && index < |text| && UnquotedUpTo(text, states, chars[..], index)
    requires IsQuote(text[index]) && Triple(text, index, text[index])
    requires states[index + 1] == Closing(2) || states[index + 1] == Opening(text[index], 2)
    modifies chars
    ensures UnquotedUpTo(text, states, chars[..], index + 3)
  {
    TripleSteps(text, states, index);
    BlankQuoted(text, states, chars, index);
    BlankQuoted(text, states, chars, index + 1);
    BlankQuoted(text, states, chars, index + 2);
  }

  method MaskStringLiterals(text: string) returns (masked: string)
    ensures masked == Unquoted(text)
  {
    ghost var states := Quotings(text);
    QuotingsRun(text);
    var chars := new char[|text|](i requires 0 <= i < |text| => text[i]);
    assert chars[..] == text;
    var index, quote, quoteWidth, escaped := 0, ' ', 0, false;
    var quoted := false;
    while index < |text|
      invariant 0 <= index <= |text| && chars.Length == |text|
      invariant states[index] == if quoted then Inside(quote, quoteWidth, escaped) else Outside
      invariant quoted ==> IsQuote(quote) && (quoteWidth == 1 || (quoteWidth == 3 && !escaped))
      invariant UnquotedUpTo(text, states, chars[..], index)
    {
      assert QuoteStep(text, states, index);
      var c := text[index];
      if !quoted {
        if IsQuote(c) {
          quoted, quote := true, c;
          quoteWidth := if c != '`' && Triple(text, index, c) then 3 else 1;
          if quoteWidth == 3 {
            TripleSteps(text, states, index);
            BlankTriple(text, states, chars, index);
          } else {
            BlankQuoted(text, states, chars, index);
          }
          index := index + quoteWidth;
          escaped := false;
          continue;
        }
        KeepsCharacter(text, states, chars[..], index);
        index := index + 1;
        continue;
      }
      if quoteWidth == 3 && Triple(text, index, quote) {
        TripleSteps(text, states, index);
        BlankTriple(text, states, chars, index);
        quoted, quoteWidth, escaped := false, 0, false;
        index := index + 3;
        continue;
      }
      if c != '\r' && c != '\n' {
        BlankQuoted(text, states, chars, index);
      } else {
        KeepsCharacter(text, states, chars[..], index);
      }
      if escaped {
        escaped := false;
      } else if c == '\\' && quote != '`' && quoteWidth == 1 {
        escaped := true;
      } else if quoteWidth == 1 && c == quote {
        quoted, quoteWidth := false, 0;
      }
      index := index + 1;
    }
    masked := chars[..];
    UnquotedIs(text, masked);
  }

  // ----- what the string mask keeps -------------------------------------------------

  lemma UnquotedBlanks(text: string)
    ensures Blanks(text, Unquoted(text))
  {
  }

  /** No quote character survives, wherever the automaton stood. */
  lemma UnquotedHasNoQuote(text: string, i: nat)
    requires i < |text|
    ensures !IsQuote(Unquoted(text)[i])
  {
  }

  lemma {:induction false} QuoteFreeStaysOutside(text: string, n: nat)
    requires n <= |text| && forall i :: 0 <= i < |text| ==> !IsQuote(text[i])
    ensures QuotePrefix(text, n)[n] == Outside
    ensures forall i :: 0 <= i <= n ==> QuotePrefix(text, n)[i] == Outside
  {
    if n > 0 { QuoteFreeStaysOutside(text, n - 1); }
  }

  lemma UnquotedIdempotent(text: string)
    ensures Unquoted(Unquoted(text)) == Unquoted(text)
  {
    forall i | 0 <= i < |text| ensures !IsQuote(Unquoted(text)[i]) { UnquotedHasNoQuote(text, i); }
    QuoteFreeStaysOutside(Unquoted(text), |text|);
  }

  // ----- the views of one file --------------------------------------------------------

  function LineEnd(text: string, i: nat): (end: nat)
    requires i <= |text|
    ensures i <= end <= |text|
    decreases |text| - i
  {
    if i < |text| && text[i] != '\n' then LineEnd(text, i + 1) else i
  }

  /** `text.splitlines()`, with no line for an empty rest. */
  function Lines(text: string): seq<string>
    decreases |text|
  {
    if text == [] then []
    else
      var end := LineEnd(text, 0);
      [text[..end]] + if end == |text| then [] else Lines(text[end + 1..])
  }

  /** `"\n".join(lines)`. */
  function JoinedLines(lines: seq<string>): string {
    if lines == [] then "" else if |lines| == 1 then lines[0] else lines[0] + "\n" + JoinedLines(lines[1..])
  }

  /** Extends the list with empty lines up to `count`. */
  function Padded(lines: seq<string>, count: nat): seq<string> {
    lines + seq(if count > |lines| then count - |lines| else 0, _ => "")
  }

  ghost predicate LineBlanks(lines: seq<string>, masked: seq<string>) {
    |masked| == |lines| && forall k :: 0 <= k < |lines| ==> Blanks(lines[k], masked[k])
  }

  lemma {:induction false} SameLineEnd(text: string, masked: string, i: nat)
    requires Blanks(text, masked) && i <= |text|
    ensures LineEnd(masked, i) == LineEnd(text, i)
    decreases |text| - i
  {
    if i < |text| && text[i] != '\n' { SameLineEnd(text, masked, i + 1); }
  }

  /** Blanking keeps every line in place and blanks it. */
  lemma {:induction false} BlanksKeepLines(text: string, masked: string)
    requires Blanks(text, masked)
    ensures LineBlanks(Lines(text), Lines(masked))
    decreases |text|
  {
    if text != [] {
      var end := LineEnd(text, 0);
      SameLineEnd(text, masked, 0);
      assert Blanks(text[..end], masked[..end]);
      if end < |text| {
        BlanksKeepLines(text[end + 1..], masked[end + 1..]);
        var rest, rest' := Lines(text[end + 1..]), Lines(masked[end + 1..]);
        assert Lines(text) == [text[..end]] + rest && Lines(masked) == [masked[..end]] + rest';
      }
    }
  }

  ghost predicate NoBreaks(lines: seq<string>) {
    forall k, i :: 0 <= k < |lines| && 0 <= i < |lines[k]| ==> lines[k][i] != '\n'
  }

  lemma {:induction false} LineEndStops(text: string, i: nat)
    requires i <= |text|
    ensures forall k :: i <= k < LineEnd(text, i) ==> text[k] != '\n'
    ensures LineEnd(text, i) < |text| ==> text[LineEnd(text, i)] == '\n'
    decreases |text| - i
  {
    if i < |text| && text[i] != '\n' { LineEndStops(text, i + 1); }
  }

  lemma {:induction false} LineEndIs(text: string, i: nat, end: nat)
    requires i <= end <= |text| && (forall k :: i <= k < end ==> text[k] != '\n')
    requires end < |text| ==> text[end] == '\n'
    ensures LineEnd(text, i) == end
    decreases end - i
  {
    if i < end { LineEndIs(text, i + 1, end); }
  }

  lemma {:induction false} LinesHaveNoBreaks(text: string)
    ensures NoBreaks(Lines(text))
    decreases |text|
  {
    if text != [] {
      LineEndStops(text, 0);
      if LineEnd(text, 0) < |text| { LinesHaveNoBreaks(text[LineEnd(text, 0) + 1..]); }
    }
  }

  lemma SplitFirst(line: string, rest: string)
    requires forall i :: 0 <= i < |line| ==> line[i] != '\n'
    ensures Lines(line + "\n" + rest) == [line] + Lines(rest)
  {
    var text := line + "\n" + rest;
    LineEndIs(text, 0, |line|);
    assert text[..|line|] == line && text[|line| + 1..] == rest;
  }

  lemma SplitOnly(line: string)
    requires forall i :: 0 <= i < |line| ==> line[i] != '\n'
    ensures Lines(line) == if line == "" then [] else [line]
  {
    LineEndIs(line, 0, |line|);
    assert line[..|line|] == line;
  }

  lemma NoLines()
    ensures Lines("") == []
  {
  }

  /** Splitting a join drops one trailing empty line and nothing else. */
  lemma {:induction false} SplitOfJoin(lines: seq<string>)
    requires NoBreaks(lines)
    ensures Lines(JoinedLines(lines)) ==
      if lines != [] && lines[|lines| - 1] == "" then lines[..|lines| - 1] else lines
    decreases |lines|
  {
    hide Lines;
    if lines == [] {
      NoLines();
    } else {
      assert forall i :: 0 <= i < |lines[0]| ==> lines[0][i] != '\n';
      if |lines| > 1 {
        var rest := lines[1..];
        SplitFirst(lines[0], JoinedLines(rest));
        SplitOfJoin(rest);
        assert lines == [lines[0]] + rest && lines[|lines| - 1] == rest[|rest| - 1];
        assert lines[..|lines| - 1] == [lines[0]] + rest[..|rest| - 1];
      } else {
        SplitOnly(lines[0]);
      }
    }
  }

  /** Where the line `k` starts in the text that the lines are joined to. */
  function Offset(lines: seq<string>, k: nat): nat
    requires k <= |lines|
  {
    if k == 0 then 0 else Offset(lines, k - 1) + |lines[k - 1]| + 1
  }

  lemma {:induction false} OffsetOfRest(lines: seq<string>, k: nat)
    requires 0 < k <= |lines|
    ensures Offset(lines, k) == |lines[0]| + 1 + Offset(lines[1..], k - 1)
  {
    if k > 1 { OffsetOfRest(lines, k - 1); }
  }

  lemma {:induction false} SameOffset(lines: seq<string>, other: seq<string>, k: nat)
    requires k <= |lines| && k <= |other| && forall j :: 0 <= j < k ==> |lines[j]| == |other[j]|
    ensures Offset(lines, k) == Offset(other, k)
  {
    if k > 0 { SameOffset(lines, other, k - 1); }
  }

  function Unended(text: string): string {
    if text != "" && text[|text| - 1] == '\n' then text[..|text| - 1] else text
  }

  lemma JoinFirst(line: string, lines: seq<string>)
    requires lines != []
    ensures JoinedLines([line] + lines) == line + "\n" + JoinedLines(lines)
  {
    assert ([line] + lines)[1..] == lines;
  }

  lemma UnendedRest(line: string, rest: string)
    requires rest != ""
    ensures Unended(line + "\n" + rest) == line + "\n" + Unended(rest)
  {
    var text := line + "\n" + rest;
    assert text[|text| - 1] == rest[|rest| - 1];
  }

  /** The text is its lines joined, but for a newline at its end. */
  lemma {:induction false} JoinOfSplit(text: string)
    ensures JoinedLines(Lines(text)) == Unended(text)
    decreases |text|
  {
    if text != "" {
      var end := LineEnd(text, 0);
      LineEndStops(text, 0);
      hide LineEnd;
      if end == |text| {
        assert text[..end] == text;
      } else {
        var line, rest := text[..end], text[end + 1..];
        assert text == line + "\n" + rest;
        assert Lines(text) == [line] + Lines(rest);
        hide Lines;
        JoinOfSplit(rest);
        if rest == "" { JoinOnly(line); } else { SomeLine(rest); JoinFirst(line, Lines(rest)); UnendedRest(line, rest); }
      }
    }
  }

  lemma JoinOnly(line: string)
    ensures JoinedLines([line] + Lines("")) == line && Unended(line + "\n" + "") == line
  {
    assert (line + "\n" + "")[..|line|] == line;
  }

  lemma SomeLine(text: string)
    requires text != ""
    ensures Lines(text) != []
  {
  }

  /** A character of a line, in the join. */
  lemma {:induction false} LineInJoin(lines: seq<string>, k: nat, i: nat)
    requires k < |lines| && i < |lines[k]|
    ensures var at := Offset(lines, k) + i;
      at < |JoinedLines(lines)| && JoinedLines(lines)[at] == lines[k][i]
    decreases |lines|
  {
    if k > 0 {
      OffsetOfRest(lines, k);
      LineInJoin(lines[1..], k - 1, i);
    }
  }

  /** A character of a line, in the text. */
  lemma LineInText(text: string, k: nat, i: nat)
    requires k < |Lines(text)| && i < |Lines(text)[k]|
    ensures var at := Offset(Lines(text), k) + i;
      at < |text| && text[at] == Lines(text)[k][i]
  {
    hide Lines;
    LineInJoin(Lines(text), k, i);
    JoinOfSplit(text);
  }

  predicate IsLiteral(text: string, i: nat)
    requires i < |text|
  {
    InLiteral(text, i, Quotings(text)[i])
  }

  /** The `i`th character of line `k` is the text's, and blank in the mask if it is comment. */
  ghost predicate CommentMaskedAt(text: string, lines: seq<string>, masked: seq<string>, k: nat, i: nat)
    requires k < |lines| && k < |masked| && i < |lines[k]|
  {
    var at := Offset(lines, k) + i;
    && |masked[k]| == |lines[k]| && at < |text| && lines[k][i] == text[at]
    && masked[k][i] == if IsComment(text, at) then ' ' else lines[k][i]
  }

  /** The `i`th character of line `k` is blank in the mask if it is literal in the joined lines. */
  ghost predicate LiteralMaskedAt(lines: seq<string>, masked: seq<string>, k: nat, i: nat)
    requires k < |lines| && k < |masked| && i < |lines[k]|
  {
    var at := Offset(lines, k) + i;
    && |masked[k]| == |lines[k]| && at < |JoinedLines(lines)| && lines[k][i] == JoinedLines(lines)[at]
    && masked[k][i] == if IsLiteral(JoinedLines(lines), at) then ' ' else lines[k][i]
  }

  /** Line by line, exactly the comment characters of the text are blank. */
  ghost predicate IsCommentMasked(text: string, lines: seq<string>, masked: seq<string>) {
    && |masked| == |lines|
    && forall k, i :: 0 <= k < |lines| && 0 <= i < |lines[k]| ==> CommentMaskedAt(text, lines, masked, k, i)
  }

  /** Line by line, exactly the literal characters of the joined lines are blank. */
  ghost predicate IsLiteralMasked(lines: seq<string>, masked: seq<string>) {
    && |masked| == |lines|
    && forall k, i :: 0 <= k < |lines| && 0 <= i < |lines[k]| ==> LiteralMaskedAt(lines, masked, k, i)
  }

  lemma SplitKeepsLengths(text: string, masked: string)
    requires Blanks(text, masked)
    ensures |Lines(masked)| == |Lines(text)|
    ensures forall k :: 0 <= k < |Lines(text)| ==> |Lines(masked)[k]| == |Lines(text)[k]|
    ensures forall k :: 0 <= k < |Lines(text)| ==> Offset(Lines(masked), k) == Offset(Lines(text), k)
  {
    BlanksKeepLines(text, masked);
    hide Lines;
    forall k | 0 <= k < |Lines(text)|
      ensures |Lines(masked)[k]| == |Lines(text)[k]| && Offset(Lines(masked), k) == Offset(Lines(text), k)
    {
      assert forall j :: 0 <= j <= k ==> Blanks(Lines(text)[j], Lines(masked)[j]);
      SameOffset(Lines(text), Lines(masked), k);
    }
  }

  lemma CommentIsMasked(text: string, k: nat, i: nat)
    requires |Lines(Masked(text))| == |Lines(text)| && k < |Lines(text)| && i < |Lines(text)[k]|
    requires |Lines(Masked(text))[k]| == |Lines(text)[k]|
    requires Offset(Lines(Masked(text)), k) == Offset(Lines(text), k) && NoBreaks(Lines(text))
    ensures CommentMaskedAt(text, Lines(text), Lines(Masked(text)), k, i)
  {
    hide Lines, IsComment, Offset;
    assert Lines(text)[k][i] != '\n';
    LineInText(text, k, i);
    LineInText(Masked(text), k, i);
  }

  lemma CommentsAreMasked(text: string)
    ensures IsCommentMasked(text, Lines(text), Lines(Masked(text)))
  {
    hide Lines, Masked, Offset, NoBreaks, CommentMaskedAt;
    MaskedBlanks(text);
    SplitKeepsLengths(text, Masked(text));
    LinesHaveNoBreaks(text);
    forall k, i | 0 <= k < |Lines(text)| && 0 <= i < |Lines(text)[k]|
      ensures CommentMaskedAt(text, Lines(text), Lines(Masked(text)), k, i)
    {
      CommentIsMasked(text, k, i);
    }
  }

  lemma LiteralIsMasked(lines: seq<string>, split: seq<string>, k: nat, i: nat)
    requires split == Lines(Unquoted(JoinedLines(lines))) && k < |lines| && i < |lines[k]|
    requires k < |split| && |split[k]| == |lines[k]| && Offset(split, k) == Offset(lines, k)
    ensures LiteralMaskedAt(lines, Padded(split, |lines|), k, i)
  {
    hide Lines, InLiteral, Quotings, JoinedLines, Offset;
    LineInJoin(lines, k, i);
    LineInText(Unquoted(JoinedLines(lines)), k, i);
    assert Padded(split, |lines|)[k] == split[k];
  }

  lemma LiteralsAreMasked(lines: seq<string>)
    requires NoBreaks(lines)
    ensures IsLiteralMasked(lines, Padded(Lines(Unquoted(JoinedLines(lines))), |lines|))
  {
    hide Lines, Unquoted, Offset, NoBreaks, LiteralMaskedAt, JoinedLines;
    var joined := JoinedLines(lines);
    var split := Lines(Unquoted(joined));
    SplitOfJoin(lines);
    UnquotedBlanks(joined);
    SplitKeepsLengths(joined, Unquoted(joined));
    forall k, i | 0 <= k < |lines| && 0 <= i < |lines[k]|
      ensures LiteralMaskedAt(lines, Padded(split, |lines|), k, i)
    {
      assert k < |Lines(joined)| && forall j :: 0 <= j <= k ==> Lines(joined)[j] == lines[j];
      SameOffset(lines, Lines(joined), k);
      LiteralIsMasked(lines, split, k, i);
    }
  }

  lemma CommentViewIsMasked(text: string)
    ensures var masked := Lines(Masked(text));
      IsCommentMasked(text, Lines(text), masked) && LineBlanks(Lines(text), masked) && NoBreaks(masked)
  {
    CommentsAreMasked(text);
    MaskedBlanks(text);
    BlanksKeepLines(text, Masked(text));
    LinesHaveNoBreaks(Masked(text));
  }

  lemma LiteralViewIsMasked(lines: seq<string>)
    requires NoBreaks(lines)
    ensures var masked := Padded(Lines(Unquoted(JoinedLines(lines))), |lines|);
      && IsLiteralMasked(lines, masked) && LineBlanks(lines, masked)
      && forall k, i :: 0 <= k < |masked| && 0 <= i < |masked[k]| ==> !IsQuote(masked[k][i])
  {
    hide IsLiteralMasked, LineBlanks, Lines, JoinedLines, NoBreaks, Unquoted, IsQuote;
    var joined := JoinedLines(lines);
    var masked := Unquoted(joined);
    LiteralsAreMasked(lines);
    SplitOfJoin(lines);
    UnquotedBlanks(joined);
    BlanksKeepLines(joined, masked);
    AlignedAfterPadding(lines, Lines(joined), Lines(masked));
    forall i | 0 <= i < |masked| ensures !IsQuote(masked[i]) { UnquotedHasNoQuote(joined, i); }
    LinesAreQuoteFree(masked);
  }

  /** The raw lines, the lines without comments and the lines without comments and
      literals that the decisive rules read side by side. */
  method SourceViews(text: string) returns (lines: seq<string>, commentMasked: seq<string>, executable: seq<string>)
    ensures lines == Lines(text) && IsCommentMasked(text, lines, commentMasked) && IsLiteralMasked(commentMasked, executable)
    ensures LineBlanks(lines, commentMasked) && LineBlanks(commentMasked, executable)
    ensures forall k, i :: 0 <= k < |executable| && 0 <= i < |executable[k]| ==> !IsQuote(executable[k][i])
  {
    hide IsCommentMasked, IsLiteralMasked, NoBreaks, Unquoted, Masked, Lines, JoinedLines, IsQuote;
    lines := Lines(text);
    CommentViewIsMasked(text);
    var withoutComments := MaskComments(text);
    commentMasked := Padded(Lines(withoutComments), |lines|);
    assert commentMasked == Lines(withoutComments);
    LiteralViewIsMasked(commentMasked);
    var masked := MaskStringLiterals(JoinedLines(commentMasked));
    executable := Padded(Lines(masked), |lines|);
  }

  lemma AlignedAfterPadding(lines: seq<string>, split: seq<string>, masked: seq<string>)
    requires split == if lines != [] && lines[|lines| - 1] == "" then lines[..|lines| - 1] else lines
    requires LineBlanks(split, masked)
    ensures LineBlanks(lines, Padded(masked, |lines|))
  {
    forall k | 0 <= k < |lines| ensures Blanks(lines[k], Padded(masked, |lines|)[k]) {
      assert k < |split| ==> Blanks(split[k], masked[k]);
    }
  }

  lemma {:induction false} LinesAreQuoteFree(text: string)
    requires forall i :: 0 <= i < |text| ==> !IsQuote(text[i])
    ensures forall k, i :: 0 <= k < |Lines(text)| && 0 <= i < |Lines(text)[k]| ==> !IsQuote(Lines(text)[k][i])
    decreases |text|
  {
    if text != [] && LineEnd(text, 0) < |text| {
      LinesAreQuoteFree(text[LineEnd(text, 0) + 1..]);
    }
  }
}
