/** The chunked body reader of `ditto_screener/fake_gateway.py`, against the chunked
    coding of section 7.1 of RFC 9112. */
module ChunkedBody {
  import opened Options
  import opened Bytes

  const MAX_BODY_BYTES := 1024 * 1024
  /** `asyncio`'s default bound on how far into its buffer a separator may start. */
  const STREAM_LIMIT := 65536

  const CR: byte := 13
  const LF: byte := 10
  const SEMICOLON: byte := 59
  const UNDERSCORE: byte := 95
  const ZERO: byte := 48

  // ----- the stream ----------------------------------------------------------------------

  predicate IsBreak(data: seq<byte>, at: nat) {
    at + 1 < |data| && data[at] == CR && data[at + 1] == LF
  }

  /** Where the next CRLF starts; `|data|` when there is none. */
  function BreakFrom(data: seq<byte>, from: nat): nat
    decreases |data| - from
  {
    if from >= |data| then |data| else if IsBreak(data, from) then from else BreakFrom(data, from + 1)
  }

  /** The end of the line at `from`, or nothing when the stream ends or the line is too long. */
  function LineEnd(data: seq<byte>, from: nat): (end: Option<nat>)
    ensures end.Some? ==> from <= end.value && end.value + 2 <= |data|
  {
    var end := BreakFrom(data, from);
    BreakIsBreak(data, from);
    if IsBreak(data, end) && end - from <= STREAM_LIMIT then Some(end) else None
  }

  lemma {:induction false} BreakIsBreak(data: seq<byte>, from: nat)
    ensures from < |data| ==> from <= BreakFrom(data, from)
    ensures IsBreak(data, BreakFrom(data, from)) ==> from <= BreakFrom(data, from)
    decreases |data| - from
  {
    if from < |data| && !IsBreak(data, from) { BreakIsBreak(data, from + 1); }
  }

  class StreamReader {
    const data: seq<byte>
    var pos: nat

    constructor (data: seq<byte>)
      ensures this.data == data && pos == 0
    {
      this.data, pos := data, 0;
    }

    /** `readuntil(b"\r\n")`; the line comes without its break. */
    method ReadLine() returns (line: Option<seq<byte>>)
      modifies this
      ensures match LineEnd(data, old(pos))
        case None => line == None && pos == old(pos)
        case Some(end) => line == Some(data[old(pos)..end]) && pos == end + 2
    {
      var end := LineEnd(data, pos);
      if end.None? { return None; }
      line := Some(data[pos..end.value]);
      pos := end.value + 2;
    }

    /** `readexactly(n)`. */
    method ReadExactly(n: nat) returns (bytes: Option<seq<byte>>)
      modifies this
      ensures if old(pos) + n <= |data| then bytes == Some(data[old(pos)..old(pos) + n]) && pos == old(pos) + n
              else bytes == None && pos == old(pos)
    {
      if pos + n > |data| { return None; }
      bytes := Some(data[pos..pos + n]);
      pos := pos + n;
    }
  }

  // ----- the size line ---------------------------------------------------------------------

  predicate IsSpace(b: byte) {
    b == 32 || 9 <= b <= 13
  }

  function DigitValue(b: byte): Option<nat> {
    if 48 <= b <= 57 then Some(b - 48)
    else if 65 <= b <= 70 then Some(b - 55)
    else if 97 <= b <= 102 then Some(b - 87)
    else None
  }

  /** The digits and their values, in either case of the letters. */
  lemma DigitIff(b: byte, value: nat)
    ensures DigitValue(b) == Some(value) <==>
      value < 16 && (b as int == "0123456789abcdef"[value] as int || b as int == "0123456789ABCDEF"[value] as int)
  {
  }

  /** The digits from the `k`th byte on, with single underscores between digits. */
  function Digits(text: seq<byte>, k: nat, value: nat, digitBefore: bool): Option<nat>
    requires k <= |text|
    decreases |text| - k
  {
    if k == |text| then (if digitBefore then Some(value) else None)
    else if text[k] == UNDERSCORE && digitBefore then Digits(text, k + 1, value, false)
    else match DigitValue(text[k])
      case None => None
      case Some(digit) => Digits(text, k + 1, 16 * value + digit, true)
  }

  /** After the sign: an optional `0x`, which one underscore may follow. */
  function Magnitude(text: seq<byte>, k: nat): Option<nat>
    requires k <= |text|
  {
    if k + 1 < |text| && text[k] == ZERO && (text[k + 1] == 120 || text[k + 1] == 88) then
      Digits(text, if k + 2 < |text| && text[k + 2] == UNDERSCORE then k + 3 else k + 2, 0, false)
    else Digits(text, k, 0, false)
  }

  /** `int(text, 16)` on stripped bytes. */
  function Int16(text: seq<byte>): Option<int> {
    if text != [] && text[0] == 45 then
      match Magnitude(text, 1)
      case None => None
      case Some(value) => Some(-(value as int))
    else if text != [] && text[0] == 43 then Magnitude(text, 1)
    else Magnitude(text, 0)
  }

  function FirstSemicolon(line: seq<byte>, k: nat): (at: nat)
    requires k <= |line|
    ensures k <= at <= |line|
    decreases |line| - k
  {
    if k < |line| && line[k] != SEMICOLON then FirstSemicolon(line, k + 1) else k
  }

  /** The first byte in `[k, end)` that is not white space, or `end`. */
  function SkipSpaces(line: seq<byte>, k: nat, end: nat): (from: nat)
    requires k <= end <= |line|
    ensures k <= from <= end
    decreases end - k
  {
    if k < end && IsSpace(line[k]) then SkipSpaces(line, k + 1, end) else k
  }

  /** The end of `[k, end)` without its trailing white space. */
  function TrimSpaces(line: seq<byte>, k: nat, end: nat): (to: nat)
    requires k <= end <= |line|
    ensures k <= to <= end
    decreases end
  {
    if k < end && IsSpace(line[end - 1]) then TrimSpaces(line, k, end - 1) else end
  }

  /** What stands before the first semicolon, stripped of white space. */
  function SizeText(line: seq<byte>): seq<byte> {
    var from := SkipSpaces(line, 0, FirstSemicolon(line, 0));
    line[from..TrimSpaces(line, from, FirstSemicolon(line, 0))]
  }

  /** The size on a chunk's first line; nothing when it is missing, malformed or negative. */
  function SizeOf(line: seq<byte>): Option<nat> {
    var text := SizeText(line);
    if text == [] then None
    else match Int16(text)
      case None => None
      case Some(size) => if size < 0 then None else Some(size)
  }

  // ----- specification -----------------------------------------------------------------------

  datatype Outcome = Failed | Decoded(body: seq<byte>, end: nat)

  /** Lines up to and including the first empty one. */
  function Trailers(data: seq<byte>, pos: nat, body: seq<byte>): Outcome
    decreases |data| - pos
  {
    match LineEnd(data, pos)
    case None => Failed
    case Some(end) => if end == pos then Decoded(body, end + 2) else Trailers(data, end + 2, body)
  }

  /** The chunk at `pos`: unreadable, the last one, or its bytes and where it ends. */
  datatype Item = Bad | Last(after: nat) | Piece(bytes: seq<byte>, after: nat)

  function ChunkBytes(data: seq<byte>, start: nat, size: nat): Item {
    if start + size <= |data| && IsBreak(data, start + size)
    then Piece(data[start..start + size], start + size + 2)
    else Bad
  }

  function NextChunk(data: seq<byte>, pos: nat): (item: Item)
    ensures !item.Bad? ==> pos < item.after <= |data|
  {
    match LineEnd(data, pos)
    case None => Bad
    case Some(end) =>
      match SizeOf(data[pos..end])
      case None => Bad
      case Some(size) => if size == 0 then Last(end + 2) else ChunkBytes(data, end + 2, size)
  }

  function Decode(data: seq<byte>, pos: nat, body: seq<byte>): Outcome
    decreases |data| - pos
  {
    match NextChunk(data, pos)
    case Bad => Failed
    case Last(after) => Trailers(data, after, body)
    case Piece(bytes, after) =>
      if |body| + |bytes| > MAX_BODY_BYTES then Failed else Decode(data, after, body + bytes)
  }

  // ----- the source's loops -----------------------------------------------------------------

  method ReadTrailers(reader: StreamReader) returns (ok: bool)
    modifies reader
    ensures match Trailers(reader.data, old(reader.pos), [])
      case Failed => !ok
      case Decoded(_, end) => ok && reader.pos == end
  {
    while true
      invariant Trailers(reader.data, old(reader.pos), []) == Trailers(reader.data, reader.pos, [])
      decreases |reader.data| - reader.pos
    {
      var trailer := reader.ReadLine();
      if trailer.None? { return false; }
      if trailer.value == [] { return true; }
    }
  }

  lemma {:induction false} TrailersKeepBody(data: seq<byte>, pos: nat, body: seq<byte>)
    ensures Trailers(data, pos, body) ==
      match Trailers(data, pos, []) case Failed => Failed case Decoded(_, end) => Decoded(body, end)
    decreases |data| - pos
  {
    var end := LineEnd(data, pos);
    if end.Some? && end.value != pos { TrailersKeepBody(data, end.value + 2, body); }
  }

  /** One turn of the outer loop, up to the trailer section. `room` is what the body may
      still grow by; a larger chunk is refused before it is read. */
  method ReadChunk(reader: StreamReader, room: nat) returns (item: Item)
    modifies reader
    ensures match NextChunk(reader.data, old(reader.pos))
      case Bad => item == Bad
      case Last(after) => item == Last(after) && reader.pos == after
      case Piece(bytes, after) =>
        if |bytes| > room then item == Bad else item == Piece(bytes, after) && reader.pos == after
  {
    var line := reader.ReadLine();
    if line.None? { return Bad; }
    var size := SizeOf(line.value);
    if size.None? || size.value > room { return Bad; }
    if size.value == 0 { return Last(reader.pos); }
    var chunk := reader.ReadExactly(size.value);
    if chunk.None? { return Bad; }
    BreakAt(reader.data, reader.pos);
    var terminator := reader.ReadExactly(2);
    if terminator != Some([CR, LF]) { return Bad; }
    return Piece(chunk.value, reader.pos);
  }

  lemma BreakAt(data: seq<byte>, at: nat)
    ensures at + 2 <= |data| ==> (data[at..at + 2] == [CR, LF] <==> IsBreak(data, at))
  {
    if at + 2 <= |data| {
      assert data[at..at + 2][0] == data[at] && data[at..at + 2][1] == data[at + 1];
    }
  }

  method ReadChunkedBody(reader: StreamReader) returns (result: Option<seq<byte>>)
    modifies reader
    ensures match Decode(reader.data, old(reader.pos), [])
      case Failed => result == None
      case Decoded(body, end) => result == Some(body) && reader.pos == end
    ensures result.Some? ==> |result.value| <= MAX_BODY_BYTES
  {
    var body: seq<byte> := [];
    while true
      invariant Decode(reader.data, old(reader.pos), []) == Decode(reader.data, reader.pos, body)
      invariant |body| <= MAX_BODY_BYTES
      decreases |reader.data| - reader.pos
    {
      var item := ReadChunk(reader, MAX_BODY_BYTES - |body|);
      match item {
        case Bad => return None;
        case Last(after) =>
          TrailersKeepBody(reader.data, after, body);
          var ok := ReadTrailers(reader);
          return if ok then Some(body) else None;
        case Piece(bytes, _) => body := body + bytes;
      }
    }
  }

  // ----- the coding -----------------------------------------------------------------------------

  /** A chunk as section 7.1 of RFC 9112 writes it: hexadecimal size, extensions, bytes. */
  datatype Chunk = Chunk(size: seq<byte>, extension: seq<byte>, bytes: seq<byte>)

  predicate AllHex(text: seq<byte>) {
    text != [] && forall i :: 0 <= i < |text| ==> DigitValue(text[i]).Some?
  }

  function HexValue(text: seq<byte>, n: nat): nat
    requires n <= |text| && AllHex(text)
  {
    if n == 0 then 0 else 16 * HexValue(text, n - 1) + DigitValue(text[n - 1]).value
  }

  predicate NoCR(text: seq<byte>) {
    forall i :: 0 <= i < |text| ==> text[i] != CR
  }

  /** Empty, or a semicolon after optional white space, and then anything on the line. */
  predicate IsExtension(text: seq<byte>) {
    NoCR(text) && (text == [] || exists k :: 0 <= k < |text| && text[k] == SEMICOLON && Spaces(text, k))
  }

  predicate Spaces(text: seq<byte>, n: nat) {
    n <= |text| && forall i :: 0 <= i < n ==> IsSpace(text[i])
  }

  predicate SizeLine(size: seq<byte>, extension: seq<byte>, value: nat) {
    && AllHex(size) && HexValue(size, |size|) == value
    && IsExtension(extension) && |size| + |extension| <= STREAM_LIMIT
  }

  predicate ValidChunk(chunk: Chunk) {
    chunk.bytes != [] && SizeLine(chunk.size, chunk.extension, |chunk.bytes|)
  }

  predicate ValidTrailer(line: seq<byte>) {
    line != [] && NoCR(line) && |line| <= STREAM_LIMIT
  }

  function Line(text: seq<byte>): seq<byte> {
    text + [CR, LF]
  }

  function EncodeTrailers(trailers: seq<seq<byte>>, k: nat): seq<byte>
    requires k <= |trailers|
    decreases |trailers| - k
  {
    if k == |trailers| then Line([]) else Line(trailers[k]) + EncodeTrailers(trailers, k + 1)
  }

  function EncodeChunk(chunk: Chunk): seq<byte> {
    Line(chunk.size + chunk.extension) + Line(chunk.bytes)
  }

  /** The chunks from the `k`th on, the last chunk, and the trailer section. */
  function Encode(chunks: seq<Chunk>, k: nat, last: Chunk, trailers: seq<seq<byte>>): seq<byte>
    requires k <= |chunks|
    decreases |chunks| - k
  {
    if k == |chunks| then Line(last.size + last.extension) + EncodeTrailers(trailers, 0)
    else EncodeChunk(chunks[k]) + Encode(chunks, k + 1, last, trailers)
  }

  function Body(chunks: seq<Chunk>, k: nat): seq<byte>
    requires k <= |chunks|
    decreases |chunks| - k
  {
    if k == |chunks| then [] else chunks[k].bytes + Body(chunks, k + 1)
  }

  // ----- round trip -----------------------------------------------------------------------------

  lemma {:induction false} BreakIs(data: seq<byte>, from: nat, end: nat)
    requires from <= end && IsBreak(data, end) && forall i :: from <= i < end ==> data[i] != CR
    ensures BreakFrom(data, from) == end
    decreases end - from
  {
    if from < end { BreakIs(data, from + 1, end); }
  }

  lemma LineIsRead(data: seq<byte>, at: nat, text: seq<byte>)
    requires Holds(data, at, Line(text)) && NoCR(text) && |text| <= STREAM_LIMIT
    ensures LineEnd(data, at) == Some(at + |text|) && data[at..at + |text|] == text
  {
    HoldsSplit(data, at, text, [CR, LF]);
    var end := at + |text|;
    assert data[end] == data[end..end + 2][0] && data[end + 1] == data[end..end + 2][1];
    forall i | at <= i < end ensures data[i] != CR {
      assert data[i] == data[at..end][i - at];
    }
    BreakIs(data, at, end);
  }

  lemma {:induction false} DigitsOfHex(text: seq<byte>, k: nat)
    requires AllHex(text) && k <= |text|
    ensures Digits(text, k, HexValue(text, k), k > 0) == Some(HexValue(text, |text|))
    decreases |text| - k
  {
    if k < |text| {
      assert DigitValue(text[k]).Some? && text[k] != UNDERSCORE;
      DigitsOfHex(text, k + 1);
    }
  }

  lemma Int16OfHex(text: seq<byte>)
    requires AllHex(text)
    ensures Int16(text) == Some(HexValue(text, |text|))
  {
    assert DigitValue(text[0]).Some?;
    assert |text| > 1 ==> DigitValue(text[1]).Some?;
    DigitsOfHex(text, 0);
  }

  lemma {:induction false} SemicolonIs(line: seq<byte>, k: nat, at: nat)
    requires k <= at <= |line| && (forall i :: k <= i < at ==> line[i] != SEMICOLON)
    requires at < |line| ==> line[at] == SEMICOLON
    ensures FirstSemicolon(line, k) == at
    decreases at - k
  {
    if k < at { SemicolonIs(line, k + 1, at); }
  }

  lemma {:induction false} TrimIs(line: seq<byte>, k: nat, n: nat, end: nat)
    requires k < n <= end <= |line| && !IsSpace(line[n - 1]) && forall i :: n <= i < end ==> IsSpace(line[i])
    ensures TrimSpaces(line, k, end) == n
    decreases end
  {
    if n < end { TrimIs(line, k, n, end - 1); }
  }

  lemma SizeTextIs(size: seq<byte>, extension: seq<byte>)
    requires AllHex(size) && IsExtension(extension)
    ensures SizeText(size + extension) == size
  {
    var line, n := size + extension, |size|;
    forall i | 0 <= i < n ensures !IsSpace(line[i]) && line[i] != SEMICOLON {
      assert DigitValue(size[i]).Some?;
    }
    var gap := 0;
    if extension != [] {
      gap :| 0 <= gap < |extension| && extension[gap] == SEMICOLON && Spaces(extension, gap);
    }
    forall i | n <= i < n + gap ensures IsSpace(line[i]) {
      assert line[i] == extension[i - n];
    }
    SemicolonIs(line, 0, n + gap);
    TrimIs(line, 0, n, n + gap);
  }

  lemma SizeIsRead(size: seq<byte>, extension: seq<byte>, value: nat)
    requires SizeLine(size, extension, value)
    ensures SizeOf(size + extension) == Some(value)
  {
    SizeTextIs(size, extension);
    Int16OfHex(size);
  }

  lemma {:induction false} TrailersAreRead(data: seq<byte>, at: nat, trailers: seq<seq<byte>>, k: nat, body: seq<byte>)
    requires (forall i :: 0 <= i < |trailers| ==> ValidTrailer(trailers[i])) && k <= |trailers|
    requires Holds(data, at, EncodeTrailers(trailers, k))
    ensures Trailers(data, at, body) == Decoded(body, at + |EncodeTrailers(trailers, k)|)
    decreases |trailers| - k
  {
    if k == |trailers| {
      LineIsRead(data, at, []);
    } else {
      assert ValidTrailer(trailers[k]);
      HoldsSplit(data, at, Line(trailers[k]), EncodeTrailers(trailers, k + 1));
      LineIsRead(data, at, trailers[k]);
      TrailersAreRead(data, at + |trailers[k]| + 2, trailers, k + 1, body);
    }
  }

  lemma SizeLineIsRead(data: seq<byte>, at: nat, size: seq<byte>, extension: seq<byte>, value: nat)
    requires SizeLine(size, extension, value) && Holds(data, at, Line(size + extension))
    ensures var end := at + |size| + |extension|;
      LineEnd(data, at) == Some(end) && SizeOf(data[at..end]) == Some(value)
  {
    forall i | 0 <= i < |size| ensures size[i] != CR {
      assert DigitValue(size[i]).Some?;
    }
    LineIsRead(data, at, size + extension);
    SizeIsRead(size, extension, value);
  }

  lemma BytesAreRead(data: seq<byte>, start: nat, bytes: seq<byte>)
    requires Holds(data, start, Line(bytes))
    ensures ChunkBytes(data, start, |bytes|) == Piece(bytes, start + |Line(bytes)|)
  {
    HoldsSplit(data, start, bytes, [CR, LF]);
    BreakAt(data, start + |bytes|);
  }

  lemma ChunkIsRead(data: seq<byte>, at: nat, chunk: Chunk)
    requires ValidChunk(chunk) && Holds(data, at, EncodeChunk(chunk))
    ensures NextChunk(data, at) == Piece(chunk.bytes, at + |EncodeChunk(chunk)|)
  {
    hide LineEnd, SizeOf;
    HoldsSplit(data, at, Line(chunk.size + chunk.extension), Line(chunk.bytes));
    SizeLineIsRead(data, at, chunk.size, chunk.extension, |chunk.bytes|);
    BytesAreRead(data, at + |Line(chunk.size + chunk.extension)|, chunk.bytes);
  }

  lemma ChunkThen(data: seq<byte>, at: nat, chunk: Chunk, rest: seq<byte>, body: seq<byte>)
    requires ValidChunk(chunk) && Holds(data, at, EncodeChunk(chunk) + rest)
    requires |body| + |chunk.bytes| <= MAX_BODY_BYTES
    ensures var after := at + |EncodeChunk(chunk)|;
      Decode(data, at, body) == Decode(data, after, body + chunk.bytes) && Holds(data, after, rest)
  {
    hide LineEnd, SizeOf, ChunkBytes;
    HoldsSplit(data, at, EncodeChunk(chunk), rest);
    ChunkIsRead(data, at, chunk);
  }

  lemma LastThen(data: seq<byte>, at: nat, last: Chunk, rest: seq<byte>)
    requires SizeLine(last.size, last.extension, 0) && Holds(data, at, Line(last.size + last.extension) + rest)
    ensures var after := at + |Line(last.size + last.extension)|;
      NextChunk(data, at) == Last(after) && Holds(data, after, rest)
  {
    hide LineEnd, SizeOf;
    HoldsSplit(data, at, Line(last.size + last.extension), rest);
    SizeLineIsRead(data, at, last.size, last.extension, 0);
  }

  lemma DecodeLast(data: seq<byte>, at: nat, body: seq<byte>)
    requires at <= |data| && NextChunk(data, at).Last?
    ensures Decode(data, at, body) == Trailers(data, NextChunk(data, at).after, body)
  {
    hide NextChunk, Trailers;
  }

  lemma EndIsRead(data: seq<byte>, at: nat, last: Chunk, trailers: seq<seq<byte>>, encoded: seq<byte>, body: seq<byte>)
    requires SizeLine(last.size, last.extension, 0)
    requires forall i :: 0 <= i < |trailers| ==> ValidTrailer(trailers[i])
    requires encoded == Line(last.size + last.extension) + EncodeTrailers(trailers, 0) && Holds(data, at, encoded)
    ensures Decode(data, at, body) == Decoded(body, at + |encoded|)
  {
    hide LineEnd, SizeOf, NextChunk, Decode, Trailers, EncodeTrailers, SizeLine, ValidTrailer, Line, Holds;
    var rest := EncodeTrailers(trailers, 0);
    LastThen(data, at, last, rest);
    DecodeLast(data, at, body);
    TrailersAreRead(data, at + |Line(last.size + last.extension)|, trailers, 0, body);
  }

  lemma AppendAssociates(a: seq<byte>, b: seq<byte>, c: seq<byte>)
    ensures a + b + c == a + (b + c)
  {
  }

  ghost predicate ReadsBack(data: seq<byte>, at: nat, encoded: seq<byte>, body: seq<byte>, all: seq<byte>) {
    Decode(data, at, body) == Decoded(body + all, at + |encoded|)
  }

  lemma ReadsBackStep(data: seq<byte>, at: nat, after: nat, encoded: seq<byte>, rest: seq<byte>, body: seq<byte>,
                      bytes: seq<byte>, tail: seq<byte>)
    requires Decode(data, at, body) == Decode(data, after, body + bytes) && after + |rest| == at + |encoded|
    requires ReadsBack(data, after, rest, body + bytes, tail)
    ensures ReadsBack(data, at, encoded, body, bytes + tail)
  {
    hide Decode;
    AppendAssociates(body, bytes, tail);
  }

  lemma {:induction false} ChunksAreRead(data: seq<byte>, at: nat, chunks: seq<Chunk>, k: nat, last: Chunk,
                                         trailers: seq<seq<byte>>, body: seq<byte>)
    requires forall i :: 0 <= i < |chunks| ==> ValidChunk(chunks[i])
    requires SizeLine(last.size, last.extension, 0)
    requires forall i :: 0 <= i < |trailers| ==> ValidTrailer(trailers[i])
    requires k <= |chunks| && |body| + |Body(chunks, k)| <= MAX_BODY_BYTES
    requires Holds(data, at, Encode(chunks, k, last, trailers))
    ensures ReadsBack(data, at, Encode(chunks, k, last, trailers), body, Body(chunks, k))
    decreases |chunks| - k
  {
    hide NextChunk, Trailers;
    var encoded, all := Encode(chunks, k, last, trailers), Body(chunks, k);
    if k == |chunks| {
      EndIsRead(data, at, last, trailers, encoded, body);
      assert body + all == body;
    } else {
      var chunk, rest, tail := chunks[k], Encode(chunks, k + 1, last, trailers), Body(chunks, k + 1);
      assert ValidChunk(chunk) && encoded == EncodeChunk(chunk) + rest && all == chunk.bytes + tail;
      var after := at + |EncodeChunk(chunk)|;
      ChunkThen(data, at, chunk, rest, body);
      ChunksAreRead(data, after, chunks, k + 1, last, trailers, body + chunk.bytes);
      ReadsBackStep(data, at, after, encoded, rest, body, chunk.bytes, tail);
    }
  }

  /** Any chunking of a body within the cap, with any extensions and trailers, and whatever
      follows on the stream: the body comes back and exactly its encoding is consumed. */
  lemma ChunkedRoundTrip(chunks: seq<Chunk>, last: Chunk, trailers: seq<seq<byte>>, rest: seq<byte>)
    requires forall i :: 0 <= i < |chunks| ==> ValidChunk(chunks[i])
    requires SizeLine(last.size, last.extension, 0)
    requires forall i :: 0 <= i < |trailers| ==> ValidTrailer(trailers[i])
    requires |Body(chunks, 0)| <= MAX_BODY_BYTES
    ensures var encoded := Encode(chunks, 0, last, trailers);
      Decode(encoded + rest, 0, []) == Decoded(Body(chunks, 0), |encoded|)
  {
    hide Decode, Encode;
    var encoded := Encode(chunks, 0, last, trailers);
    assert (encoded + rest)[0..|encoded|] == encoded;
    ChunksAreRead(encoded + rest, 0, chunks, 0, last, trailers, []);
    assert [] + Body(chunks, 0) == Body(chunks, 0);
  }

  /** Whatever the bytes, a decoded body is within the cap and the cursor within the stream. */
  lemma {:induction false} DecodedIsBounded(data: seq<byte>, pos: nat, body: seq<byte>)
    requires |body| <= MAX_BODY_BYTES
    ensures Decode(data, pos, body).Decoded? ==>
      |Decode(data, pos, body).body| <= MAX_BODY_BYTES && pos < Decode(data, pos, body).end <= |data|
    decreases |data| - pos
  {
    match NextChunk(data, pos)
    case Bad =>
    case Last(after) => TrailersAreBounded(data, after, body);
    case Piece(bytes, after) =>
      if |body| + |bytes| <= MAX_BODY_BYTES { DecodedIsBounded(data, after, body + bytes); }
  }

  lemma {:induction false} TrailersAreBounded(data: seq<byte>, pos: nat, body: seq<byte>)
    ensures Trailers(data, pos, body).Decoded? ==>
      Trailers(data, pos, body).body == body && pos < Trailers(data, pos, body).end <= |data|
    decreases |data| - pos
  {
    var end := LineEnd(data, pos);
    if end.Some? && end.value != pos { TrailersAreBounded(data, end.value + 2, body); }
  }
}
