/** Framing of HTTP/1.1 responses on one connection: status, headers, and a chunked or a sized body. */
module HttpFraming {
  import opened Outcomes
  import opened Streams

  const MaxLine: nat := 8 * 1024
  const MaxHeaders: nat := 64 * 1024
  const CrLf: string := "\r\n"

  // ---------------------------------------------------------------- text

  predicate IsSpace(c: char) {
    c == ' ' || c == '\t' || c == '\n' || c == '\r' || c == '\U{B}' || c == '\U{C}'
  }

  function StripLeft(s: string): (t: string)
    ensures |t| <= |s| && t == s[|s| - |t|..]
    ensures t != "" ==> !IsSpace(t[0])
  {
    if s != "" && IsSpace(s[0]) then StripLeft(s[1..]) else s
  }

  function StripRight(s: string): (t: string)
    ensures t <= s
    ensures t != "" ==> !IsSpace(t[|t| - 1])
  {
    if s != "" && IsSpace(s[|s| - 1]) then StripRight(s[..|s| - 1]) else s
  }

  function Strip(s: string): (t: string)
    ensures |t| <= |s|
  {
    StripRight(StripLeft(s))
  }

  function LowerChar(c: char): char {
    if 'A' <= c <= 'Z' then (c as int + 32) as char else c
  }

  function Lower(s: string): (t: string)
    ensures |t| == |s| && forall k :: 0 <= k < |s| ==> t[k] == LowerChar(s[k])
  {
    seq(|s|, k requires 0 <= k < |s| => LowerChar(s[k]))
  }

  predicate IsTokenChar(c: char) {
    || '0' <= c <= '9'
    || 'a' <= c <= 'z'
    || c == '!' || c == '#' || c == '$' || c == '%' || c == '&' || c == '\'' || c == '*' || c == '+'
    || c == '.' || c == '^' || c == '_' || c == '`' || c == '|' || c == '~' || c == '-'
  }

  /** Cut at the first occurrence of a character. */
  function Cut(s: string, c: char): Option<(string, string)> {
    if s == "" then None
    else if s[0] == c then Some(("", s[1..]))
    else if Cut(s[1..], c).None? then None
    else Some(([s[0]] + Cut(s[1..], c).value.0, Cut(s[1..], c).value.1))
  }

  predicate IsDigit(c: char, base: nat) {
    '0' <= c <= '9' || (base == 16 && ('a' <= c <= 'f' || 'A' <= c <= 'F'))
  }

  function DigitValue(c: char): nat {
    if '0' <= c <= '9' then c as int - '0' as int
    else if 'a' <= c <= 'f' then c as int - 'a' as int + 10
    else if 'A' <= c <= 'F' then c as int - 'A' as int + 10
    else 0
  }

  predicate AllDigits(s: string, base: nat) {
    forall k :: 0 <= k < |s| ==> IsDigit(s[k], base)
  }

  function NumberOf(s: string, base: nat): nat {
    if s == "" then 0 else NumberOf(s[..|s| - 1], base) * base + DigitValue(s[|s| - 1])
  }

  /** A number as a canonical decimal: no sign, no leading zero. */
  predicate IsDecimal(s: string) {
    s != "" && AllDigits(s, 10) && (s[0] != '0' || |s| == 1)
  }

  // ---------------------------------------------------------------- what a stream of bytes means

  /** The next line with its terminator, and what follows it. */
  function NextLine(data: string): Option<(string, string)> {
    var n := FirstLine(data);
    if n < 2 || n > MaxLine || data[n - 2..n] != CrLf then None else Some((data[..n], data[n..]))
  }

  function Taken(data: string, size: nat): Option<(string, string)> {
    if size <= |data| then Some((data[..size], data[size..])) else None
  }

  /** The status of a status line, without its terminator. */
  function StatusOf(line: string): Option<nat> {
    var version :- Cut(line, ' ');
    var code :- Cut(version.1, ' ');
    if version.0 == "HTTP/1.1" && |code.0| == 3 && AllDigits(code.0, 10) then Some(NumberOf(code.0, 10)) else None
  }

  /** Name and value of a header line, without its terminator. */
  function FieldOf(line: string): Option<(string, string)> {
    if line == "" || line[0] == ' ' || line[0] == '\t' then None
    else
      var parts :- Cut(line, ':');
      var name, value := Lower(Strip(parts.0)), Strip(parts.1);
      if name != "" && (forall k :: 0 <= k < |name| ==> IsTokenChar(name[k])) && '\r' !in value && '\n' !in value
      then Some((name, value)) else None
  }

  /** The headers up to the empty line, and what follows it. */
  function HeadersOf(data: string, size: nat, headers: map<string, string>): Option<(map<string, string>, string)>
    decreases |data|
  {
    var line :- NextLine(data);
    if size + |line.0| > MaxHeaders then None
    else if line.0 == CrLf then Some((headers, line.1))
    else
      var field :- FieldOf(line.0[..|line.0| - 2]);
      if field.0 in headers then None
      else HeadersOf(line.1, size + |line.0|, headers[field.0 := field.1])
  }

  /** The joined chunks up to the last one, and what follows its empty trailer. */
  function ChunksOf(data: string, total: nat, maximum: nat): Option<(string, string)>
    decreases |data|
  {
    var line :- NextLine(data);
    var text := line.0[..|line.0| - 2];
    if text == "" || !AllDigits(text, 16) then None
    else
      var size := NumberOf(text, 16);
      if size == 0 then
        var trailer :- NextLine(line.1);
        if trailer.0 == CrLf then Some(("", trailer.1)) else None
      else if total + size > maximum then None
      else
        var chunk :- Taken(line.1, size);
        var ending :- Taken(chunk.1, 2);
        if ending.0 != CrLf then None
        else
          var more :- ChunksOf(ending.1, total + size, maximum);
          Some((chunk.0 + more.0, more.1))
  }

  function BodyOf(headers: map<string, string>, data: string, maximum: nat): Option<(string, string)> {
    if "transfer-encoding" in headers then
      if Lower(headers["transfer-encoding"]) != "chunked" || "content-length" in headers then None
      else ChunksOf(data, 0, maximum)
    else if "content-length" !in headers || !IsDecimal(headers["content-length"]) then None
    else
      var size := NumberOf(headers["content-length"], 10);
      if size > maximum then None else Taken(data, size)
  }

  /** One response: its status, its body, and the first byte after it. */
  datatype Response = Response(status: nat, body: string, rest: string)

  function ResponseOf(data: string, maximum: nat): Option<Response> {
    var first :- NextLine(data);
    var status :- StatusOf(first.0[..|first.0| - 2]);
    var head :- HeadersOf(first.1, 0, map[]);
    var body :- BodyOf(head.0, head.1, maximum);
    Some(Response(status, body.0, body.1))
  }

  // ---------------------------------------------------------------- the parser

  method ReadLine(stream: Stream) returns (line: Option<string>)
    modifies stream
    ensures line.Some? == NextLine(old(stream.rest)).Some?
    ensures line.Some? ==> NextLine(old(stream.rest)) == Some((line.value, stream.rest))
  {
    ghost var data := stream.rest;
    var piece := stream.ReadLine(MaxLine + 1);
    assert piece == data[..|piece|] && stream.rest == data[|piece|..];
    if piece == "" || |piece| > MaxLine || |piece| < 2 || piece[|piece| - 2..] != CrLf { return None; }
    line := Some(piece);
  }

  /** Read exactly so many bytes, in as many reads as it takes. */
  method ReadExact(stream: Stream, size: nat) returns (bytes: Option<string>)
    modifies stream
    ensures bytes.Some? == Taken(old(stream.rest), size).Some?
    ensures bytes.Some? ==> Taken(old(stream.rest), size) == Some((bytes.value, stream.rest))
  {
    var joined := "";
    var remaining: nat := size;
    while remaining > 0
      invariant |joined| + remaining == size && joined + stream.rest == old(stream.rest)
      decreases remaining
    {
      var piece := stream.Read(remaining);
      if piece == "" { return None; }
      joined, remaining := joined + piece, remaining - |piece|;
    }
    assert old(stream.rest)[..size] == joined && old(stream.rest)[size..] == stream.rest;
    bytes := Some(joined);
  }

  method ReadHeaders(stream: Stream) returns (headers: Option<map<string, string>>)
    modifies stream
    ensures headers.Some? == HeadersOf(old(stream.rest), 0, map[]).Some?
    ensures headers.Some? ==> HeadersOf(old(stream.rest), 0, map[]) == Some((headers.value, stream.rest))
  {
    hide NextLine, FieldOf;
    var found: map<string, string> := map[];
    var size: nat := 0;
    while true
      invariant HeadersOf(old(stream.rest), 0, map[]) == HeadersOf(stream.rest, size, found)
      decreases |stream.rest|
    {
      LineHasEnd(stream.rest);
      var line := ReadLine(stream);
      if line.None? { return None; }
      size := size + |line.value|;
      if size > MaxHeaders { return None; }
      if line.value == CrLf { return Some(found); }
      var field := FieldOf(line.value[..|line.value| - 2]);
      if field.None? || field.value.0 in found { return None; }
      found := found[field.value.0 := field.value.1];
    }
  }

  method ReadChunks(stream: Stream, maximum: nat) returns (body: Option<string>)
    modifies stream
    ensures body.Some? == ChunksOf(old(stream.rest), 0, maximum).Some?
    ensures body.Some? ==> ChunksOf(old(stream.rest), 0, maximum) == Some((body.value, stream.rest))
  {
    hide NextLine, NumberOf, AllDigits, Taken;
    var joined := "";
    var total: nat := 0;
    PrependedTwice("", "", ChunksOf(stream.rest, 0, maximum));
    while true
      invariant ChunksOf(old(stream.rest), 0, maximum) == Prepended(joined, ChunksOf(stream.rest, total, maximum))
      decreases |stream.rest|
    {
      ghost var data := stream.rest;
      LineHasEnd(data);
      var line := ReadLine(stream);
      if line.None? { return None; }
      var text := line.value[..|line.value| - 2];
      if text == "" || !AllDigits(text, 16) { return None; }
      var size := NumberOf(text, 16);
      if size == 0 {
        LineHasEnd(stream.rest);
        var trailer := ReadLine(stream);
        assert joined + "" == joined;
        return if trailer == Some(CrLf) then Some(joined) else None;
      }
      if total + size > maximum { return None; }
      TakenShrinks(stream.rest, size);
      var chunk := ReadExact(stream, size);
      if chunk.None? { return None; }
      TakenShrinks(stream.rest, 2);
      var ending := ReadExact(stream, 2);
      if ending != Some(CrLf) { return None; }
      assert ChunksOf(data, total, maximum) == Prepended(chunk.value, ChunksOf(stream.rest, total + size, maximum));
      PrependedTwice(joined, chunk.value, ChunksOf(stream.rest, total + size, maximum));
      joined, total := joined + chunk.value, total + size;
    }
  }

  function Prepended(prefix: string, more: Option<(string, string)>): Option<(string, string)> {
    if more.None? then None else Some((prefix + more.value.0, more.value.1))
  }

  /** Parse one response off the stream; however the stream is cut into reads, the result is the same. */
  method ReadResponse(stream: Stream, maximum: nat) returns (r: Option<(nat, string)>)
    modifies stream
    ensures r.Some? == ResponseOf(old(stream.rest), maximum).Some?
    ensures r.Some? ==> ResponseOf(old(stream.rest), maximum) == Some(Response(r.value.0, r.value.1, stream.rest))
  {
    hide NextLine, StatusOf, HeadersOf, ChunksOf;
    var first := ReadLine(stream);
    if first.None? { return None; }
    LineHasEnd(old(stream.rest));
    var status := StatusOf(first.value[..|first.value| - 2]);
    if status.None? { return None; }
    var headers := ReadHeaders(stream);
    if headers.None? { return None; }
    var body: Option<string>;
    if "transfer-encoding" in headers.value {
      if Lower(headers.value["transfer-encoding"]) != "chunked" || "content-length" in headers.value { return None; }
      body := ReadChunks(stream, maximum);
    } else {
      if "content-length" !in headers.value || !IsDecimal(headers.value["content-length"]) { return None; }
      var size := NumberOf(headers.value["content-length"], 10);
      if size > maximum { return None; }
      body := ReadExact(stream, size);
    }
    r := if body.None? then None else Some((status.value, body.value));
  }

  lemma LineHasEnd(data: string)
    ensures NextLine(data).Some? ==> |NextLine(data).value.0| >= 2 && |NextLine(data).value.1| < |data|
  {
  }

  lemma TakenShrinks(data: string, size: nat)
    ensures Taken(data, size).Some? ==> |Taken(data, size).value.1| <= |data|
  {
  }

  lemma PrependedTwice(a: string, b: string, more: Option<(string, string)>)
    ensures Prepended(a + b, more) == Prepended(a, Prepended(b, more))
    ensures Prepended("", more) == more
  {
    if more.Some? {
      assert a + b + more.value.0 == a + (b + more.value.0);
      assert "" + more.value.0 == more.value.0;
    }
  }

  // ---------------------------------------------------------------- messages as a server writes them

  /** A capital letter and its small one. */
  predicate CaseOf(a: char, b: char) {
    || (a == 'A' && b == 'a') || (a == 'B' && b == 'b') || (a == 'C' && b == 'c') || (a == 'D' && b == 'd')
    || (a == 'E' && b == 'e') || (a == 'F' && b == 'f') || (a == 'G' && b == 'g') || (a == 'H' && b == 'h')
    || (a == 'I' && b == 'i') || (a == 'J' && b == 'j') || (a == 'K' && b == 'k') || (a == 'L' && b == 'l')
    || (a == 'M' && b == 'm') || (a == 'N' && b == 'n') || (a == 'O' && b == 'o') || (a == 'P' && b == 'p')
    || (a == 'Q' && b == 'q') || (a == 'R' && b == 'r') || (a == 'S' && b == 's') || (a == 'T' && b == 't')
    || (a == 'U' && b == 'u') || (a == 'V' && b == 'v') || (a == 'W' && b == 'w') || (a == 'X' && b == 'x')
    || (a == 'Y' && b == 'y') || (a == 'Z' && b == 'z')
  }

  predicate SameLetter(a: char, b: char) { a == b || CaseOf(a, b) || CaseOf(b, a) }

  /** The same text, whatever the case of its letters. */
  predicate SpeltLike(s: string, t: string) {
    |s| == |t| && forall k :: 0 <= k < |s| ==> SameLetter(s[k], t[k])
  }

  predicate Blank(s: string) {
    forall k :: 0 <= k < |s| ==> s[k] == ' ' || s[k] == '\t' || s[k] == '\r' || s[k] == '\U{B}' || s[k] == '\U{C}'
  }

  predicate NameChar(c: char) {
    || 'A' <= c <= 'Z' || 'a' <= c <= 'z' || '0' <= c <= '9'
    || c == '!' || c == '#' || c == '$' || c == '%' || c == '&' || c == '\'' || c == '*' || c == '+'
    || c == '-' || c == '.' || c == '^' || c == '_' || c == '`' || c == '|' || c == '~'
  }

  /** A header field with the blanks the sender left around its name and its value. */
  datatype Field = Field(before: string, name: string, after: string, left: string, value: string, right: string) {
    function NamePart(): string { before + name + after }
    function ValuePart(): string { left + value + right }
    function Text(): string { NamePart() + ":" + ValuePart() }
  }

  predicate LegalField(f: Field) {
    && Blank(f.before) && Blank(f.after) && Blank(f.left) && Blank(f.right)
    && (f.before == "" || (f.before[0] != ' ' && f.before[0] != '\t'))
    && f.name != "" && (forall k :: 0 <= k < |f.name| ==> NameChar(f.name[k]))
    && '\r' !in f.value && '\n' !in f.value
    && (f.value == "" || (!Blank([f.value[0]]) && !Blank([f.value[|f.value| - 1]])))
    && |f.Text()| + 2 <= 8192
  }

  /** A chunk with its size as the sender spelt it. */
  datatype Chunk = Chunk(sizeText: string, data: string)

  datatype Framing = Sized(body: string) | Chunked(chunks: seq<Chunk>, last: string)

  type StatusCode = n: nat | n < 1000

  datatype Message = Message(status: StatusCode, reason: string, fields: seq<Field>, framing: Framing)

  function DigitOf(d: nat): char
    requires d < 16
  {
    "0123456789abcdef"[d]
  }

  /** A number in its shortest form. */
  function Spelt(n: nat, base: nat): (s: string)
    requires base == 10 || base == 16
    ensures s != ""
    decreases n
  {
    if n < base then [DigitOf(n)] else Spelt(n / base, base) + [DigitOf(n % base)]
  }

  function ThreeDigits(n: StatusCode): string {
    [DigitOf(n / 100), DigitOf(n / 10 % 10), DigitOf(n % 10)]
  }

  /** The fields, the empty line, and what follows. */
  function HeaderBytes(fields: seq<Field>, rest: string): string {
    if fields == [] then "\r\n" + rest
    else fields[0].Text() + "\r\n" + HeaderBytes(fields[1..], rest)
  }

  function HeaderSize(fields: seq<Field>): nat {
    if fields == [] then 2 else |fields[0].Text()| + 2 + HeaderSize(fields[1..])
  }

  /** Legal fields under names that differ whatever their case. */
  predicate LegalFields(fields: seq<Field>) {
    && (forall k :: 0 <= k < |fields| ==> LegalField(fields[k]))
    && (forall i, j :: 0 <= i < j < |fields| ==> !SpeltLike(fields[i].name, fields[j].name))
  }

  /** A hexadecimal number with letters of any case and any zeros in front. */
  predicate IsSizeText(text: string, size: nat) {
    |text| + 2 <= 8192 &&
    exists zeros :: 0 <= zeros <= |text| && SpeltFrom(text, size, zeros)
  }

  predicate SpeltFrom(text: string, size: nat, zeros: nat) {
    && zeros <= |text|
    && (forall k :: 0 <= k < zeros ==> text[k] == '0')
    && SpeltLike(text[zeros..], Spelt(size, 16))
  }

  predicate LegalChunks(chunks: seq<Chunk>) {
    forall k :: 0 <= k < |chunks| ==> chunks[k].data != "" && IsSizeText(chunks[k].sizeText, |chunks[k].data|)
  }

  function ChunkBytes(chunks: seq<Chunk>, last: string, rest: string): string {
    if chunks == [] then last + "\r\n" + ("\r\n" + rest)
    else chunks[0].sizeText + "\r\n" + (chunks[0].data + ("\r\n" + ChunkBytes(chunks[1..], last, rest)))
  }

  function ChunkData(chunks: seq<Chunk>): string {
    if chunks == [] then "" else chunks[0].data + ChunkData(chunks[1..])
  }

  function BodyText(framing: Framing): string {
    match framing
    case Sized(body) => body
    case Chunked(chunks, _) => ChunkData(chunks)
  }

  function BodyBytes(framing: Framing, rest: string): string {
    match framing
    case Sized(body) => body + rest
    case Chunked(chunks, last) => ChunkBytes(chunks, last, rest)
  }

  predicate Named(f: Field, name: string) { SpeltLike(f.name, name) }

  /** The fields announce the framing the body has. */
  predicate Announces(fields: seq<Field>, framing: Framing) {
    match framing
    case Sized(body) =>
      && (forall k :: 0 <= k < |fields| ==> !Named(fields[k], "transfer-encoding"))
      && (exists k :: 0 <= k < |fields| && Named(fields[k], "content-length") && fields[k].value == Spelt(|body|, 10))
    case Chunked(chunks, last) =>
      && (forall k :: 0 <= k < |fields| ==> !Named(fields[k], "content-length"))
      && (exists k :: 0 <= k < |fields|
            && Named(fields[k], "transfer-encoding") && SpeltLike(fields[k].value, "chunked"))
      && LegalChunks(chunks)
      && IsSizeText(last, 0)
  }

  /** What may be sent: nothing here is said in the parser's own terms. */
  predicate Legal(m: Message, maximum: nat) {
    && '\n' !in m.reason
    && 13 + |m.reason| + 2 <= 8192
    && LegalFields(m.fields)
    && HeaderSize(m.fields) <= 65536
    && Announces(m.fields, m.framing)
    && |BodyText(m.framing)| <= maximum
  }

  /** The bytes of a message, and what follows it. */
  function Bytes(m: Message, rest: string): string {
    StatusText(m) + "\r\n" + HeaderBytes(m.fields, BodyBytes(m.framing, rest))
  }

  function StatusText(m: Message): string {
    "HTTP/1.1 " + (ThreeDigits(m.status) + " " + m.reason)
  }

  // ---------------------------------------------------------------- letters, blanks and numbers

  lemma LowerLetter(a: char, b: char)
    ensures LowerChar(a) == LowerChar(b) <==> SameLetter(a, b)
  {
  }

  lemma {:induction false} LowerSpelling(s: string, t: string)
    ensures Lower(s) == Lower(t) <==> SpeltLike(s, t)
  {
    hide LowerChar, SameLetter;
    forall k | 0 <= k < |s| && k < |t| ensures LowerChar(s[k]) == LowerChar(t[k]) <==> SameLetter(s[k], t[k]) {
      LowerLetter(s[k], t[k]);
    }
    if Lower(s) == Lower(t) {
      forall k | 0 <= k < |s| ensures SameLetter(s[k], t[k]) {
        assert Lower(s)[k] == Lower(t)[k];
      }
    }
  }

  /** The names the parser looks for are its own small forms. */
  lemma KnownNames()
    ensures Lower("content-length") == "content-length"
    ensures Lower("transfer-encoding") == "transfer-encoding"
    ensures Lower("chunked") == "chunked"
  {
  }

  lemma NameCharLaw(c: char)
    ensures NameChar(c) <==> IsTokenChar(LowerChar(c))
    ensures NameChar(c) ==> c != ':' && c != '\n' && c != ' ' && c != '\t' && !IsSpace(c)
  {
  }

  lemma DigitLaw(c: char, base: nat)
    requires base == 10 || base == 16
    requires IsDigit(c, base)
    ensures DigitValue(c) < base && SameLetter(c, DigitOf(DigitValue(c)))
    ensures DigitValue(c) < 10 ==> c == DigitOf(DigitValue(c))
    ensures DigitValue(c) == 0 <==> c == '0'
    ensures c != '\n' && c != ' '
  {
    if 'A' <= c <= 'F' { assert CaseOf(c, DigitOf(DigitValue(c))); }
  }

  lemma DigitOfLaw(d: nat)
    requires d < 16
    ensures DigitValue(DigitOf(d)) == d && IsDigit(DigitOf(d), 16) && (IsDigit(DigitOf(d), 10) <==> d < 10)
    ensures d > 0 ==> DigitOf(d) != '0'
  {
  }

  lemma SameDigit(a: char, b: char)
    requires SameLetter(a, b)
    ensures IsDigit(a, 16) <==> IsDigit(b, 16)
    ensures DigitValue(a) == DigitValue(b)
  {
  }

  lemma {:induction false} SpeltIsRead(n: nat, base: nat)
    requires base == 10 || base == 16
    ensures AllDigits(Spelt(n, base), base) && NumberOf(Spelt(n, base), base) == n
    ensures base == 10 ==> IsDecimal(Spelt(n, base))
    ensures n > 0 ==> Spelt(n, base)[0] != '0'
    decreases n
  {
    hide DigitOf, DigitValue, IsDigit;
    var s := Spelt(n, base);
    DigitOfLaw(n % base);
    assert s[..|s| - 1] == if n < base then "" else Spelt(n / base, base);
    if n >= base {
      SpeltIsRead(n / base, base);
    }
  }

  lemma {:induction false} PositiveNumber(s: string, base: nat)
    requires base == 10 || base == 16
    requires s != "" && AllDigits(s, base) && s[0] != '0'
    ensures NumberOf(s, base) > 0
    decreases |s|
  {
    hide DigitValue, IsDigit;
    DigitLaw(s[|s| - 1], base);
    if |s| > 1 { PositiveNumber(s[..|s| - 1], base); }
  }

  /** A number without a zero in front is its shortest form. */
  lemma {:induction false} ReadIsSpelt(s: string, base: nat)
    requires base == 10 || base == 16
    requires s != "" && AllDigits(s, base) && (s[0] != '0' || |s| == 1)
    ensures SpeltLike(s, Spelt(NumberOf(s, base), base))
    ensures base == 10 ==> s == Spelt(NumberOf(s, base), base)
    decreases |s|
  {
    hide DigitValue, IsDigit, DigitOf, SameLetter;
    var front, c := s[..|s| - 1], s[|s| - 1];
    DigitLaw(c, base);
    if |s| == 1 {
      assert NumberOf(s, base) == DigitValue(c) by { assert NumberOf(front, base) == 0; }
      assert Spelt(NumberOf(s, base), base) == [DigitOf(DigitValue(c))];
    } else {
      PositiveNumber(front, base);
      ReadIsSpelt(front, base);
      var m := NumberOf(front, base);
      SplitNumber(m, DigitValue(c), base);
      assert Spelt(m * base + DigitValue(c), base) == Spelt(m, base) + [DigitOf(DigitValue(c))];
      assert s == front + [c];
    }
  }

  lemma SplitNumber(m: nat, d: nat, base: nat)
    requires m > 0 && d < base && (base == 10 || base == 16)
    ensures m * base + d >= base && (m * base + d) / base == m && (m * base + d) % base == d
  {
  }

  lemma {:induction false} ZerosInFront(s: string, zeros: nat)
    requires zeros <= |s| && forall k :: 0 <= k < zeros ==> s[k] == '0'
    ensures NumberOf(s, 16) == NumberOf(s[zeros..], 16)
    decreases |s|
  {
    if zeros == |s| {
      assert s[zeros..] == "";
      if s != "" { ZerosInFront(s[..|s| - 1], zeros - 1); assert s[..|s| - 1][zeros - 1..] == ""; }
    } else {
      ZerosInFront(s[..|s| - 1], zeros);
      assert s[zeros..][..|s[zeros..]| - 1] == s[..|s| - 1][zeros..];
    }
  }

  lemma {:induction false} SameNumber(s: string, t: string)
    requires SpeltLike(s, t)
    ensures NumberOf(s, 16) == NumberOf(t, 16) && (AllDigits(s, 16) <==> AllDigits(t, 16))
    decreases |s|
  {
    hide DigitValue, IsDigit, SameLetter;
    forall k | 0 <= k < |s| ensures IsDigit(s[k], 16) <==> IsDigit(t[k], 16) { SameDigit(s[k], t[k]); }
    if s != "" {
      SameDigit(s[|s| - 1], t[|t| - 1]);
      SameNumber(s[..|s| - 1], t[..|t| - 1]);
    }
  }

  /** A size is read from exactly the texts that spell it. */
  lemma {:induction false} SizeTextLaw(text: string, size: nat)
    ensures IsSizeText(text, size) <==>
              |text| + 2 <= 8192 && text != "" && AllDigits(text, 16) && NumberOf(text, 16) == size
  {
    if IsSizeText(text, size) {
      var zeros :| 0 <= zeros <= |text| && SpeltFrom(text, size, zeros);
      SpeltIsRead(size, 16);
      SameNumber(text[zeros..], Spelt(size, 16));
      ZerosInFront(text, zeros);
      forall k | 0 <= k < |text| ensures IsDigit(text[k], 16) {
        if k >= zeros { assert text[zeros..][k - zeros] == text[k]; }
      }
    }
    if |text| + 2 <= 8192 && text != "" && AllDigits(text, 16) && NumberOf(text, 16) == size {
      var zeros := LeadingZeros(text);
      ZerosInFront(text, zeros);
      ReadIsSpelt(text[zeros..], 16);
      assert SpeltFrom(text, size, zeros);
    }
  }

  /** The zeros before the number proper; a lone zero is one. */
  function LeadingZeros(text: string): (n: nat)
    requires text != ""
    ensures n < |text| && (forall k :: 0 <= k < n ==> text[k] == '0')
    ensures text[n] != '0' || n + 1 == |text|
  {
    if |text| == 1 || text[0] != '0' then 0 else 1 + LeadingZeros(text[1..])
  }

  /** A length is read from exactly its shortest decimal form. */
  lemma {:induction false} LengthTextLaw(text: string, size: nat)
    ensures IsDecimal(text) && NumberOf(text, 10) == size <==> text == Spelt(size, 10)
  {
    SpeltIsRead(size, 10);
    if IsDecimal(text) && NumberOf(text, 10) == size { ReadIsSpelt(text, 10); }
  }

  lemma {:induction false} StatusTextLaw(code: string, status: nat)
    ensures |code| == 3 && AllDigits(code, 10) && NumberOf(code, 10) == status <==>
              status < 1000 && code == ThreeDigits(status)
  {
    hide DigitValue, IsDigit, DigitOf, NumberOf, ThreeDigits;
    if |code| == 3 && AllDigits(code, 10) && NumberOf(code, 10) == status { CodeIsDigits(code); }
    if status < 1000 && code == ThreeDigits(status) { DigitsAreCode(status); }
  }

  lemma ThreeDigitNumber(code: string)
    requires |code| == 3
    ensures NumberOf(code, 10) == (DigitValue(code[0]) * 10 + DigitValue(code[1])) * 10 + DigitValue(code[2])
  {
    hide DigitValue;
    assert code[..2][..1] == code[..1] && code[..1][..0] == "";
    assert NumberOf(code[..1], 10) == DigitValue(code[0]);
    assert NumberOf(code[..2], 10) == DigitValue(code[0]) * 10 + DigitValue(code[1]);
  }

  lemma CodeIsDigits(code: string)
    requires |code| == 3 && AllDigits(code, 10)
    ensures NumberOf(code, 10) < 1000 && code == ThreeDigits(NumberOf(code, 10))
  {
    hide DigitValue, IsDigit, DigitOf, NumberOf;
    ThreeDigitNumber(code);
    DigitLaw(code[0], 10);
    DigitLaw(code[1], 10);
    DigitLaw(code[2], 10);
    var a, b, c := DigitValue(code[0]), DigitValue(code[1]), DigitValue(code[2]);
    var n := (a * 10 + b) * 10 + c;
    assert n / 100 == a && n / 10 % 10 == b && n % 10 == c;
    assert code == [code[0], code[1], code[2]];
  }

  lemma DigitsAreCode(status: StatusCode)
    ensures |ThreeDigits(status)| == 3 && AllDigits(ThreeDigits(status), 10)
              && NumberOf(ThreeDigits(status), 10) == status
  {
    hide DigitValue, IsDigit, DigitOf, NumberOf;
    ThreeDigitNumber(ThreeDigits(status));
    DigitOfLaw(status / 100);
    DigitOfLaw(status / 10 % 10);
    DigitOfLaw(status % 10);
  }

  // ---------------------------------------------------------------- the parser gives back what was written

  lemma LineRead(content: string, rest: string)
    requires '\n' !in content && |content| + 2 <= 8192
    ensures NextLine(content + "\r\n" + rest) == Some((content + "\r\n", rest))
    ensures (content + "\r\n")[..|content + "\r\n"| - 2] == content
  {
    var data := content + "\r\n" + rest;
    LineLength(data, |content| + 2);
    assert data[..|content| + 2] == content + "\r\n" && data[|content| + 2..] == rest;
    assert data[|content|..|content| + 2] == "\r\n";
  }

  lemma LineWritten(data: string)
    requires NextLine(data).Some?
    ensures |NextLine(data).value.0| >= 2
    ensures var line := NextLine(data).value; var content := line.0[..|line.0| - 2];
            && line.0 == content + "\r\n" && data == content + "\r\n" + line.1
            && '\n' !in content && |content| + 2 <= 8192
  {
    var n := FirstLine(data);
    var content := data[..n - 2];
    assert data[..n] == content + "\r\n" by { assert data[n - 2..n] == "\r\n"; }
    assert data[..n][..n - 2] == content;
  }

  lemma {:induction false} CutRead(head: string, c: char, tail: string)
    requires c !in head
    ensures Cut(head + [c] + tail, c) == Some((head, tail))
  {
    var s := head + [c] + tail;
    if head == "" {
      assert s[1..] == tail;
    } else {
      assert s[1..] == head[1..] + [c] + tail;
      CutRead(head[1..], c, tail);
      assert [s[0]] + head[1..] == head;
    }
  }

  lemma {:induction false} CutWritten(s: string, c: char)
    ensures Cut(s, c).Some? ==> s == Cut(s, c).value.0 + [c] + Cut(s, c).value.1 && c !in Cut(s, c).value.0
  {
    if s != "" && s[0] != c { CutWritten(s[1..], c); }
  }

  lemma {:induction false} DigitsHoldNoLineEnd(s: string, base: nat)
    requires AllDigits(s, base)
    ensures '\n' !in s && ' ' !in s
  {
    forall k | 0 <= k < |s| ensures s[k] != '\n' && s[k] != ' ' {
      assert IsDigit(s[k], base);
    }
  }

  lemma StatusRead(m: Message)
    ensures StatusOf(StatusText(m)) == Some(m.status)
    ensures '\n' !in m.reason ==> '\n' !in StatusText(m)
  {
    hide ThreeDigits, NumberOf;
    var code := ThreeDigits(m.status);
    StatusTextLaw(code, m.status);
    DigitsHoldNoLineEnd(code, 10);
    CutRead("HTTP/1.1", ' ', code + " " + m.reason);
    assert StatusText(m) == "HTTP/1.1" + [' '] + (code + " " + m.reason);
    CutRead(code, ' ', m.reason);
    assert code + " " + m.reason == code + [' '] + m.reason;
  }

  lemma StatusWritten(line: string) returns (reason: string)
    requires StatusOf(line).Some? && '\n' !in line
    ensures StatusOf(line).value < 1000 && '\n' !in reason && |line| == 13 + |reason|
    ensures line == "HTTP/1.1 " + (ThreeDigits(StatusOf(line).value) + " " + reason)
  {
    hide ThreeDigits, NumberOf;
    CutWritten(line, ' ');
    var version := Cut(line, ' ').value;
    CutWritten(version.1, ' ');
    var code := Cut(version.1, ' ').value;
    StatusTextLaw(code.0, NumberOf(code.0, 10));
    reason := code.1;
    assert line == "HTTP/1.1 " + (code.0 + " " + reason);
    assert forall k :: 0 <= k < |reason| ==> reason[k] == line[13 + k];
  }

  // ---------------------------------------------------------------- blanks around a name or a value

  predicate Spaces(s: string) { forall k :: 0 <= k < |s| ==> IsSpace(s[k]) }

  lemma BlankLaw(s: string)
    ensures Blank(s) ==> Spaces(s) && '\n' !in s
    ensures Spaces(s) && '\n' !in s ==> Blank(s)
  {
  }

  lemma {:induction false} StripLeftRead(left: string, s: string)
    requires Spaces(left) && (s == "" || !IsSpace(s[0]))
    ensures StripLeft(left + s) == s
    decreases |left|
  {
    hide IsSpace;
    if left == "" {
      assert left + s == s;
    } else {
      assert (left + s)[1..] == left[1..] + s;
      StripLeftRead(left[1..], s);
    }
  }

  lemma {:induction false} StripRightRead(s: string, right: string)
    requires Spaces(right) && (s == "" || !IsSpace(s[|s| - 1]))
    ensures StripRight(s + right) == s
    decreases |right|
  {
    hide IsSpace;
    var all := s + right;
    if right == "" {
      assert all == s;
    } else {
      assert all[..|all| - 1] == s + right[..|right| - 1];
      StripRightRead(s, right[..|right| - 1]);
    }
  }

  lemma {:induction false} AllStripped(s: string)
    requires Spaces(s)
    ensures StripLeft(s) == ""
    decreases |s|
  {
    if s != "" { AllStripped(s[1..]); }
  }

  lemma {:induction false} StripRead(left: string, s: string, right: string)
    requires Spaces(left) && Spaces(right) && (s == "" || (!IsSpace(s[0]) && !IsSpace(s[|s| - 1])))
    ensures Strip(left + s + right) == s
  {
    hide IsSpace;
    if s == "" {
      AllStripped(left + s + right);
    } else {
      assert left + s + right == left + (s + right);
      StripLeftRead(left, s + right);
      StripRightRead(s, right);
    }
  }

  lemma {:induction false} StripLeftWritten(s: string)
    ensures Spaces(s[..|s| - |StripLeft(s)|])
    decreases |s|
  {
    hide IsSpace;
    if s != "" && IsSpace(s[0]) {
      StripLeftWritten(s[1..]);
      var n := |s| - |StripLeft(s)|;
      forall k | 0 <= k < n ensures IsSpace(s[k]) {
        if k > 0 { assert s[1..][..n - 1][k - 1] == s[k]; }
      }
    }
  }

  lemma {:induction false} StripRightWritten(s: string)
    ensures Spaces(s[|StripRight(s)|..])
    decreases |s|
  {
    hide IsSpace;
    var last := |s| - 1;
    if s != "" && IsSpace(s[last]) {
      StripRightWritten(s[..last]);
      var n := |StripRight(s)|;
      forall k | n <= k < |s| ensures IsSpace(s[k]) {
        if k < last { assert s[..last][n..][k - n] == s[k]; }
      }
    }
  }

  lemma {:induction false} StripWritten(s: string) returns (left: string, right: string)
    ensures s == left + Strip(s) + right && Spaces(left) && Spaces(right)
    ensures Strip(s) != "" ==> !IsSpace(Strip(s)[0]) && !IsSpace(Strip(s)[|Strip(s)| - 1])
  {
    hide IsSpace, StripLeft, StripRight;
    var middle := StripLeft(s);
    StripLeftWritten(s);
    StripRightWritten(middle);
    left, right := s[..|s| - |middle|], middle[|StripRight(middle)|..];
    assert s == left + middle;
    assert middle == StripRight(middle) + right;
    assert left + (StripRight(middle) + right) == left + StripRight(middle) + right;
  }

  // ---------------------------------------------------------------- header fields

  lemma NameIsToken(f: Field)
    requires LegalField(f)
    ensures Strip(f.NamePart()) == f.name && ':' !in f.NamePart() && '\n' !in f.NamePart()
    ensures f.NamePart() != "" && f.NamePart()[0] != ' ' && f.NamePart()[0] != '\t'
    ensures Lower(f.name) != "" && forall k :: 0 <= k < |Lower(f.name)| ==> IsTokenChar(Lower(f.name)[k])
  {
    hide IsTokenChar, LowerChar, IsSpace, Strip, NameChar;
    forall k | 0 <= k < |f.name|
      ensures f.name[k] != ':' && f.name[k] != '\n' && f.name[k] != ' ' && f.name[k] != '\t' && !IsSpace(f.name[k])
      ensures IsTokenChar(LowerChar(f.name[k]))
    {
      NameCharLaw(f.name[k]);
    }
    BlankLaw(f.before);
    BlankLaw(f.after);
    StripRead(f.before, f.name, f.after);
  }

  lemma FieldRead(f: Field)
    requires LegalField(f)
    ensures FieldOf(f.Text()) == Some((Lower(f.name), f.value))
    ensures '\n' !in f.Text()
  {
    NameIsToken(f);
    ValueRead(f);
    hide Cut, Strip, Lower, IsTokenChar, Blank, LegalField, Field.NamePart, Field.ValuePart;
    CutRead(f.NamePart(), ':', f.ValuePart());
    assert f.Text() == f.NamePart() + [':'] + f.ValuePart();
  }

  lemma ValueRead(f: Field)
    requires LegalField(f)
    ensures Strip(f.ValuePart()) == f.value && '\n' !in f.ValuePart() && '\r' !in f.value && '\n' !in f.value
  {
    hide Strip, NameChar;
    BlankLaw(f.left);
    BlankLaw(f.right);
    if f.value != "" {
      BlankLaw([f.value[0]]);
      BlankLaw([f.value[|f.value| - 1]]);
      assert f.value[0] in f.value && f.value[|f.value| - 1] in f.value;
    }
    hide IsSpace, Blank;
    StripRead(f.left, f.value, f.right);
  }

  lemma FieldWritten(line: string) returns (f: Field)
    requires FieldOf(line).Some? && '\n' !in line && |line| + 2 <= 8192
    ensures LegalField(f) && f.Text() == line && FieldOf(line).value == (Lower(f.name), f.value)
  {
    hide Cut, Strip, Lower, IsTokenChar, Blank, IsSpace, NameChar, Spaces;
    CutWritten(line, ':');
    var parts := Cut(line, ':').value;
    var before, after := StripWritten(parts.0);
    var left, right := StripWritten(parts.1);
    f := Field(before, Strip(parts.0), after, left, Strip(parts.1), right);
    assert f.NamePart() == parts.0 && f.ValuePart() == parts.1;
    assert f.Text() == line;
    NoLineFeeds(line, f);
    NameWritten(line, f);
    ValueWritten(line, f);
  }

  lemma NoLineFeeds(line: string, f: Field)
    requires '\n' !in line && line == f.Text()
    ensures '\n' !in f.before && '\n' !in f.after && '\n' !in f.left && '\n' !in f.right && '\n' !in f.value
  {
    assert forall c :: c in f.before || c in f.after ==> c in f.NamePart();
    assert forall c :: c in f.left || c in f.right || c in f.value ==> c in f.ValuePart();
    assert forall c :: c in f.NamePart() || c in f.ValuePart() ==> c in line;
  }

  lemma NameWritten(line: string, f: Field)
    requires line == f.Text() && f.name != "" && line[0] != ' ' && line[0] != '\t'
    requires forall k :: 0 <= k < |f.name| ==> IsTokenChar(Lower(f.name)[k])
    ensures forall k :: 0 <= k < |f.name| ==> NameChar(f.name[k])
    ensures f.before == "" || (f.before[0] != ' ' && f.before[0] != '\t')
  {
    hide IsTokenChar, LowerChar, NameChar;
    forall k | 0 <= k < |f.name| ensures NameChar(f.name[k]) {
      assert Lower(f.name)[k] == LowerChar(f.name[k]);
      NameCharLaw(f.name[k]);
    }
    assert f.before != "" ==> line[0] == f.before[0];
  }

  lemma ValueWritten(line: string, f: Field)
    requires Spaces(f.before) && Spaces(f.after) && Spaces(f.left) && Spaces(f.right)
    requires '\n' !in f.before && '\n' !in f.after && '\n' !in f.left && '\n' !in f.right && '\n' !in f.value
    requires f.value != "" ==> !IsSpace(f.value[0]) && !IsSpace(f.value[|f.value| - 1])
    ensures Blank(f.before) && Blank(f.after) && Blank(f.left) && Blank(f.right)
    ensures f.value == "" || (!Blank([f.value[0]]) && !Blank([f.value[|f.value| - 1]]))
  {
    BlankLaw(f.before);
    BlankLaw(f.after);
    BlankLaw(f.left);
    BlankLaw(f.right);
    if f.value != "" {
      assert [f.value[0]][0] == f.value[0] && [f.value[|f.value| - 1]][0] == f.value[|f.value| - 1];
      BlankLaw([f.value[0]]);
      BlankLaw([f.value[|f.value| - 1]]);
    }
  }

  /** The headers the parser collects from the fields. */
  function WithFields(headers: map<string, string>, fields: seq<Field>): map<string, string>
    decreases |fields|
  {
    if fields == [] then headers else WithFields(headers[Lower(fields[0].name) := fields[0].value], fields[1..])
  }

  /** No field has a name the headers hold already. */
  predicate NewTo(headers: map<string, string>, fields: seq<Field>) {
    forall k :: 0 <= k < |fields| ==> Lower(fields[k].name) !in headers
  }

  lemma FieldsTail(fields: seq<Field>, headers: map<string, string>)
    requires LegalFields(fields) && fields != [] && NewTo(headers, fields)
    ensures LegalField(fields[0]) && LegalFields(fields[1..]) && Lower(fields[0].name) !in headers
    ensures NewTo(headers[Lower(fields[0].name) := fields[0].value], fields[1..])
  {
    hide LegalField, Lower, SpeltLike;
    forall k | 0 <= k < |fields[1..]|
      ensures Lower(fields[1..][k].name) !in headers[Lower(fields[0].name) := fields[0].value]
    {
      assert fields[1..][k] == fields[k + 1];
      LowerSpelling(fields[0].name, fields[k + 1].name);
    }
  }

  lemma FieldsFrom(f: Field, more: seq<Field>, headers: map<string, string>)
    requires LegalField(f) && LegalFields(more) && Lower(f.name) !in headers
    requires NewTo(headers[Lower(f.name) := f.value], more)
    ensures LegalFields([f] + more) && NewTo(headers, [f] + more)
  {
    hide LegalField, Lower, SpeltLike;
    var all := [f] + more;
    forall i, j | 0 <= i < j < |all| ensures !SpeltLike(all[i].name, all[j].name) {
      assert all[j] == more[j - 1];
      if i == 0 { LowerSpelling(f.name, all[j].name); } else { assert all[i] == more[i - 1]; }
    }
  }

  /** What stands under a name in the collected headers. */
  lemma {:induction false} WithFieldsLaw(headers: map<string, string>, fields: seq<Field>, name: string)
    requires LegalFields(fields) && NewTo(headers, fields)
    ensures name in WithFields(headers, fields) <==>
              name in headers || exists k :: 0 <= k < |fields| && Lower(fields[k].name) == name
    ensures name in headers ==> WithFields(headers, fields)[name] == headers[name]
    ensures forall k :: 0 <= k < |fields| && Lower(fields[k].name) == name ==>
              name in WithFields(headers, fields) && WithFields(headers, fields)[name] == fields[k].value
    decreases |fields|
  {
    hide LegalFields, LegalField, Lower, SpeltLike;
    if fields != [] {
      var f, more := fields[0], fields[1..];
      FieldsTail(fields, headers);
      WithFieldsLaw(headers[Lower(f.name) := f.value], more, name);
      forall k | 0 <= k < |fields| && Lower(fields[k].name) == name
        ensures name in WithFields(headers, fields) && WithFields(headers, fields)[name] == fields[k].value
      {
        if k > 0 { assert more[k - 1] == fields[k]; }
      }
      if exists k :: 0 <= k < |more| && Lower(more[k].name) == name {
        var k :| 0 <= k < |more| && Lower(more[k].name) == name;
        assert fields[k + 1] == more[k];
      }
    }
  }

  lemma {:induction false} HeadersRead(fields: seq<Field>, rest: string, size: nat, headers: map<string, string>)
    requires LegalFields(fields) && size + HeaderSize(fields) <= 65536 && NewTo(headers, fields)
    ensures HeadersOf(HeaderBytes(fields, rest), size, headers) == Some((WithFields(headers, fields), rest))
    decreases |fields|
  {
    hide NextLine, FieldOf, LegalFields, LegalField, Lower, NewTo, Field.Text;
    if fields == [] {
      LineRead("", rest);
      assert "" + "\r\n" + rest == "\r\n" + rest;
    } else {
      var f, more := fields[0], fields[1..];
      FieldsTail(fields, headers);
      FieldFits(f);
      FieldRead(f);
      LineRead(f.Text(), HeaderBytes(more, rest));
      HeadersRead(more, rest, size + |f.Text() + "\r\n"|, headers[Lower(f.name) := f.value]);
    }
  }

  lemma FieldFits(f: Field)
    requires LegalField(f)
    ensures |f.Text()| + 2 <= 8192 && f.Text() + "\r\n" != "\r\n"
  {
    assert |f.Text() + "\r\n"| > 2;
  }

  /** Every header block that is read is one of legal fields. */
  lemma {:induction false} HeadersWritten(data: string, size: nat, headers: map<string, string>)
    returns (fields: seq<Field>)
    requires HeadersOf(data, size, headers).Some?
    ensures LegalFields(fields) && size + HeaderSize(fields) <= 65536 && NewTo(headers, fields)
    ensures data == HeaderBytes(fields, HeadersOf(data, size, headers).value.1)
    ensures HeadersOf(data, size, headers).value.0 == WithFields(headers, fields)
    decreases |data|
  {
    hide NextLine, FieldOf, LegalFields, LegalField, Lower, NewTo, Field.Text;
    var line := NextLine(data).value;
    LineWritten(data);
    var content := line.0[..|line.0| - 2];
    if line.0 == CrLf {
      assert content == "";
      fields := [];
      NoFields(headers);
      assert data == "\r\n" + line.1;
    } else {
      var f := FieldWritten(content);
      var more := HeadersWritten(line.1, size + |line.0|, headers[Lower(f.name) := f.value]);
      FieldsFrom(f, more, headers);
      fields := [f] + more;
      assert fields[1..] == more;
    }
  }

  lemma NoFields(headers: map<string, string>)
    ensures LegalFields([]) && NewTo(headers, [])
  {
  }

  // ---------------------------------------------------------------- chunks

  lemma SizeLine(text: string, size: nat)
    requires IsSizeText(text, size)
    ensures text != "" && AllDigits(text, 16) && NumberOf(text, 16) == size && |text| + 2 <= 8192 && '\n' !in text
  {
    SizeTextLaw(text, size);
    DigitsHoldNoLineEnd(text, 16);
  }

  lemma {:induction false} ChunksRead(chunks: seq<Chunk>, last: string, rest: string, total: nat, maximum: nat)
    requires LegalChunks(chunks) && IsSizeText(last, 0) && total + |ChunkData(chunks)| <= maximum
    ensures ChunksOf(ChunkBytes(chunks, last, rest), total, maximum) == Some((ChunkData(chunks), rest))
    decreases |chunks|
  {
    hide NextLine, NumberOf, IsSizeText, AllDigits;
    if chunks == [] {
      SizeLine(last, 0);
      LineRead(last, "\r\n" + rest);
      LineRead("", rest);
      assert "" + "\r\n" + rest == "\r\n" + rest;
    } else {
      var c, more := chunks[0], chunks[1..];
      SizeLine(c.sizeText, |c.data|);
      var after := ChunkBytes(more, last, rest);
      LineRead(c.sizeText, c.data + ("\r\n" + after));
      TakenRead(c.data, "\r\n" + after);
      TakenRead("\r\n", after);
      ChunksRead(more, last, rest, total + |c.data|, maximum);
    }
  }

  lemma TakenRead(head: string, tail: string)
    ensures Taken(head + tail, |head|) == Some((head, tail))
  {
  }

  /** Every chunked body that is read is one of legal chunks. */
  lemma {:induction false} ChunksWritten(data: string, total: nat, maximum: nat)
    returns (chunks: seq<Chunk>, last: string)
    requires ChunksOf(data, total, maximum).Some? && total <= maximum
    ensures LegalChunks(chunks) && IsSizeText(last, 0) && total + |ChunkData(chunks)| <= maximum
    ensures data == ChunkBytes(chunks, last, ChunksOf(data, total, maximum).value.1)
    ensures ChunksOf(data, total, maximum).value.0 == ChunkData(chunks)
    decreases |data|
  {
    hide NextLine, NumberOf, IsSizeText, AllDigits;
    var line := NextLine(data).value;
    LineWritten(data);
    var text := line.0[..|line.0| - 2];
    var size := NumberOf(text, 16);
    SizeTextLaw(text, size);
    if size == 0 {
      chunks, last := [], text;
      LineWritten(line.1);
      assert line.1 == "\r\n" + NextLine(line.1).value.1;
    } else {
      var chunk := Taken(line.1, size).value;
      var ending := Taken(chunk.1, 2).value;
      TakenWritten(line.1, size);
      TakenWritten(chunk.1, 2);
      var more, end := ChunksWritten(ending.1, total + size, maximum);
      chunks, last := [Chunk(text, chunk.0)] + more, end;
      assert chunks[1..] == more;
    }
  }

  lemma TakenWritten(data: string, size: nat)
    requires Taken(data, size).Some?
    ensures data == Taken(data, size).value.0 + Taken(data, size).value.1 && |Taken(data, size).value.0| == size
  {
  }

  // ---------------------------------------------------------------- whole messages

  lemma {:induction false} FramingRead(m: Message, rest: string, maximum: nat)
    requires LegalFields(m.fields) && Announces(m.fields, m.framing) && |BodyText(m.framing)| <= maximum
    ensures BodyOf(WithFields(map[], m.fields), BodyBytes(m.framing, rest), maximum)
         == Some((BodyText(m.framing), rest))
  {
    var headers := WithFields(map[], m.fields);
    HeaderNames(m.fields);
    hide LegalFields, Named, SpeltLike, ChunksOf, LegalChunks, IsSizeText, NumberOf, Lower, IsDecimal, WithFields;
    match m.framing {
      case Sized(body) =>
        LengthTextLaw(headers["content-length"], |body|);
        TakenRead(body, rest);
      case Chunked(chunks, last) =>
        ChunksRead(chunks, last, rest, 0, maximum);
        KnownNames();
        LowerSpelling(headers["transfer-encoding"], "chunked");
    }
  }

  /** The two framing headers are found under their names, however the names are spelt. */
  lemma {:induction false} HeaderNames(fields: seq<Field>)
    requires LegalFields(fields)
    ensures forall name | name == "content-length" || name == "transfer-encoding" ::
              && (name in WithFields(map[], fields) <==> exists k :: 0 <= k < |fields| && Named(fields[k], name))
              && (forall k :: 0 <= k < |fields| && Named(fields[k], name) ==>
                  name in WithFields(map[], fields) && WithFields(map[], fields)[name] == fields[k].value)
  {
    hide LegalFields, Lower, SpeltLike, WithFields;
    forall name | name == "content-length" || name == "transfer-encoding"
      ensures name in WithFields(map[], fields) <==> exists k :: 0 <= k < |fields| && Named(fields[k], name)
      ensures forall k :: 0 <= k < |fields| && Named(fields[k], name) ==>
                name in WithFields(map[], fields) && WithFields(map[], fields)[name] == fields[k].value
    {
      KnownNames();
      WithFieldsLaw(map[], fields, name);
      forall k | 0 <= k < |fields| ensures Lower(fields[k].name) == name <==> Named(fields[k], name) {
        LowerSpelling(fields[k].name, name);
      }
    }
  }

  lemma {:induction false} FramingWritten(fields: seq<Field>, data: string, maximum: nat) returns (framing: Framing)
    requires LegalFields(fields) && BodyOf(WithFields(map[], fields), data, maximum).Some?
    ensures Announces(fields, framing) && |BodyText(framing)| <= maximum
    ensures data == BodyBytes(framing, BodyOf(WithFields(map[], fields), data, maximum).value.1)
    ensures BodyOf(WithFields(map[], fields), data, maximum).value.0 == BodyText(framing)
  {
    var headers := WithFields(map[], fields);
    HeaderNames(fields);
    hide LegalFields, Named, SpeltLike, ChunksOf, LegalChunks, IsSizeText, NumberOf, Lower, IsDecimal, WithFields;
    if "transfer-encoding" in headers {
      var chunks, last := ChunksWritten(data, 0, maximum);
      framing := Chunked(chunks, last);
      KnownNames();
      LowerSpelling(headers["transfer-encoding"], "chunked");
    } else {
      var size := NumberOf(headers["content-length"], 10);
      TakenWritten(data, size);
      framing := Sized(Taken(data, size).value.0);
      LengthTextLaw(headers["content-length"], size);
    }
  }

  /**
   Every legal message, however its names are spelt and its body is cut into chunks, is read back to its last byte.
   */
  lemma {:induction false} RoundTrip(m: Message, rest: string, maximum: nat)
    requires Legal(m, maximum)
    ensures ResponseOf(Bytes(m, rest), maximum) == Some(Response(m.status, BodyText(m.framing), rest))
  {
    hide NextLine, StatusOf, HeadersOf, BodyOf, LegalFields, Announces, NumberOf, StatusText, BodyText, BodyBytes;
    assert |StatusText(m)| == 13 + |m.reason| by { StatusLength(m); }
    StatusRead(m);
    LineRead(StatusText(m), HeaderBytes(m.fields, BodyBytes(m.framing, rest)));
    HeadersRead(m.fields, BodyBytes(m.framing, rest), 0, map[]);
    FramingRead(m, rest, maximum);
  }

  lemma StatusLength(m: Message)
    ensures |StatusText(m)| == 13 + |m.reason|
  {
  }

  /** A response is read exactly off the bytes of a legal message. */
  lemma {:induction false} ReadExactlyLegal(data: string, maximum: nat, r: Response)
    ensures ResponseOf(data, maximum) == Some(r) <==> exists m :: IsWritten(m, data, maximum, r)
  {
    if ResponseOf(data, maximum) == Some(r) {
      var m := MessageWritten(data, maximum);
      assert IsWritten(m, data, maximum, r);
    }
    if m :| IsWritten(m, data, maximum, r) {
      RoundTrip(m, r.rest, maximum);
    }
  }

  /** The message is legal, these are its bytes, and this is what it says. */
  predicate IsWritten(m: Message, data: string, maximum: nat, r: Response) {
    Legal(m, maximum) && data == Bytes(m, r.rest) && r.status == m.status && r.body == BodyText(m.framing)
  }

  lemma {:induction false} MessageWritten(data: string, maximum: nat) returns (m: Message)
    requires ResponseOf(data, maximum).Some?
    ensures IsWritten(m, data, maximum, ResponseOf(data, maximum).value)
  {
    hide NextLine, StatusOf, HeadersOf, BodyOf, LegalFields, Announces, NumberOf, BodyText, BodyBytes;
    LineWritten(data);
    var first := NextLine(data).value;
    var line := first.0[..|first.0| - 2];
    var reason := StatusWritten(line);
    var fields := HeadersWritten(first.1, 0, map[]);
    var head := HeadersOf(first.1, 0, map[]).value;
    var framing := FramingWritten(fields, head.1, maximum);
    m := Message(StatusOf(line).value, reason, fields, framing);
    assert StatusText(m) == line;
  }

  const EngineField := Field("", "Content-Length", "", " ", "2", "")

  lemma EngineFieldIsLegal()
    ensures LegalField(EngineField) && EngineField.Text() == "Content-Length: 2"
    ensures Named(EngineField, "content-length") && !Named(EngineField, "transfer-encoding")
    ensures EngineField.value == Spelt(2, 10)
  {
    assert SameLetter('C', 'c') && SameLetter('L', 'l');
    assert EngineField.value[0] == '2' && !Blank(['2']) by { assert ['2'][0] == '2'; }
  }

  function EngineText(rest: string): string {
    "HTTP/1.1 200 OK" + "\r\n" + ("Content-Length: 2" + "\r\n" + ("\r\n" + ("OK" + rest)))
  }

  lemma EngineMessageIsLegal(rest: string)
    ensures var m := Message(200, "OK", [EngineField], Sized("OK"));
            Legal(m, 2) && Bytes(m, rest) == EngineText(rest)
  {
    EngineFieldIsLegal();
    hide Named, LegalField, Spelt, Field.Text;
    var fields := [EngineField];
    var m := Message(200, "OK", fields, Sized("OK"));
    assert fields[1..] == [] && fields[0] == EngineField;
    assert HeaderSize(fields) == 21;
    assert StatusText(m) == "HTTP/1.1 200 OK" by { assert ThreeDigits(200) == "200"; }
    assert HeaderBytes(fields, "OK" + rest) == "Content-Length: 2" + "\r\n" + ("\r\n" + ("OK" + rest));
  }

  /** A response as a Docker engine writes it. */
  lemma {:induction false} EngineResponse(rest: string)
    ensures ResponseOf(EngineText(rest), 2) == Some(Response(200, "OK", rest))
  {
    hide ResponseOf, Legal, Bytes, EngineText;
    EngineMessageIsLegal(rest);
    RoundTrip(Message(200, "OK", [EngineField], Sized("OK")), rest, 2);
  }

  // ---------------------------------------------------------------- several messages

  /** What follows a message is not part of it. */
  lemma {:induction false} HeaderBytesEnd(fields: seq<Field>, a: string, b: string)
    ensures HeaderBytes(fields, a + b) == HeaderBytes(fields, a) + b
    decreases |fields|
  {
    hide Field.Text;
    if fields != [] { HeaderBytesEnd(fields[1..], a, b); }
  }

  lemma {:induction false} ChunkBytesEnd(chunks: seq<Chunk>, last: string, a: string, b: string)
    ensures ChunkBytes(chunks, last, a + b) == ChunkBytes(chunks, last, a) + b
    decreases |chunks|
  {
    if chunks == [] {
      AppendedInside(last + "\r\n", "", "\r\n", a, b);
    } else {
      ChunkBytesEnd(chunks[1..], last, a, b);
      AppendedInside(chunks[0].sizeText + "\r\n", chunks[0].data, "\r\n", ChunkBytes(chunks[1..], last, a), b);
    }
  }

  lemma AppendedInside(first: string, second: string, third: string, a: string, b: string)
    ensures first + (second + (third + (a + b))) == first + (second + (third + a)) + b
    ensures first + (third + (a + b)) == first + (third + a) + b
  {
  }

  lemma BytesEnd(m: Message, rest: string)
    ensures Bytes(m, rest) == Bytes(m, "") + rest
  {
    assert "" + rest == rest;
    if m.framing.Chunked? { ChunkBytesEnd(m.framing.chunks, m.framing.last, "", rest); }
    assert BodyBytes(m.framing, rest) == BodyBytes(m.framing, "") + rest;
    HeaderBytesEnd(m.fields, BodyBytes(m.framing, ""), rest);
  }

  function Wire(messages: seq<Message>): string {
    if messages == [] then "" else Bytes(messages[0], "") + Wire(messages[1..])
  }

  /** The responses at the front of a stream, as many as asked for. */
  function ResponsesOf(data: string, maximum: nat, count: nat): Option<(seq<(nat, string)>, string)>
    decreases count
  {
    if count == 0 then Some(([], data))
    else
      var first :- ResponseOf(data, maximum);
      var more :- ResponsesOf(first.rest, maximum, count - 1);
      Some(([(first.status, first.body)] + more.0, more.1))
  }

  function Contents(messages: seq<Message>): seq<(nat, string)> {
    seq(|messages|, k requires 0 <= k < |messages| => (messages[k].status, BodyText(messages[k].framing)))
  }

  /** Back-to-back messages on one connection decode independently. */
  lemma {:induction false} BackToBack(messages: seq<Message>, maximum: nat)
    requires forall k :: 0 <= k < |messages| ==> Legal(messages[k], maximum)
    ensures ResponsesOf(Wire(messages), maximum, |messages|) == Some((Contents(messages), ""))
    decreases |messages|
  {
    hide ResponseOf, Legal, Bytes;
    if messages == [] {
      assert Contents(messages) == [];
    } else {
      var m, more := messages[0], messages[1..];
      BytesEnd(m, Wire(more));
      RoundTrip(m, Wire(more), maximum);
      BackToBack(more, maximum);
      assert Contents(messages) == [(m.status, BodyText(m.framing))] + Contents(more);
    }
  }
}
