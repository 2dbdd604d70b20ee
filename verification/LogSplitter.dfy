/** Splitting a log stream into records without ever holding more than a bounded line. */
module LogSplitter {
  import opened Streams

  const MaxRecord: nat := 64 * 1024

  /** One log record: its bytes without line terminators, or the mark of a line that was too long. */
  datatype Record = Text(text: string) | Dropped

  // ---------------------------------------------------------------- the plain meaning

  function Stripped(line: string): (s: string)
    ensures s <= line
    ensures s == [] || (s[|s| - 1] != '\n' && s[|s| - 1] != '\r')
    ensures forall k :: |s| <= k < |line| ==> line[k] == '\n' || line[k] == '\r'
  {
    if line != [] && (line[|line| - 1] == '\n' || line[|line| - 1] == '\r') then Stripped(line[..|line| - 1])
    else line
  }

  function RecordOf(line: string): Record {
    if |line| <= MaxRecord then Text(Stripped(line)) else Dropped
  }

  /** One record per line. */
  function Records(data: string): seq<Record> {
    if data == [] then []
    else [RecordOf(data[..FirstLine(data)])] + Records(data[FirstLine(data)..])
  }

  // ---------------------------------------------------------------- what a line is

  function Lines(data: string): seq<string> {
    if data == [] then [] else [data[..FirstLine(data)]] + Lines(data[FirstLine(data)..])
  }

  function Joined(lines: seq<string>): string {
    if lines == [] then [] else lines[0] + Joined(lines[1..])
  }

  /** Not empty, and no line feed inside; all but the last line end with one. */
  predicate IsLine(line: string, last: bool) {
    && line != []
    && (forall k :: 0 <= k < |line| - 1 ==> line[k] != '\n')
    && (!last ==> line[|line| - 1] == '\n')
  }

  /** The lines cut the data up completely, */
  lemma {:induction false} LinesCutUp(data: string)
    ensures Joined(Lines(data)) == data
    ensures forall k :: 0 <= k < |Lines(data)| ==> IsLine(Lines(data)[k], k == |Lines(data)| - 1)
    decreases |data|
  {
    if data != [] {
      var first, rest := data[..FirstLine(data)], data[FirstLine(data)..];
      LinesCutUp(rest);
      assert IsLine(first, rest == []);
      hide FirstLine;
      assert Lines(data) == [first] + Lines(rest);
      assert Lines(data)[1..] == Lines(rest);
      assert data == first + rest;
    }
  }

  /** A line of more than 64 KiB is dropped; any other is read without the line terminators at its end. */
  predicate IsReading(line: string, record: Record) {
    if |line| > 65536 then record == Dropped
    else
      && record.Text?
      && record.text <= line
      && (record.text == [] || (record.text[|record.text| - 1] != '\n' && record.text[|record.text| - 1] != '\r'))
      && forall k :: |record.text| <= k < |line| ==> line[k] == '\n' || line[k] == '\r'
  }

  /** and each record is the reading of its line. */
  lemma {:induction false} RecordsPerLine(data: string)
    ensures |Records(data)| == |Lines(data)|
    ensures forall k :: 0 <= k < |Lines(data)| ==> IsReading(Lines(data)[k], Records(data)[k])
    decreases |data|
  {
    hide FirstLine, RecordOf, IsReading;
    if data != [] {
      RecordsPerLine(data[FirstLine(data)..]);
      ReadingOf(data[..FirstLine(data)]);
    }
  }

  lemma ReadingOf(line: string)
    ensures IsReading(line, RecordOf(line))
  {
  }

  // ---------------------------------------------------------------- the bounded reader

  /** Reading a piece of a line: either the line ended with it, or the same line goes on. */
  lemma LineContinues(data: string, n: nat)
    requires 0 < n <= FirstLine(data)
    ensures if data[n - 1] == '\n' then n == FirstLine(data) else FirstLine(data[n..]) == FirstLine(data) - n
  {
    if data[n - 1] == '\n' { LineLength(data, n); } else { LineLength(data[n..], FirstLine(data) - n); }
  }

  /** What follows the line of which this was the last piece read. */
  function AfterLine(piece: string, rest: string): string {
    if piece == [] || piece[|piece| - 1] == '\n' then rest else rest[FirstLine(rest)..]
  }

  lemma AfterPiece(data: string, n: nat)
    requires n <= FirstLine(data) && (data != [] ==> n > 0)
    ensures AfterLine(data[..n], data[n..]) == data[FirstLine(data)..]
  {
    if n > 0 { LineContinues(data, n); }
  }

  function Larger(a: nat, b: nat): nat {
    if a > b then a else b
  }

  /** Skip what is left of a line that was already too long. */
  method SkipLine(stream: Stream, first: string)
    modifies stream
    ensures stream.rest == AfterLine(first, old(stream.rest))
    ensures stream.longest <= Larger(old(stream.longest), MaxRecord + 1)
  {
    hide FirstLine;
    var piece := first;
    while piece != [] && piece[|piece| - 1] != '\n'
      invariant AfterLine(piece, stream.rest) == AfterLine(first, old(stream.rest))
      invariant stream.longest <= Larger(old(stream.longest), MaxRecord + 1)
      decreases |stream.rest|, |piece|
    {
      ghost var data := stream.rest;
      piece := stream.ReadLine(MaxRecord + 1);
      assert piece == data[..|piece|] && stream.rest == data[|piece|..];
      AfterPiece(data, |piece|);
    }
  }

  /** Split a stream into records; what it yields is what plain line splitting yields, in bounded memory. */
  method BoundedRecords(stream: Stream) returns (records: seq<Record>)
    modifies stream
    ensures records == Records(old(stream.rest)) && stream.rest == []
    ensures stream.longest <= Larger(old(stream.longest), 65537)
  {
    hide FirstLine, Records, Stripped, RecordOf, AfterLine;
    records := [];
    while true
      invariant records + Records(stream.rest) == Records(old(stream.rest))
      invariant stream.longest <= Larger(old(stream.longest), MaxRecord + 1)
      decreases |stream.rest|
    {
      ghost var data := stream.rest;
      var piece := stream.ReadLine(MaxRecord + 1);
      assert piece == data[..|piece|] && stream.rest == data[|piece|..];
      RecordsUnfold(data);
      if piece == [] { return; }
      PieceDecides(data, |piece|);
      AfterPiece(data, |piece|);
      var record := Text(Stripped(piece));
      if |piece| > MaxRecord {
        SkipLine(stream, piece);
        record := Dropped;
      }
      assert stream.rest == data[FirstLine(data)..] && record == RecordOf(data[..FirstLine(data)]);
      OneMore(records, record, Records(stream.rest));
      records := records + [record];
    }
  }

  /** How much of the line came at once decides its record. */
  lemma PieceDecides(data: string, n: nat)
    requires 0 < n <= FirstLine(data)
              && n == (if FirstLine(data) <= MaxRecord + 1 then FirstLine(data) else MaxRecord + 1)
    ensures if n > MaxRecord then RecordOf(data[..FirstLine(data)]) == Dropped
            else
              && n == FirstLine(data)
              && AfterLine(data[..n], data[n..]) == data[n..]
              && RecordOf(data[..n]) == Text(Stripped(data[..n]))
  {
    if n <= MaxRecord { AfterPiece(data, n); }
  }

  lemma OneMore(records: seq<Record>, next: Record, more: seq<Record>)
    ensures records + ([next] + more) == (records + [next]) + more
  {
  }

  lemma RecordsUnfold(data: string)
    ensures Records(data) == if data == [] then []
              else [RecordOf(data[..FirstLine(data)])] + Records(data[FirstLine(data)..])
  {
  }
}
