/** Byte streams read line by line or in pieces; a byte is the character with its code. */
module Streams {

  /** Length of the first line with its terminator; the last line may lack one. */
  function FirstLine(data: string): (n: nat)
    ensures n <= |data| && (data != [] ==> n > 0)
    ensures forall k :: 0 <= k < n - 1 ==> data[k] != '\n'
    ensures n < |data| ==> n > 0 && data[n - 1] == '\n'
  {
    if data == [] then 0
    else if data[0] == '\n' then 1
    else 1 + FirstLine(data[1..])
  }

  /** A byte stream that hands out at most one line, or as much of it as was asked for. */
  class Stream {
    var rest: string
    /** The longest piece handed out so far. */
    var longest: nat
    /** How many bytes each coming read hands out at most. */
    var portions: seq<nat>

    constructor (data: string, portions: seq<nat>)
      ensures rest == data && longest == 0
    {
      rest, longest, this.portions := data, 0, portions;
    }

    method ReadLine(limit: nat) returns (piece: string)
      modifies this`rest, this`longest
      ensures piece + rest == old(rest)
      ensures |piece| == if FirstLine(old(rest)) <= limit then FirstLine(old(rest)) else limit
      ensures longest == if |piece| > old(longest) then |piece| else old(longest)
    {
      var n := 0;
      while n < limit && n < |rest| && (n == 0 || rest[n - 1] != '\n')
        invariant n <= limit && n <= |rest|
        invariant forall k :: 0 <= k < n - 1 ==> rest[k] != '\n'
      {
        n := n + 1;
      }
      LineEnd(rest, n, limit);
      piece := rest[..n];
      rest := rest[n..];
      if n > longest { longest := n; }
    }

    /** A read may return fewer bytes than asked for, but none only at the end of the stream. */
    method Read(limit: nat) returns (piece: string)
      modifies this
      ensures piece + rest == old(rest)
      ensures |piece| <= limit
      ensures piece == "" ==> limit == 0 || rest == ""
    {
      var n := if limit <= |rest| then limit else |rest|;
      if portions != [] {
        if 0 < portions[0] < n { n := portions[0]; }
        portions := portions[1..];
      }
      piece, rest := rest[..n], rest[n..];
      if n > longest { longest := n; }
    }
  }

  /** Nothing else than the first line has its length. */
  lemma LineLength(data: string, n: nat)
    requires n <= |data| && (data != [] ==> n > 0)
    requires forall k :: 0 <= k < n - 1 ==> data[k] != '\n'
    requires n < |data| ==> data[n - 1] == '\n'
    ensures n == FirstLine(data)
  {
  }

  lemma LineEnd(data: string, n: nat, limit: nat)
    requires n <= limit && n <= |data|
    requires forall k :: 0 <= k < n - 1 ==> data[k] != '\n'
    requires n == limit || n == |data| || (n > 0 && data[n - 1] == '\n')
    ensures n == if FirstLine(data) <= limit then FirstLine(data) else limit
  {
    if n < limit { LineLength(data, n); }
  }
}
