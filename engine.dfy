/**
 * The bridge to the move-search engine process: its standard output arrives
 * in arbitrary chunks, which a carry-over buffer cuts into complete lines;
 * commands go to its standard input as newline-terminated text.
 */
module Engine {
  import opened Text

  /** Lines, each followed by a line feed, glued together. */
  function Terminated(lines: seq<string>): string {
    if |lines| == 0 then "" else lines[0] + "\n" + Terminated(lines[1..])
  }

  lemma {:induction false} TerminatedAppend(lines: seq<string>, more: seq<string>)
    ensures Terminated(lines + more) == Terminated(lines) + Terminated(more)
  {
    if |lines| == 0 {
      assert lines + more == more;
    } else {
      assert (lines + more)[1..] == lines[1..] + more;
      TerminatedAppend(lines[1..], more);
    }
  }

  /** `Join` of a split is the complete lines, each terminated, then the unfinished last piece. */
  lemma {:induction false} JoinIsTerminated(parts: seq<string>)
    requires |parts| >= 1
    ensures Join(parts, '\n') == Terminated(parts[..|parts| - 1]) + parts[|parts| - 1]
  {
    if |parts| > 1 {
      JoinIsTerminated(parts[1..]);
      assert parts[1..][..|parts| - 2] == parts[..|parts| - 1][1..];
    }
  }

  /** The complete lines cut out of the buffer, and what is carried over. */
  datatype Chunked = Chunked(lines: seq<string>, rest: string)

  /**
   * The buffer step of the `data` handler: append the chunk, split on line
   * feeds and carry the last piece over. Nothing is lost or reordered: the
   * terminated lines followed by the carry-over are the old buffer followed
   * by the chunk; no line and no carry-over holds a line feed.
   */
  function SplitChunk(buffer: string, data: string): (c: Chunked)
    ensures Terminated(c.lines) + c.rest == buffer + data
    ensures '\n' !in c.rest
    ensures forall i :: 0 <= i < |c.lines| ==> '\n' !in c.lines[i]
  {
    var parts := Split(buffer + data, '\n');
    JoinIsTerminated(parts);
    Chunked(parts[..|parts| - 1], parts[|parts| - 1])
  }

  /** A chunk without a line feed, on a buffer without one, only grows the buffer. */
  lemma NoLineFeedNoLines(buffer: string, data: string)
    requires '\n' !in buffer && '\n' !in data
    ensures SplitChunk(buffer, data) == Chunked([], buffer + data)
  {
    SplitNoSep(buffer + data, '\n');
  }

  /** Cutting a chunk keeps "terminated lines, then buffer" equal to all data received. */
  lemma ChunkKeepsStream(lines: seq<string>, buffer: string, received: string, data: string)
    requires Terminated(lines) + buffer == received
    ensures Terminated(lines + SplitChunk(buffer, data).lines) + SplitChunk(buffer, data).rest == received + data
  {
    var c := SplitChunk(buffer, data);
    TerminatedAppend(lines, c.lines);
    Regroup(Terminated(lines), Terminated(c.lines), c.rest, buffer, data);
  }

  /** Associativity of concatenation, in the shape `ChunkKeepsStream` needs. */
  lemma Regroup(a: string, b: string, r: string, x: string, y: string)
    requires b + r == x + y
    ensures (a + b) + r == (a + x) + y
  {
    calc {
      (a + b) + r;
      a + (b + r);
      a + (x + y);
      (a + x) + y;
    }
  }

  /** The lines the handler reports as the engine's best move, in order. */
  function BestMoveLines(lines: seq<string>): seq<string> {
    if |lines| == 0 then []
    else
      var last := lines[|lines| - 1];
      BestMoveLines(lines[..|lines| - 1]) + (if StartsWith(last, "bestmove") then [last] else [])
  }

  /** A line is reported exactly when it is one of the lines and starts with `bestmove`. */
  lemma {:induction false} BestMoveLinesExactly(lines: seq<string>, line: string)
    ensures line in BestMoveLines(lines) <==> line in lines && StartsWith(line, "bestmove")
  {
    if |lines| > 0 {
      BestMoveLinesExactly(lines[..|lines| - 1], line);
      assert lines == lines[..|lines| - 1] + [lines[|lines| - 1]];
    }
  }

  /** Decimal digit character of `d < 10`. */
  function DigitChar(d: nat): char
    requires d < 10
  {
    ['0', '1', '2', '3', '4', '5', '6', '7', '8', '9'][d]
  }

  /** How a non-negative integer is written by `String(n)`: decimal, no leading zero. */
  function NatToString(n: nat): (s: string)
    ensures |s| >= 1 && (forall i :: 0 <= i < |s| ==> IsDigit(s[i]))
    ensures |s| > 1 ==> s[0] != '0'
  {
    if n < 10 then [DigitChar(n)] else NatToString(n / 10) + [DigitChar(n % 10)]
  }

  /** How an integer is written by `String(n)`. */
  function IntToString(n: int): string {
    if n < 0 then "-" + NatToString(-n) else NatToString(n)
  }

  /** The value of a string of decimal digits. */
  function DecimalValue(s: string): nat
    requires forall i :: 0 <= i < |s| ==> IsDigit(s[i])
  {
    if |s| == 0 then 0
    else
      var last := s[|s| - 1];
      assert IsDigit(last);
      10 * DecimalValue(s[..|s| - 1]) + ((last as int) - ('0' as int))
  }

  /** Reading back the written decimal gives the number. */
  lemma {:induction false} NatToStringRoundTrip(n: nat)
    ensures DecimalValue(NatToString(n)) == n
  {
    if n >= 10 {
      NatToStringRoundTrip(n / 10);
      var s := NatToString(n);
      assert s[..|s| - 1] == NatToString(n / 10);
    }
  }

  /** The engine process as seen by the server. */
  class Stockfish {
    /** The unfinished last line of the output so far. */
    var buffer: string
    /** Best-move lines reported so far; the handler only logs them. */
    var reported: seq<string>
    /** Everything written to the engine's standard input, one entry per write. */
    var written: seq<string>
    /** All output data received so far. */
    ghost var received: string
    /** Every complete line handed to the handler's loop so far. */
    ghost var lines: seq<string>

    ghost predicate Valid()
      reads this
    {
      Terminated(lines) + buffer == received && '\n' !in buffer
    }

    constructor ()
      ensures Valid()
      ensures buffer == "" && received == "" && lines == [] && reported == [] && written == []
    {
      buffer, reported, written := "", [], [];
      received, lines := "", [];
    }

    /**
     * The `data` handler: the complete lines of the old buffer plus the
     * chunk are handed on, best-move lines reported, the rest carried over.
     */
    method OnData(data: string)
      requires Valid()
      modifies this
      ensures Valid()
      ensures received == old(received) + data
      ensures lines == old(lines) + SplitChunk(old(buffer), data).lines
      ensures buffer == SplitChunk(old(buffer), data).rest
      ensures reported == old(reported) + BestMoveLines(SplitChunk(old(buffer), data).lines)
      ensures written == old(written)
    {
      var chunked := SplitChunk(buffer, data);
      buffer := chunked.rest;
      var newLines := chunked.lines;
      var reports := reported;
      var i := 0;
      while i < |newLines|
        invariant 0 <= i <= |newLines|
        invariant reports == old(reported) + BestMoveLines(newLines[..i])
      {
        var line := newLines[i];
        assert newLines[..i + 1][..i] == newLines[..i];
        if StartsWith(line, "bestmove") {
          reports := reports + [line];
        }
        i := i + 1;
      }
      reported := reports;
      assert newLines[..i] == newLines;
      ChunkKeepsStream(lines, old(buffer), received, data);
      lines, received := lines + newLines, received + data;
    }

    /** `write`: the query followed by a line feed. */
    method Write(query: string)
      modifies this
      ensures written == old(written) + [query + "\n"]
      ensures buffer == old(buffer) && reported == old(reported)
      ensures received == old(received) && lines == old(lines)
    {
      written := written + [query + "\n"];
    }

    /** `setDifficulty`: sets the engine's skill level option. */
    method SetDifficulty(level: int)
      modifies this
      ensures written == old(written) + ["setoption name Skill Level value " + IntToString(level) + "\n"]
      ensures buffer == old(buffer) && reported == old(reported)
      ensures received == old(received) && lines == old(lines)
    {
      Write("setoption name Skill Level value " + IntToString(level));
    }

    /** `setPosition`: a `position` command. */
    method SetPosition(position: string)
      modifies this
      ensures written == old(written) + ["position " + position + "\n"]
      ensures buffer == old(buffer) && reported == old(reported)
      ensures received == old(received) && lines == old(lines)
    {
      Write("position " + position);
    }

    /** `loadFen`: a `position fen` command. */
    method LoadFen(fen: string)
      modifies this
      ensures written == old(written) + ["position fen " + fen + "\n"]
      ensures buffer == old(buffer) && reported == old(reported)
      ensures received == old(received) && lines == old(lines)
    {
      SetPosition("fen " + fen);
      assert "position " + ("fen " + fen) == "position fen " + fen;
    }
  }
}
