/** When a line is read and when it is refused: each outcome of the readers by the bytes
    of the stream alone. */
module LineOutcomes {
  import opened Wrappers
  import opened Words
  import opened Bytes
  import opened LineFraming

  lemma NoNewlineMeans(bytes: seq<Byte>)
    ensures NoNewline(bytes) <==> 10 !in bytes
  {
    assert forall i :: 0 <= i < LineEnd(bytes) ==> bytes[i] != 10;
  }

  /** A bounded read refuses a line as too long exactly if no newline is among the bytes it
      may take and more follow; it fails exactly if the stream breaks before that; an empty
      stream that was closed ends it, and one that was closed within a line cuts it off. */
  lemma BoundedRefusesExactly(stream: seq<Byte>, ending: Ending, most: nat, isText: seq<Byte> -> bool)
    ensures var outcome := FirstLine(stream, ending, most, isText);
            && (outcome == TooLong <==> |stream| > most && 10 !in stream[..most])
            && (outcome == IoError <==> |stream| <= most && 10 !in stream && ending.Broken?)
            && (outcome == End <==> stream == [] && ending.Eof?)
            && (outcome == Truncated <==> 0 < |stream| <= most && 10 !in stream && ending.Eof?)
  {
    NoNewlineMeans(stream);
    var k := LineEnd(stream);
    if |stream| > most {
      if k < most { assert stream[..most][k] == 10; }
      else { assert forall i :: 0 <= i < most ==> stream[..most][i] == stream[i] != 10; }
    }
  }

  lemma FirstNewline(stream: seq<Byte>, k: nat)
    requires k < |stream| && stream[k] == 10 && 10 !in stream[..k]
    ensures LineEnd(stream) == k
  {
    NoNewlineMeans(stream[..k]);
    LineEndOfJoin(stream[..k], stream[k..]);
    assert stream == stream[..k] + stream[k..];
  }

  /** A line that is whole and short enough is refused exactly if it is no text. */
  lemma BoundedNotTextExactly(stream: seq<Byte>, ending: Ending, most: nat, isText: seq<Byte> -> bool)
    ensures FirstLine(stream, ending, most, isText) == NotText <==>
              exists k :: 0 <= k < |stream| && k < most && stream[k] == 10 && 10 !in stream[..k] && !isText(stream[..k + 1])
  {
    if k :| 0 <= k < |stream| && k < most && stream[k] == 10 && 10 !in stream[..k] && !isText(stream[..k + 1]) {
      FirstNewline(stream, k);
    }
    if FirstLine(stream, ending, most, isText) == NotText {
      assert 10 !in stream[..LineEnd(stream)];
    }
  }

  /** What is logged of a line: its first 16384 bytes, without a carriage return at their
      end. */
  lemma EntryExactly(content: seq<Byte>)
    ensures var kept := if |content| > 16384 then content[..16384] else content;
            LogEntry(content) ==
              LoggedLine(if kept != [] && kept[|kept| - 1] == 13 then kept[..|kept| - 1] else kept, |content| > 16384)
  {
  }

  /** Of the bytes after the last newline a log shows one more line exactly if the stream
      was closed, not broken, and there are any. */
  lemma LastLineExactly(content: seq<Byte>, ending: Ending)
    requires 10 !in content
    ensures LogLines(content, ending) == if content != [] && ending.Eof? then [LogEntry(content)] else []
    ensures FirstLogRead(content, ending) == if ending.Broken? then ReadError else if content == [] then NoMore else Logged(LogEntry(content))
  {
    NoNewlineMeans(content);
  }

  /** A read logs a line that its newline ends, however the stream goes on or ends. */
  lemma WholeLineIsLogged(content: seq<Byte>, rest: seq<Byte>, ending: Ending)
    requires 10 !in content
    ensures FirstLogRead(content + [10] + rest, ending) == Logged(LogEntry(content)) && AfterFirstLine(content + [10] + rest) == rest
  {
    NoNewlineMeans(content);
    NewlineEnds(content, rest);
  }
}
