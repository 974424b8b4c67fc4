/** Reading lines off a byte stream: however the stream is cut into chunks, the
    bounded readers and the log reader see the same lines. */
module LineFraming {
  import opened Wrappers
  import opened Words
  import opened Bytes

  const MAX_LOG_BYTES: nat := 16384
  const NEWLINE: Byte := 10
  const CARRIAGE_RETURN: Byte := 13

  // ----- Streams -------------------------------------------------------------

  function Flatten(chunks: seq<seq<Byte>>): seq<Byte> {
    if chunks == [] then [] else chunks[0] + Flatten(chunks[1..])
  }

  /** How a stream ends: closed by the peer, or broken. */
  datatype Ending = Eof | Broken

  /** A buffered reader: what is buffered comes in non-empty chunks of any size. */
  class ChunkReader {
    var chunks: seq<seq<Byte>>
    const ending: Ending

    ghost predicate Valid()
      reads this
    {
      forall i :: 0 <= i < |chunks| ==> chunks[i] != []
    }

    ghost function Rest(): seq<Byte>
      reads this
    {
      Flatten(chunks)
    }

    constructor (chunks: seq<seq<Byte>>, ending: Ending)
      requires forall i :: 0 <= i < |chunks| ==> chunks[i] != []
      ensures Valid() && Rest() == Flatten(chunks) && this.ending == ending
    {
      this.chunks, this.ending := chunks, ending;
    }

    /** The next chunk; empty at the end of the stream, none if it broke. */
    method FillBuffer() returns (available: Option<seq<Byte>>)
      requires Valid()
      ensures available.None? <==> Rest() == [] && ending.Broken?
      ensures available.Some? ==> available.value <= Rest() && (available.value == [] <==> Rest() == [])
      ensures available.Some? && available.value != [] ==> chunks != [] && available.value == chunks[0]
    {
      if chunks == [] {
        return if ending.Broken? then None else Some([]);
      }
      available := Some(chunks[0]);
    }

    method Consume(count: nat)
      requires Valid() && chunks != [] && count <= |chunks[0]|
      modifies this
      ensures Valid() && count <= |old(Rest())| && Rest() == old(Rest())[count..]
    {
      if count == |chunks[0]| {
        chunks := chunks[1..];
      } else {
        chunks := [chunks[0][count..]] + chunks[1..];
      }
    }

    /** One byte off an unbuffered stream; none at its end. */
    method ReadByte() returns (byte: Option<Byte>, broken: bool)
      requires Valid()
      modifies this
      ensures Valid()
      ensures old(Rest()) == [] ==> byte.None? && broken == ending.Broken? && Rest() == []
      ensures old(Rest()) != [] ==> byte == Some(old(Rest())[0]) && !broken && Rest() == old(Rest())[1..]
    {
      if chunks == [] {
        return None, ending.Broken?;
      }
      byte, broken := Some(chunks[0][0]), false;
      Consume(1);
    }
  }

  /** Where the first newline is, or the length. */
  function LineEnd(bytes: seq<Byte>): (k: nat)
    ensures k <= |bytes| && (k < |bytes| ==> bytes[k] == NEWLINE)
    ensures forall i :: 0 <= i < k ==> bytes[i] != NEWLINE
  {
    if bytes == [] || bytes[0] == NEWLINE then 0 else 1 + LineEnd(bytes[1..])
  }

  predicate NoNewline(bytes: seq<Byte>) {
    LineEnd(bytes) == |bytes|
  }

  lemma {:induction false} LineEndOfJoin(a: seq<Byte>, b: seq<Byte>)
    ensures LineEnd(a + b) == (if NoNewline(a) then |a| + LineEnd(b) else LineEnd(a))
    decreases |a|
  {
    if a == [] {
      assert a + b == b;
    } else {
      assert (a + b)[1..] == a[1..] + b;
      LineEndOfJoin(a[1..], b);
    }
  }

  method FindNewline(bytes: seq<Byte>) returns (position: Option<nat>)
    ensures position == (if NoNewline(bytes) then None else Some(LineEnd(bytes)))
  {
    for i := 0 to |bytes|
      invariant forall j :: 0 <= j < i ==> bytes[j] != NEWLINE
    {
      if bytes[i] == NEWLINE {
        return Some(i);
      }
    }
    position := None;
  }

  // ----- Bounded lines -------------------------------------------------------

  datatype Outcome = Line(bytes: seq<Byte>) | End | Truncated | TooLong | NotText | IoError

  function Text(isText: seq<Byte> -> bool, bytes: seq<Byte>): Outcome {
    if isText(bytes) then Line(bytes) else NotText
  }

  /** What one bounded read promises, whatever reads it: a line with its newline of
      at most `most` bytes, or why there is none. */
  function FirstLine(stream: seq<Byte>, ending: Ending, most: nat, isText: seq<Byte> -> bool): Outcome {
    var k := LineEnd(stream);
    if k < |stream| && k < most then Text(isText, stream[..k + 1])
    else if |stream| > most then TooLong
    else if ending.Broken? then IoError
    else if stream == [] then End
    else Truncated
  }

  lemma ByteDecides(stream: seq<Byte>, bytes: seq<Byte>, byte: Byte, rest: seq<Byte>)
    requires stream == bytes + ([byte] + rest) && NoNewline(bytes)
    ensures stream == (bytes + [byte]) + rest && LineEnd(stream) >= |bytes|
    ensures byte == NEWLINE ==> LineEnd(stream) == |bytes| && stream[..|bytes| + 1] == bytes + [byte]
    ensures byte != NEWLINE ==> NoNewline(bytes + [byte])
  {
    LineEndOfJoin(bytes, [byte] + rest);
    OneByte(byte, rest);
    LineEndOfJoin(bytes, [byte]);
    Cut(bytes, [byte] + rest, 1);
  }

  lemma OneByte(byte: Byte, rest: seq<Byte>)
    ensures LineEnd([byte] + rest) == 0 <==> byte == NEWLINE
    ensures NoNewline([byte]) <==> byte != NEWLINE
    ensures ([byte] + rest)[..1] == [byte]
  {
  }

  /** Byte by byte. */
  method ReadLineBytewise(reader: ChunkReader, most: nat, isText: seq<Byte> -> bool) returns (outcome: Outcome)
    requires reader.Valid()
    modifies reader
    ensures reader.Valid()
    ensures outcome == FirstLine(old(reader.Rest()), reader.ending, most, isText)
    ensures outcome.Line? ==> old(reader.Rest()) == outcome.bytes + reader.Rest()
  {
    var bytes: seq<Byte> := [];
    ghost var stream := reader.Rest();
    while true
      invariant reader.Valid() && stream == bytes + reader.Rest()
      invariant NoNewline(bytes) && |bytes| <= most
      decreases |reader.Rest()|
    {
      var byte, broken := reader.ReadByte();
      if byte.None? {
        assert bytes == stream;
        if broken {
          return IoError;
        }
        return if bytes == [] then End else Truncated;
      }
      ByteDecides(stream, bytes, byte.value, reader.Rest());
      bytes := bytes + [byte.value];
      if |bytes| > most {
        return TooLong;
      }
      if byte.value == NEWLINE {
        return Text(isText, bytes);
      }
    }
  }

  /** Takes what one chunk has of the line: it is done, or the line goes on. */
  method TakeChunk(reader: ChunkReader, bytes: seq<Byte>, chunk: seq<Byte>, most: nat, isText: seq<Byte> -> bool, ghost stream: seq<Byte>)
    returns (done: Option<Outcome>, more: seq<Byte>)
    requires reader.Valid() && reader.chunks != [] && chunk == reader.chunks[0] && chunk != []
    requires stream == bytes + reader.Rest() && NoNewline(bytes) && |bytes| <= most
    modifies reader
    ensures reader.Valid()
    ensures done.Some? ==> done.value == FirstLine(stream, reader.ending, most, isText)
    ensures done.Some? && done.value.Line? ==> stream == done.value.bytes + reader.Rest()
    ensures done.None? ==>
      && stream == more + reader.Rest() && NoNewline(more) && |more| <= most
      && |reader.Rest()| < |old(reader.Rest())|
  {
    var newline := FindNewline(chunk);
    ghost var rest := reader.Rest();
    var consumed := if newline.Some? then newline.value + 1 else |chunk|;
    ChunkOutcome(stream, bytes, chunk, rest, most);
    if |bytes| + consumed > most {
      return Some(TooLong), bytes;
    }
    more := bytes + chunk[..consumed];
    reader.Consume(consumed);
    done := if newline.Some? then Some(Text(isText, more)) else None;
  }

  lemma ChunkOutcome(stream: seq<Byte>, bytes: seq<Byte>, chunk: seq<Byte>, rest: seq<Byte>, most: nat)
    requires stream == bytes + rest && chunk <= rest && NoNewline(bytes) && |bytes| <= most
    ensures
      var consumed := if NoNewline(chunk) then |chunk| else LineEnd(chunk) + 1;
      && stream == (bytes + chunk[..consumed]) + rest[consumed..]
      && (|bytes| + consumed > most ==> |stream| > most && LineEnd(stream) >= most)
      && (!NoNewline(chunk) ==> LineEnd(stream) == |bytes| + consumed - 1 && stream[..LineEnd(stream) + 1] == bytes + chunk[..consumed])
      && (NoNewline(chunk) ==> NoNewline(bytes + chunk[..consumed]))
  {
    if NoNewline(chunk) {
      ChunkGoesOn(stream, bytes, chunk, rest);
    } else {
      ChunkEnds(stream, bytes, chunk, rest);
    }
  }

  lemma ChunkGoesOn(stream: seq<Byte>, bytes: seq<Byte>, chunk: seq<Byte>, rest: seq<Byte>)
    requires stream == bytes + rest && chunk <= rest && NoNewline(bytes) && NoNewline(chunk)
    ensures chunk[..|chunk|] == chunk && NoNewline(bytes + chunk) && stream == (bytes + chunk) + rest[|chunk|..]
    ensures LineEnd(stream) >= |bytes| + |chunk|
  {
    var tail := rest[|chunk|..];
    assert bytes + rest == (bytes + chunk) + tail;
    LineEndOfJoin(bytes, chunk);
    LineEndOfJoin(bytes + chunk, tail);
  }

  lemma ChunkEnds(stream: seq<Byte>, bytes: seq<Byte>, chunk: seq<Byte>, rest: seq<Byte>)
    requires stream == bytes + rest && chunk <= rest && NoNewline(bytes) && !NoNewline(chunk)
    ensures
      var k := LineEnd(chunk) + 1;
      && k <= |chunk| && stream == (bytes + chunk[..k]) + rest[k..]
      && LineEnd(stream) == |bytes| + k - 1 && stream[..LineEnd(stream) + 1] == bytes + chunk[..k]
  {
    var k := LineEnd(chunk) + 1;
    PrefixEnds(chunk, rest);
    LineEndOfJoin(bytes, rest);
    Cut(bytes, rest, k);
    Rejoin(bytes, rest, k);
  }

  lemma PrefixEnds(chunk: seq<Byte>, rest: seq<Byte>)
    requires chunk <= rest && !NoNewline(chunk)
    ensures LineEnd(rest) == LineEnd(chunk) && rest[..LineEnd(chunk) + 1] == chunk[..LineEnd(chunk) + 1]
  {
    assert rest == chunk + rest[|chunk|..];
    LineEndOfJoin(chunk, rest[|chunk|..]);
  }

  lemma Rejoin(a: seq<Byte>, b: seq<Byte>, k: nat)
    requires k <= |b|
    ensures a + b == (a + b[..k]) + b[k..]
  {
  }

  /** Chunk by chunk. */
  method ReadBoundedLine(reader: ChunkReader, most: nat, isText: seq<Byte> -> bool) returns (outcome: Outcome)
    requires reader.Valid()
    modifies reader
    ensures reader.Valid()
    ensures outcome == FirstLine(old(reader.Rest()), reader.ending, most, isText)
    ensures outcome.Line? ==> old(reader.Rest()) == outcome.bytes + reader.Rest()
  {
    var bytes: seq<Byte> := [];
    ghost var stream := reader.Rest();
    while true
      invariant reader.Valid() && stream == bytes + reader.Rest()
      invariant NoNewline(bytes) && |bytes| <= most
      decreases |reader.Rest()|
    {
      var available := reader.FillBuffer();
      if available.None? {
        assert bytes == stream;
        return IoError;
      }
      if available.value == [] {
        assert bytes == stream;
        return if bytes == [] then End else Truncated;
      }
      var done, more := TakeChunk(reader, bytes, available.value, most, isText, stream);
      if done.Some? {
        return done.value;
      }
      bytes := more;
    }
  }

  /** A line read by either reader is the first of the stream, whole and no longer
      than allowed; and if there is such a line, both read it. */
  lemma LinesAreFirstAndWhole(stream: seq<Byte>, ending: Ending, most: nat, isText: seq<Byte> -> bool, line: seq<Byte>)
    ensures FirstLine(stream, ending, most, isText) == Line(line) <==>
      && line <= stream && 0 < |line| <= most && line[|line| - 1] == NEWLINE && NoNewline(line[..|line| - 1]) && isText(line)
  {
    if FirstLine(stream, ending, most, isText) == Line(line) {
      assert line == stream[..LineEnd(stream) + 1];
      assert line[..|line| - 1] == stream[..LineEnd(stream)];
    }
    if line <= stream && 0 < |line| && line[|line| - 1] == NEWLINE && NoNewline(line[..|line| - 1]) {
      WholeLine(stream, line);
    }
  }

  lemma WholeLine(stream: seq<Byte>, line: seq<Byte>)
    requires line <= stream && 0 < |line| && line[|line| - 1] == NEWLINE && NoNewline(line[..|line| - 1])
    ensures LineEnd(stream) == |line| - 1 && stream[..|line|] == line
  {
    var n := |line| - 1;
    assert stream == line[..n] + ([NEWLINE] + stream[|line|..]);
    LineEndOfJoin(line[..n], [NEWLINE] + stream[|line|..]);
  }

  // ----- Log lines -----------------------------------------------------------

  /** A line for the log: at most 16384 bytes of it, and whether that was not all. */
  datatype LoggedLine = LoggedLine(bytes: seq<Byte>, truncated: bool)

  datatype Partial = Partial(bytes: seq<Byte>, seen: bool, truncated: bool)

  const NOTHING: Partial := Partial([], false, false)

  /** Consumes the content of one chunk up to its newline. */
  function ConsumeContent(p: Partial, content: seq<Byte>, any: bool): Partial
    requires |p.bytes| <= MAX_LOG_BYTES
  {
    var retained := if |content| < MAX_LOG_BYTES - |p.bytes| then |content| else MAX_LOG_BYTES - |p.bytes|;
    Partial(p.bytes + content[..retained], p.seen || any, p.truncated || retained != |content|)
  }

  function Kept(content: seq<Byte>): seq<Byte> {
    if |content| <= MAX_LOG_BYTES then content else content[..MAX_LOG_BYTES]
  }

  /** What has been consumed of a line, whatever pieces it came in. */
  predicate Holds(p: Partial, content: seq<Byte>, any: bool) {
    p == Partial(Kept(content), any, |content| > MAX_LOG_BYTES)
  }

  lemma ConsumeHolds(p: Partial, content: seq<Byte>, any: bool, piece: seq<Byte>, more: bool)
    requires Holds(p, content, any)
    ensures Holds(ConsumeContent(p, piece, more), content + piece, any || more)
  {
    if |content| <= MAX_LOG_BYTES {
      var retained := if |piece| < MAX_LOG_BYTES - |content| then |piece| else MAX_LOG_BYTES - |content|;
      assert content + piece[..retained] == Kept(content + piece);
    } else {
      assert Kept(content) + piece[..0] == Kept(content + piece);
    }
  }

  function ConsumeAll(p: Partial, pieces: seq<seq<Byte>>): Partial
    requires |p.bytes| <= MAX_LOG_BYTES
    decreases |pieces|
  {
    if pieces == [] then p else ConsumeAll(ConsumeContent(p, pieces[0], true), pieces[1..])
  }

  /** Cutting a line differently changes nothing: its first 16384 bytes are kept, and
      it counts as truncated exactly when it was longer. */
  lemma {:induction false} ConsumeIsChunkIndependent(content: seq<Byte>, any: bool, p: Partial, pieces: seq<seq<Byte>>)
    requires Holds(p, content, any)
    ensures Holds(ConsumeAll(p, pieces), content + Flatten(pieces), any || pieces != [])
    decreases |pieces|
  {
    if pieces == [] {
      assert content + Flatten(pieces) == content;
    } else {
      ConsumeHolds(p, content, any, pieces[0], true);
      ConsumeIsChunkIndependent(content + pieces[0], true, ConsumeContent(p, pieces[0], true), pieces[1..]);
      assert content + pieces[0] + Flatten(pieces[1..]) == content + Flatten(pieces);
    }
  }

  /** The line as it is logged, without the carriage return that may end it. */
  function Finished(p: Partial): Option<LoggedLine> {
    if !p.seen then None
    else if p.bytes != [] && p.bytes[|p.bytes| - 1] == CARRIAGE_RETURN
    then Some(LoggedLine(p.bytes[..|p.bytes| - 1], p.truncated))
    else Some(LoggedLine(p.bytes, p.truncated))
  }

  function LogEntry(content: seq<Byte>): LoggedLine {
    Finished(Partial(Kept(content), true, |content| > MAX_LOG_BYTES)).value
  }

  /** Every line of a stream as the log shows it. The last may lack its newline, but
      is lost when the stream breaks. */
  function LogLines(stream: seq<Byte>, ending: Ending): seq<LoggedLine>
    decreases |stream|
  {
    var k := LineEnd(stream);
    if k < |stream| then [LogEntry(stream[..k])] + LogLines(stream[k + 1..], ending)
    else if stream == [] || ending.Broken? then []
    else [LogEntry(stream)]
  }

  class LogLine {
    var bytes: seq<Byte>
    var seen: bool
    var truncated: bool

    function State(): Partial
      reads this
    {
      Partial(bytes, seen, truncated)
    }

    constructor ()
      ensures State() == NOTHING
    {
      bytes, seen, truncated := [], false, false;
    }

    /** At most the first newline is consumed; excess content is dropped, not kept. */
    method Consume(available: seq<Byte>) returns (consumed: nat, finished: bool)
      requires |bytes| <= MAX_LOG_BYTES
      modifies this
      ensures State() == ConsumeContent(old(State()), available[..LineEnd(available)], available != [])
      ensures |bytes| <= MAX_LOG_BYTES
      ensures finished == !NoNewline(available)
      ensures consumed == LineEnd(available) + (if finished then 1 else 0)
    {
      var newline := FindNewline(available);
      var content := if newline.Some? then newline.value else |available|;
      var retained := if content < MAX_LOG_BYTES - |bytes| then content else MAX_LOG_BYTES - |bytes|;
      assert available[..content][..retained] == available[..retained];
      bytes := bytes + available[..retained];
      truncated := truncated || retained != content;
      seen := seen || available != [];
      consumed := content + if newline.Some? then 1 else 0;
      finished := newline.Some?;
    }

    method Finish() returns (text: Option<LoggedLine>)
      modifies this
      ensures text == Finished(old(State()))
    {
      if !seen {
        return None;
      }
      if bytes != [] && bytes[|bytes| - 1] == CARRIAGE_RETURN {
        bytes := bytes[..|bytes| - 1];
      }
      text := Some(LoggedLine(bytes, truncated));
    }
  }

  /** What one read returns: a line, nothing at the end of the stream, or an error. */
  datatype LogRead = Logged(line: LoggedLine) | NoMore | ReadError

  function FirstLogRead(stream: seq<Byte>, ending: Ending): LogRead {
    if !NoNewline(stream) then Logged(LogEntry(stream[..LineEnd(stream)]))
    else if ending.Broken? then ReadError
    else if stream == [] then NoMore
    else Logged(LogEntry(stream))
  }

  function AfterFirstLine(stream: seq<Byte>): seq<Byte> {
    if NoNewline(stream) then [] else stream[LineEnd(stream) + 1..]
  }

  /** Feeds one chunk to the line; says whether it ended there. */
  method FeedChunk(reader: ChunkReader, line: LogLine, chunk: seq<Byte>, ghost content: seq<Byte>, ghost stream: seq<Byte>)
    returns (finished: bool)
    requires reader.Valid() && reader.chunks != [] && chunk == reader.chunks[0] && chunk != []
    requires stream == content + reader.Rest() && NoNewline(content) && Holds(line.State(), content, content != [])
    modifies reader, line
    ensures reader.Valid() && finished == !NoNewline(chunk)
    ensures Holds(line.State(), content + chunk[..LineEnd(chunk)], true)
    ensures finished ==>
      !NoNewline(stream) && stream[..LineEnd(stream)] == content + chunk[..LineEnd(chunk)] && reader.Rest() == AfterFirstLine(stream)
    ensures !finished ==>
      && stream == content + chunk + reader.Rest() && NoNewline(content + chunk)
      && |reader.Rest()| < |old(reader.Rest())|
  {
    ghost var rest := reader.Rest();
    ConsumeHolds(line.State(), content, content != [], chunk[..LineEnd(chunk)], true);
    var consumed, ended := line.Consume(chunk);
    reader.Consume(consumed);
    finished := ended;
    ChunkSplits(stream, content, chunk, rest);
  }

  lemma ChunkSplits(stream: seq<Byte>, content: seq<Byte>, chunk: seq<Byte>, rest: seq<Byte>)
    requires stream == content + rest && chunk <= rest && NoNewline(content)
    ensures !NoNewline(chunk) ==>
      && !NoNewline(stream) && stream[..LineEnd(stream)] == content + chunk[..LineEnd(chunk)]
      && AfterFirstLine(stream) == rest[LineEnd(chunk) + 1..]
    ensures NoNewline(chunk) ==> stream == content + chunk + rest[|chunk|..] && NoNewline(content + chunk)
  {
    if NoNewline(chunk) {
      ChunkGoesOn(stream, content, chunk, rest);
    } else {
      PrefixEnds(chunk, rest);
      LineEndOfJoin(content, rest);
      Cut(content, rest, LineEnd(chunk));
      Cut(content, rest, LineEnd(chunk) + 1);
      assert chunk[..LineEnd(chunk)] == rest[..LineEnd(chunk)];
    }
  }

  lemma Cut(a: seq<Byte>, b: seq<Byte>, k: nat)
    requires k <= |b|
    ensures (a + b)[..|a| + k] == a + b[..k] && (a + b)[|a| + k..] == b[k..]
  {
  }

  method ReadCoreOutputLine(reader: ChunkReader) returns (read: LogRead)
    requires reader.Valid()
    modifies reader
    ensures reader.Valid()
    ensures read == FirstLogRead(old(reader.Rest()), reader.ending) && reader.Rest() == AfterFirstLine(old(reader.Rest()))
  {
    var line := new LogLine();
    ghost var stream := reader.Rest();
    ghost var content: seq<Byte> := [];
    while true
      invariant reader.Valid() && fresh(line)
      invariant stream == content + reader.Rest() && NoNewline(content)
      invariant Holds(line.State(), content, content != [])
      decreases |reader.Rest()|
    {
      var available := reader.FillBuffer();
      if available.None? {
        assert content == stream;
        return ReadError;
      }
      var chunk := available.value;
      if chunk == [] {
        assert content == stream;
        var last := line.Finish();
        return if last.None? then NoMore else Logged(last.value);
      }
      var finished := FeedChunk(reader, line, chunk, content, stream);
      if finished {
        var whole := line.Finish();
        return Logged(whole.value);
      }
      assert chunk[..LineEnd(chunk)] == chunk;
      content := content + chunk;
    }
  }

  /** The whole output, line by line: what is logged depends on the bytes alone. */
  method LogCoreOutput(reader: ChunkReader) returns (lines: seq<LoggedLine>)
    requires reader.Valid()
    modifies reader
    ensures reader.Valid() && lines == LogLines(old(reader.Rest()), reader.ending)
  {
    lines := [];
    ghost var stream := reader.Rest();
    while true
      invariant reader.Valid()
      invariant LogLines(stream, reader.ending) == lines + LogLines(reader.Rest(), reader.ending)
      decreases |reader.Rest()|
    {
      ghost var rest := reader.Rest();
      var read := ReadCoreOutputLine(reader);
      if !read.Logged? {
        return;
      }
      assert LogLines(rest, reader.ending) == [read.line] + LogLines(reader.Rest(), reader.ending);
      lines := lines + [read.line];
    }
  }

  /** For every line the log shows its first 16384 bytes, and says truncated exactly
      when the line was longer. */
  lemma {:induction false} LogShowsEveryLine(content: seq<Byte>, rest: seq<Byte>, ending: Ending)
    requires NoNewline(content)
    ensures LogLines(content + [NEWLINE] + rest, ending) == [LogEntry(content)] + LogLines(rest, ending)
    ensures LogEntry(content).truncated <==> |content| > MAX_LOG_BYTES
    ensures LogEntry(content).bytes == Kept(content) || LogEntry(content).bytes + [CARRIAGE_RETURN] == Kept(content)
  {
    var stream := content + [NEWLINE] + rest;
    NewlineEnds(content, rest);
    EntryKeeps(content);
    assert LogLines(stream, ending) == [LogEntry(stream[..|content|])] + LogLines(stream[|content| + 1..], ending);
  }

  lemma NewlineEnds(content: seq<Byte>, rest: seq<Byte>)
    requires NoNewline(content)
    ensures
      var stream := content + [NEWLINE] + rest;
      LineEnd(stream) == |content| && stream[..|content|] == content && stream[|content| + 1..] == rest
  {
    LineEndOfJoin(content, [NEWLINE] + rest);
    assert content + [NEWLINE] + rest == content + ([NEWLINE] + rest);
  }

  lemma EntryKeeps(content: seq<Byte>)
    ensures LogEntry(content).truncated <==> |content| > MAX_LOG_BYTES
    ensures LogEntry(content).bytes == Kept(content) || LogEntry(content).bytes + [CARRIAGE_RETURN] == Kept(content)
  {
  }
}
