/** The Channel base class itself: its fields, updated in place by its
    methods, each method proved to do what the matching function of
    ChannelSpec says. */
module ChannelImpl {
  import opened ChannelTypes
  import opened ReadLoop
  import opened ChannelSpec

  /** Each method mirrors the ChannelSpec function of the same name
      statement by statement; its ensures says the two agree. */
  class Channel {
    /** The access mode (the low byte of TclIO's mode flags); never changes. */
    const mode: bv8
    /** Whether getChanType() is "file", which makes the output stage sync. */
    const isFile: bool
    /** EncodingCmd.getBytesPerChar, the bytes-per-character table. */
    const bytesPerCharOf: string -> int

    var blocking: bool
    var buffering: int
    var bufferSize: int
    var encoding: Option<string>
    var bytesPerChar: int
    var inputTranslation: int
    var outputTranslation: int
    var inputEofChar: JChar
    var outputEofChar: JChar
    var eofSeen: bool
    /** eofInputFilter … eolInputFilter, finalReader and finalInputStream. */
    var input: InputPipeline
    /** The TclOutputStream, or null. */
    var output: Option<OutputStage>

    /** The fields as one value. */
    function State(): ChannelState
      reads this
    {
      ChannelState(mode, blocking, buffering, bufferSize, encoding, bytesPerChar, inputTranslation,
                   outputTranslation, inputEofChar, outputEofChar, eofSeen, input, output)
    }

    ghost predicate Valid()
      reads this
    {
      ChannelSpec.Valid(State(), bytesPerCharOf)
    }

    /** A new channel with the field defaults, whose encoding is then set to
        the system encoding (no stage exists yet, so only encoding and
        bytesPerChar change). */
    constructor (mode: bv8, isFile: bool, table: string -> int, systemEncoding: Option<string>)
      ensures Valid()
      ensures State() == Create(mode, systemEncoding, table)
      ensures this.isFile == isFile && bytesPerCharOf == table
    {
      this.mode := mode;
      this.isFile := isFile;
      bytesPerCharOf := table;
      blocking := true;
      buffering := BuffFull;
      bufferSize := DefaultBufferSize;
      inputTranslation := TransAuto;
      outputTranslation := TransPlatform;
      inputEofChar := 0;
      outputEofChar := 0;
      eofSeen := false;
      input := Unbuilt;
      output := None;
      encoding := systemEncoding;
      bytesPerChar := if systemEncoding.None? then 1 else table(systemEncoding.value);
      new;
      CreateValid(mode, systemEncoding, table);
    }

    // -------------------------------------------------------------------
    // Configuration

    method SetBlocking(b: bool)
      requires Valid()
      modifies this
      ensures Valid()
      ensures State() == ChannelSpec.SetBlocking(old(State()), b)
    {
      SetBlockingValid(State(), bytesPerCharOf, b);
      blocking := b;
      if input.Built? {
        input := input.(stages := input.stages.(blocking := b));
      }
    }

    method SetBuffering(code: int) returns (r: Outcome)
      requires Valid()
      modifies this
      ensures Valid()
      ensures Step(State(), r) == ChannelSpec.SetBuffering(old(State()), code)
    {
      SetBufferingValid(State(), bytesPerCharOf, code);
      if code < BuffFull || code > BuffNone {
        return Fail(InvalidBufferingMode);
      }
      buffering := code;
      if input.Built? {
        input := input.(stages := input.stages.(buffering := code));
      }
      if output.Some? {
        output := Some(output.value.(buffering := code));
      }
      r := Pass;
    }

    method SetBufferSize(size: int)
      requires Valid()
      modifies this
      ensures Valid()
      ensures State() == ChannelSpec.SetBufferSize(old(State()), size)
    {
      SetBufferSizeValid(State(), bytesPerCharOf, size);
      if size < 1 || size > MaxBufferSize {
        return;
      }
      bufferSize := size;
      if input.Built? {
        input := input.(stages := input.stages.(bufferSize := size));
      }
      if output.Some? {
        output := Some(output.value.(bufferSize := size));
      }
    }

    method SetEncoding(enc: Option<string>)
      requires Valid()
      modifies this
      ensures Valid()
      ensures State() == ChannelSpec.SetEncoding(old(State()), enc, bytesPerCharOf)
    {
      SetEncodingValid(State(), bytesPerCharOf, enc);
      encoding := enc;
      if enc.None? {
        bytesPerChar := 1;
      } else {
        bytesPerChar := bytesPerCharOf(enc.value);
      }
      if input.Built? {
        input := input.(stages := input.stages.(encoding := enc));
      }
      if output.Some? {
        output := Some(output.value.(encoding := enc));
      }
    }

    method SetInputTranslation(t: int)
      requires Valid()
      modifies this
      ensures Valid()
      ensures State() == ChannelSpec.SetInputTranslation(old(State()), t)
    {
      SetTranslationValid(State(), bytesPerCharOf, t);
      if !Readable(mode) {
        return;
      }
      inputTranslation := t;
      if input.Built? {
        input := input.(stages := input.stages.(translation := t));
      }
    }

    method SetOutputTranslation(t: int)
      requires Valid()
      modifies this
      ensures Valid()
      ensures State() == ChannelSpec.SetOutputTranslation(old(State()), t)
    {
      SetTranslationValid(State(), bytesPerCharOf, t);
      if !Writable(mode) {
        return;
      }
      outputTranslation := t;
      if output.Some? {
        output := Some(output.value.(translation := t));
      }
    }

    /** `rescanned` is what the stages answer after cancelling EOF. */
    method SetInputEofChar(c: JChar, rescanned: InputFeed)
      requires Valid()
      modifies this
      ensures Valid()
      ensures State() == ChannelSpec.SetInputEofChar(old(State()), c, rescanned)
    {
      SetInputEofCharValid(State(), bytesPerCharOf, c, rescanned);
      if !Readable(mode) {
        return;
      }
      var m := MaskByte(c);
      if m == inputEofChar {
        return;
      }
      inputEofChar := m;
      if input.Built? {
        // the EOF filter gets the new byte; the buffer and the decoder cancel EOF
        input := input.(stages := input.stages.(eofChar := m, eofCancels := input.stages.eofCancels + 1,
                                                feed := rescanned));
      }
      eofSeen := false;
    }

    method SetOutputEofChar(c: JChar)
      requires Valid()
      modifies this
      ensures Valid()
      ensures State() == ChannelSpec.SetOutputEofChar(old(State()), c)
    {
      SetOutputEofCharValid(State(), bytesPerCharOf, c);
      if !Writable(mode) {
        return;
      }
      outputEofChar := MaskByte(c);
      if output.Some? {
        output := Some(output.value.(eofChar := outputEofChar));
      }
    }

    // -------------------------------------------------------------------
    // Pipelines

    /** Builds the input stages over `feed`, what getInputStream() delivers,
        unless finalReader is set. */
    method InitInput(feed: InputFeed)
      requires Valid()
      modifies this
      ensures Valid()
      ensures State() == ChannelSpec.InitInput(old(State()), feed)
    {
      InitInputValid(State(), bytesPerCharOf, feed);
      if input.Built? && input.open {
        return;
      }
      input := Built(InputStages(MaskByte(inputEofChar), bufferSize, buffering, blocking,
                                 encoding, inputTranslation, 0, 0, feed), true);
    }

    method InitOutput()
      requires Valid()
      modifies this
      ensures Valid()
      ensures State() == ChannelSpec.InitOutput(old(State()), isFile)
    {
      InitOutputValid(State(), bytesPerCharOf, isFile);
      if output.Some? {
        return;
      }
      output := Some(OutputStage(encoding, outputTranslation, outputEofChar, buffering,
                                 bufferSize, blocking, isFile, [], 0, 0));
    }

    /** The base class cannot seek: every call fails with EINVAL. */
    method Seek(offset: int, whence: int) returns (r: Outcome)
      ensures r == Fail(SeekNotSupported)
    {
      r := Fail(SeekNotSupported);
    }

    /** The base class cannot tell its position. */
    method Tell() returns (pos: int)
      ensures pos == -1
    {
      pos := -1;
    }

    /** After a seek of a subclass: every input stage is reset and answers
        from `resumed`, the transport's new position. */
    method SeekReset(resumed: InputFeed)
      requires Valid()
      modifies this
      ensures Valid()
      ensures State() == ChannelSpec.SeekReset(old(State()), resumed)
    {
      SeekResetValid(State(), bytesPerCharOf, resumed);
      if input.Built? {
        input := input.(stages := input.stages.(resets := input.stages.resets + 1, feed := resumed));
      }
      eofSeen := false;
    }

    /** `readerFails` and `outputFails`: whether finalReader.close() and
        output.close() throw. */
    method Close(readerFails: bool, outputFails: bool) returns (r: Outcome)
      requires Valid()
      modifies this
      ensures Valid()
      ensures Step(State(), r) == ChannelSpec.Close(old(State()), readerFails, outputFails)
    {
      CloseValid(State(), bytesPerCharOf, readerFails, outputFails);
      var ex: Option<Side> := None;
      if input.Built? && input.open {
        if readerFails {
          ex := Some(InputSide);
        }
        input := input.(open := false);
      }
      if output.Some? {
        if outputFails {
          ex := Some(OutputSide);
        }
        output := None;
      }
      r := if ex.Some? then Fail(IoFailure(ex.value)) else Pass;
    }

    /** `held` is what the output stage reports holding after it took the
        payload (its buffering policy decides how much it passed on). */
    method Write(payload: seq<JChar>, held: nat) returns (r: Outcome)
      requires Valid()
      modifies this
      ensures Valid()
      ensures Step(State(), r) == ChannelSpec.Write(old(State()), payload, isFile, held)
    {
      WriteFlushValid(State(), bytesPerCharOf, payload, isFile, held);
      r := CheckWrite(mode, blocking);
      if r.Fail? {
        return;
      }
      InitOutput();
      if mode & Append != 0 {
        // seek to the end first; the base class cannot, and that is ignored
        var ignored := Seek(0, SeekEnd);
      }
      if output.Some? {
        output := Some(output.value.(written := output.value.written + payload, unflushed := held));
      }
    }

    method Flush() returns (r: Outcome)
      requires Valid()
      modifies this
      ensures Valid()
      ensures Step(State(), r) == ChannelSpec.Flush(old(State()))
    {
      WriteFlushValid(State(), bytesPerCharOf, [], isFile, 0);
      r := CheckWrite(mode, blocking);
      if r.Fail? {
        return;
      }
      if output.Some? {
        output := Some(output.value.(flushes := output.value.flushes + 1, unflushed := 0));
      }
    }

    // -------------------------------------------------------------------
    // Reading

    /** read(interp, tobj, readType, numBytes). The destination object comes
        in as `dest` and its new content goes out as `text`; `feed` is what
        getInputStream() delivers should the input side have to be built. */
    method Read(kind: ReadKind, numBytes: int, dest: seq<JChar>, feed: InputFeed) returns (status: Result<int>, text: seq<JChar>)
      requires Valid()
      modifies this
      ensures Valid()
      ensures State() == ChannelSpec.Read(old(State()), kind, numBytes, dest, feed).state
      ensures ReadOut(status, text) == ChannelSpec.Read(old(State()), kind, numBytes, dest, feed).result
    {
      ReadValid(State(), bytesPerCharOf, kind, numBytes, dest, feed);
      if CheckRead(mode).Fail? {
        return Err(NotOpenedForReading), dest;
      }
      InitInput(feed);
      if eofSeen {
        return Ok(-1), dest;
      }
      var readChars := encoding.Some? || (inputTranslation != TransBinary || inputTranslation != TransLf);
      if !readChars {
        assert false;
      }
      text := [];
      match kind {
        case ReadAll =>
          status, text := ReadCount(IntMax);
        case ReadNBytes =>
          status, text := ReadCount(numBytes);
        case ReadLine =>
          status, text := ReadNextLine();
        case UnknownReadKind(_) =>
          status := Err(InvalidReadMode);
      }
    }

    /** The READ_N_BYTES loop: at most min(n, 8192) units per read(buf),
        until the count is reached, the reader reports end of stream, a
        non-blocking read brings nothing, or the reader throws. */
    method ReadCount(n: int) returns (status: Result<int>, text: seq<JChar>)
      requires input.Built?
      modifies this
      ensures State() == ChannelSpec.ReadCount(old(State()), n).state
      ensures ReadOut(status, text) == ChannelSpec.ReadCount(old(State()), n).result
    {
      if n < 0 {
        return Err(NegativeArraySize), [];
      }
      var bufsize := BufSize(n);
      ghost var s0 := State();
      ghost var d := Drain(input.stages.feed.chunks, n, bufsize, blocking, 0, []);
      var chunks := input.stages.feed.chunks;
      var total := 0;
      text := [];
      while total < n
        invariant 0 <= total && (n <= total || bufsize >= 1)
        invariant Drain(chunks, n, bufsize, blocking, total, text) == d
        invariant State() == s0.(input := WithChunks(s0.input, chunks))
        decreases FeedSize(chunks)
      {
        var p := Pull(chunks, bufsize);
        chunks := p.rest;
        input := WithChunks(input, chunks);
        if p.AtEnd? {
          eofSeen := true;
          break;
        }
        if p.Failed? {
          return Err(IoFailure(InputSide)), text;
        }
        var cnt := |p.units|;
        if cnt == 0 && !blocking {
          break;
        }
        text := text + p.units;
        total := total + cnt;
      }
      if eofSeen && total == 0 {
        return Ok(-1), text;
      }
      status := Ok(total);
    }

    /** READ_LINE: one readLine of the end-of-line filter. */
    method ReadNextLine() returns (status: Result<int>, text: seq<JChar>)
      requires input.Built?
      modifies this
      ensures State() == ChannelSpec.ReadNextLine(old(State())).state
      ensures ReadOut(status, text) == ChannelSpec.ReadNextLine(old(State())).result
    {
      var lines := input.stages.feed.lines;
      var ev := if lines == [] then NoLine else lines[0];
      input := WithLines(input, if lines == [] then [] else lines[1..]);
      match ev {
        case NoLine =>
          eofSeen := true;
          status, text := Ok(-1), [];
        case LineFault =>
          status, text := Err(IoFailure(InputSide)), [];
        case Line(t, e) =>
          eofSeen := e;
          status, text := Ok(|t|), t;
      }
    }
  }
}
