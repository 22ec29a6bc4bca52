/** Values shared by the model of the jtcl channel base class: the TclIO
    constants the class tests against, the errors it raises, and the abstract
    stage objects of its input and output pipelines. */
module ChannelTypes {

  datatype Option<+T> = None | Some(value: T)

  /** Which side of the channel an I/O failure came from. */
  datatype Side = InputSide | OutputSide

  /** The exceptions the channel base class throws, one variant per cause. */
  datatype ChannelError =
    | NotOpenedForReading        // TclException "wasn't opened for reading"
    | NotOpenedForWriting        // TclException "wasn't opened for writing"
    | NonBlockingWrite           // TclException "Non-blocking write I/O not yet implemented"
    | InvalidBufferingMode       // TclRuntimeError from setBuffering
    | InvalidReadMode            // TclRuntimeError "Channel.read: Invalid read mode."
    | NegativeArraySize          // allocating the read buffer with a negative count
    | SeekNotSupported           // TclPosixException EINVAL from the base seek
    | IoFailure(side: Side)      // an IOException from a pipeline stage

  /** A value, or the error that replaced it. */
  datatype Result<+T> = Ok(value: T) | Err(error: ChannelError)

  /** Success or the error of an operation that returns nothing. */
  datatype Outcome = Pass | Fail(error: ChannelError)

  // Access-mode bits of TclIO.
  const RdOnly: bv8 := 1
  const WrOnly: bv8 := 2
  const RdWr: bv8 := 4
  const Append: bv8 := 8

  // Buffering policies of TclIO, in the order setBuffering's range test relies on
  // (BuffLine is only ever passed through; it is listed to complete the set).
  const BuffFull: int := 0
  const BuffLine: int := 1
  const BuffNone: int := 2

  // End-of-line translation modes of TclIO (only BINARY and LF are tested
  // by the channel itself; the others are listed to complete the set).
  const TransAuto: int := 0
  const TransBinary: int := 1
  const TransLf: int := 2
  const TransCr: int := 3
  const TransCrlf: int := 4
  const TransPlatform: int := 5

  // Seek origins of TclIO (write only uses SEEK_END; the others complete the set).
  const SeekSet: int := 1
  const SeekCur: int := 2
  const SeekEnd: int := 3

  /** A Java char: an unsigned 16-bit UTF-16 code unit. Text is counted in
      these units, so a character outside the BMP counts as two. */
  type JChar = c: int | 0 <= c < 0x1_0000

  /** Default buffer size of a new channel, in bytes. */
  const DefaultBufferSize: int := 4096
  /** Largest buffer size setBufferSize accepts (1 MiB). */
  const MaxBufferSize: int := 1024 * 1024
  /** Largest chunk a single read asks of the final reader. */
  const ChunkLimit: int := 8192
  /** Java's Integer.MAX_VALUE, the count READ_ALL asks for. */
  const IntMax: int := 0x7fff_ffff

  /** The read types of TclIO; any other code reaches the "invalid read mode" branch. */
  datatype ReadKind = ReadAll | ReadLine | ReadNBytes | UnknownReadKind(code: int)

  /** One answer of the final reader's read(buf): some units (possibly none,
      which is a read that made no progress), end of stream, or an IOException. */
  datatype Chunk = Data(units: seq<JChar>) | End | Fault

  /** One answer of the end-of-line filter's readLine: a line without its
      terminator together with the filter's EOF state after it, a null line,
      or an IOException. */
  datatype LineEvent = Line(text: seq<JChar>, eofAfter: bool) | NoLine | LineFault

  /** What the unshown stage chain will answer from the current stream
      position: successive read(buf) and readLine results, the decoder's
      available() (None when it throws), whether the EOF filter saw its
      sentinel, and whether the input buffer's last read would have blocked. */
  datatype InputFeed = InputFeed(
    chunks: seq<Chunk>,
    lines: seq<LineEvent>,
    decoderAvailable: Option<nat>,
    sawEofChar: bool,
    lastReadWouldHaveBlocked: bool)

  /** The five input stages (EOF filter, input buffer, markable stream,
      decoder, EOL filter) as one value: the configuration the channel pushed
      into them, how many seek resets and EOF cancellations they received, and
      what they will answer. */
  datatype InputStages = InputStages(
    eofChar: int,              // EofInputFilter's sentinel byte
    bufferSize: int,           // InputBuffer
    buffering: int,            // InputBuffer
    blocking: bool,            // InputBuffer
    encoding: Option<string>,  // UnicodeDecoder
    translation: int,          // EolInputFilter
    resets: nat,               // seekReset calls propagated to the stages
    eofCancels: nat,           // cancelEof calls on the buffer and the decoder
    feed: InputFeed)

  /** The input side of a channel. Unbuilt: no stage exists yet. Built: the
      stages exist; `open` says whether finalReader and finalInputStream still
      refer to them (close() clears those two references but not the stages). */
  datatype InputPipeline = Unbuilt | Built(stages: InputStages, open: bool)

  /** The output stage (TclOutputStream): the configuration pushed into it,
      every unit handed to it by writeObj, in order, how many flush requests
      it received, and its own answer to getNumBufferedBytes: how many
      encoded bytes it holds that have not reached the sink. */
  datatype OutputStage = OutputStage(
    encoding: Option<string>,
    translation: int,
    eofChar: int,
    buffering: int,
    bufferSize: int,
    blocking: bool,
    sync: bool,
    written: seq<JChar>,
    flushes: nat,
    unflushed: nat)
}
