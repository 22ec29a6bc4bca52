# jtcl channel base class, modelled in Dafny

This project models `tcl.lang.channel.Channel`, the abstract base class of
every jtcl I/O channel. A channel holds:

- an access mode;
- its configuration: blocking flag, buffering policy, buffer size, encoding,
  input and output end-of-line translation, and input and output EOF
  characters;
- an `eofSeen` flag;
- two lazily built pipelines. The input side is a chain of five stages (EOF
  filter, input buffer, markable stream, Unicode decoder, end-of-line filter)
  ending in `finalReader`. The output side is one `TclOutputStream`.

Most setters check something first. The translation and EOF-character
setters check the access mode. `setBuffering` and `setBufferSize` check the
range of their argument. `setBlocking` and `setEncoding` check nothing. Each
setter stores the value and pushes it into the live stages that take it.
`setBlocking` reaches only the input buffer, never the output stage. `read` serves
three read types: the whole input, a count of characters, or one line.
`write`, `flush`, `close`, `seekReset`, `seek` and `tell` complete the base
behaviour.

The model has four modules:

- `ChannelTypes` (channel_types.dfy) holds the TclIO constants, the errors the
  class throws, and the stages as values. Each stage value holds the
  configuration pushed into it, the number of resets and EOF cancellations it
  received, and what it will answer. The answers are a script of `read(buf)`
  results (`Data`, `End`, `Fault`), a script of `readLine` results, and the
  answers of `available()`, `sawEofChar()` and `lastReadWouldHaveBlocked()`.
  The output stage keeps every unit handed to it, in order, and the number of
  flush requests. It also keeps its own answer to `getNumBufferedBytes`. Text
  is counted in UTF-16 code units (`JChar`), as Java's `char` is.
- `ReadLoop` (read_loop.dfy) holds the `while (total < numBytes)` loop of
  `read` as the function `Drain` over the reader's script, and what the loop
  guarantees. It also states how the loop ended in terms of the reader's
  answers (`Delivers`, `EndsAt`).
- `ChannelSpec` (channel_spec.dfy) holds the channel state as a value. It has
  one function per method saying what that method does, the invariant `Valid`
  (values in range, and every live stage mirrors the configuration), and the
  lemmas.
- `ChannelImpl` (channel.dfy) holds the class `Channel`. Its fields are the
  Java fields, and its methods update them in place. Every method that
  changes state is proved to produce `State() == ChannelSpec.X(old(State()), …)`.
  The public ones are also proved to keep `Valid()`. The helpers `ReadCount`
  and `ReadNextLine` are called only from `Read`, which proves `Valid()` for
  the whole call. `Seek` and `Tell` change nothing and only state their
  result. `Read` is the Java loop with its invariants.

Two behaviours of the code are kept as written:

- The character-or-byte test of `read` is
  `encoding != null || (t != TRANS_BINARY || t != TRANS_LF)`. It holds for
  every translation, so `read` always takes the character path. The model
  evaluates the test as written. `ReadsCharsAlways` proves that it always
  holds, and the byte branch of `Channel.Read` is dead.
- A READ_N_BYTES request always asks the reader for `min(numBytes, 8192)`
  units. It never asks for just the remainder, so a read can return more than
  `numBytes`, by less than one buffer. `DrainBound` bounds this overshoot and
  `OvershootWitness` exhibits it (a count of 10 yields 13).

`close()` clears `finalReader`, `finalInputStream` and `output`. It leaves the
five input stage fields in place. The model keeps this: the input side is
`Built(stages, open := false)` after a close. Setters still push into those
stale stages. `isBlocked` and `getNumBufferedInputBytes` still consult them.
The next `initInput` builds a fresh chain.

## Model

| member | source | states |
|---|---|---|
| ChannelImpl.Channel.constructor | src/main/java/tcl/lang/channel/Channel.java:106-151 | a new channel is blocking, fully buffered, 4096-byte buffered, auto/platform translated, has no EOF characters and no stages, carries the system encoding with its bytes per character, and satisfies the invariant |
| ChannelSpec.CreateValid | src/main/java/tcl/lang/channel/Channel.java:106-151 | the initial state satisfies the invariant, has not seen EOF and has no pipeline |
| ChannelSpec.CheckRead | src/main/java/tcl/lang/channel/Channel.java:516-546 | checkRead fails, with "not opened for reading", exactly when neither the RDONLY nor the RDWR bit of the mode is set |
| ChannelSpec.CheckWrite | src/main/java/tcl/lang/channel/Channel.java:523-564 | checkWrite fails exactly when neither WRONLY nor RDWR is set or the channel is non-blocking; the access error wins over the non-blocking error |
| ChannelSpec.MaskByte | src/main/java/tcl/lang/channel/Channel.java:800-806 | `c & 0xFF` is a byte, equals `c` when `c` already is one, and agrees with `c` modulo 256 |
| ChannelImpl.Channel.SetBlocking | src/main/java/tcl/lang/channel/Channel.java:580-585 | stores the flag and pushes it into the input buffer when it exists, keeping the invariant |
| ChannelSpec.SetBlockingReach | src/main/java/tcl/lang/channel/Channel.java:580-585 | setBlocking sets the flag, gives it to the input buffer when one exists (the rest of the input side unchanged, and no stage built) and leaves the output stage and every other field unchanged |
| ChannelSpec.SetBlockingValid | src/main/java/tcl/lang/channel/Channel.java:580-585 | setBlocking keeps the invariant |
| ChannelImpl.Channel.SetBuffering | src/main/java/tcl/lang/channel/Channel.java:601-611 | the new state and the outcome are those of ChannelSpec.SetBuffering, and the invariant is kept |
| ChannelSpec.SetBufferingSpec | src/main/java/tcl/lang/channel/Channel.java:601-611 | setBuffering succeeds exactly for BUFF_FULL..BUFF_NONE and then gives the mode to both live stages, each otherwise unchanged, building none; otherwise it fails with "invalid buffering mode" and changes nothing; no other field changes |
| ChannelSpec.SetBufferingValid | src/main/java/tcl/lang/channel/Channel.java:601-611 | setBuffering keeps the invariant |
| ChannelImpl.Channel.SetBufferSize | src/main/java/tcl/lang/channel/Channel.java:629-644 | the new state is that of ChannelSpec.SetBufferSize, and the invariant is kept |
| ChannelSpec.SetBufferSizeSpec | src/main/java/tcl/lang/channel/Channel.java:629-644 | the size, the live input buffer and the live output stage change exactly when 1 <= size <= 1048576; otherwise nothing changes |
| ChannelSpec.SetBufferSizeValid | src/main/java/tcl/lang/channel/Channel.java:629-644 | setBufferSize keeps the buffer size within 1..1 MiB and the stages in step |
| ChannelImpl.Channel.SetEncoding | src/main/java/tcl/lang/channel/Channel.java:723-737 | the new state is that of ChannelSpec.SetEncoding, and the invariant is kept |
| ChannelSpec.SetEncodingSpec | src/main/java/tcl/lang/channel/Channel.java:723-737 | setEncoding needs no access right; bytes per character is 1 without an encoding and the table's value otherwise; the decoder and the output stage receive the encoding; nothing else changes, and no stage is built or dropped |
| ChannelSpec.SetEncodingValid | src/main/java/tcl/lang/channel/Channel.java:723-737 | setEncoding keeps bytesPerChar consistent with the encoding |
| ChannelImpl.Channel.SetInputTranslation | src/main/java/tcl/lang/channel/Channel.java:752-759 | the new state is that of ChannelSpec.SetInputTranslation, and the invariant is kept |
| ChannelImpl.Channel.SetOutputTranslation | src/main/java/tcl/lang/channel/Channel.java:774-780 | the new state is that of ChannelSpec.SetOutputTranslation, and the invariant is kept |
| ChannelSpec.AccessGuardedSetters | src/main/java/tcl/lang/channel/Channel.java:752-837 | setInputTranslation acts only on a readable channel; setOutputTranslation and setOutputEofChar only on a writable one; each reaches its live stage and changes nothing else; setOutputEofChar stores the low byte |
| ChannelSpec.SetTranslationValid | src/main/java/tcl/lang/channel/Channel.java:752-780 | both translation setters keep the invariant |
| ChannelImpl.Channel.SetInputEofChar | src/main/java/tcl/lang/channel/Channel.java:795-814 | the new state is that of ChannelSpec.SetInputEofChar, and the invariant is kept |
| ChannelSpec.SetInputEofCharSpec | src/main/java/tcl/lang/channel/Channel.java:795-814 | a no-op unless the channel is readable and the low byte differs from the current one; otherwise it stores the byte, hands it to the EOF filter, cancels EOF in buffer and decoder (after which the stages answer anew, from `rescanned`), clears eofSeen, and leaves every other field and the rest of the input side unchanged |
| ChannelSpec.SetInputEofCharIdempotent | src/main/java/tcl/lang/channel/Channel.java:795-814 | setting the same input EOF character twice is the same as once: the second call cancels nothing, whatever the stages would answer |
| ChannelImpl.Channel.SetOutputEofChar | src/main/java/tcl/lang/channel/Channel.java:829-837 | the new state is that of ChannelSpec.SetOutputEofChar, and the invariant is kept |
| ChannelSpec.SetInputEofCharValid | src/main/java/tcl/lang/channel/Channel.java:795-814 | setInputEofChar keeps the EOF character a byte and the stages in step |
| ChannelSpec.SetOutputEofCharValid | src/main/java/tcl/lang/channel/Channel.java:829-837 | setOutputEofChar keeps the EOF character a byte and the output stage in step |
| ChannelImpl.Channel.InitInput | src/main/java/tcl/lang/channel/Channel.java:418-440 | the new state is that of ChannelSpec.InitInput, and the invariant is kept |
| ChannelImpl.Channel.InitOutput | src/main/java/tcl/lang/channel/Channel.java:445-459 | the new state is that of ChannelSpec.InitOutput, and the invariant is kept |
| ChannelSpec.InitIdempotent | src/main/java/tcl/lang/channel/Channel.java:418-459 | initInput and initOutput build at most once: afterwards the pipeline exists, and a second call changes nothing whatever the transport would deliver |
| ChannelSpec.InitInputValid | src/main/java/tcl/lang/channel/Channel.java:418-440 | a newly built input chain mirrors the configuration, its EOF filter holding the low byte of the EOF character |
| ChannelSpec.InitOutputValid | src/main/java/tcl/lang/channel/Channel.java:445-459 | a newly built output stage mirrors the configuration |
| ChannelImpl.Channel.Seek | src/main/java/tcl/lang/channel/Channel.java:383-386 | the base seek always fails with EINVAL |
| ChannelImpl.Channel.Tell | src/main/java/tcl/lang/channel/Channel.java:411-413 | the base tell returns -1 |
| ChannelImpl.Channel.SeekReset | src/main/java/tcl/lang/channel/Channel.java:391-404 | the new state is that of ChannelSpec.SeekReset, and the invariant is kept |
| ChannelSpec.SeekResetSpec | src/main/java/tcl/lang/channel/Channel.java:391-404 | seekReset always leaves eofSeen false; an existing input side gets one more reset and answers from the transport's new position, with its configuration, EOF cancellations and open flag unchanged; no stage is built; nothing else changes |
| ChannelSpec.SeekResetValid | src/main/java/tcl/lang/channel/Channel.java:391-404 | seekReset keeps the invariant |
| ChannelImpl.Channel.Close | src/main/java/tcl/lang/channel/Channel.java:322-347 | the new state and the outcome are those of ChannelSpec.Close, and the invariant is kept |
| ChannelSpec.CloseSpec | src/main/java/tcl/lang/channel/Channel.java:322-347 | close releases both sides whatever fails; it fails exactly when an open side fails, reporting the output side when both do; the stages stay; the configuration and eofSeen are untouched; a second close succeeds and changes nothing |
| ChannelSpec.CloseValid | src/main/java/tcl/lang/channel/Channel.java:322-347 | close keeps the invariant |
| ChannelSpec.ReopenAfterClose | src/main/java/tcl/lang/channel/Channel.java:322-347 | after close, initInput builds a fresh open chain over the new feed, with the channel's EOF byte, buffer size, buffering, blocking flag, encoding and input translation, and no resets or cancellations; nothing else changes and no output stage exists |
| ChannelImpl.Channel.Write | src/main/java/tcl/lang/channel/Channel.java:280-298 | the new state and the outcome are those of ChannelSpec.Write; the append-mode seek is called and its failure ignored |
| ChannelSpec.WriteSpec | src/main/java/tcl/lang/channel/Channel.java:280-298 | write fails as checkWrite does and then changes nothing; otherwise the output stage exists, the payload follows everything written before, in order, the stage keeps its configuration, and nothing else changes |
| ChannelImpl.Channel.Flush | src/main/java/tcl/lang/channel/Channel.java:358-365 | the new state and the outcome are those of ChannelSpec.Flush, and the invariant is kept |
| ChannelSpec.FlushSpec | src/main/java/tcl/lang/channel/Channel.java:358-365 | flush fails as checkWrite does; without an output stage it does nothing; otherwise the stage receives one flush request and holds nothing afterwards, and nothing else changes |
| ChannelSpec.NumBufferedOutputBytesSpec | src/main/java/tcl/lang/channel/Channel.java:675-680 | 0 without an output stage, so also after a close; otherwise the stage's own count, which is 0 after a flush |
| ChannelSpec.WriteFlushValid | src/main/java/tcl/lang/channel/Channel.java:280-365 | write and flush keep the invariant |
| ChannelImpl.Channel.Read | src/main/java/tcl/lang/channel/Channel.java:178-267 | the new state, the result and the destination's content are those of ChannelSpec.Read, and the invariant is kept |
| ChannelImpl.Channel.ReadCount | src/main/java/tcl/lang/channel/Channel.java:202-246 | the loop leaves the state, result and text of ChannelSpec.ReadCount, that is of `Drain` |
| ChannelImpl.Channel.ReadNextLine | src/main/java/tcl/lang/channel/Channel.java:248-263 | one readLine leaves the state, result and text of ChannelSpec.ReadNextLine |
| ChannelSpec.ReadValid | src/main/java/tcl/lang/channel/Channel.java:178-267 | read keeps the invariant |
| ChannelSpec.ReadsCharsAlways | src/main/java/tcl/lang/channel/Channel.java:187 | the character-or-byte test is true for every encoding and translation |
| ChannelSpec.ReadAfterEof | src/main/java/tcl/lang/channel/Channel.java:180-184 | once EOF was seen, read returns -1, leaves the destination alone and consumes nothing |
| ChannelSpec.ReadNotReadable | src/main/java/tcl/lang/channel/Channel.java:180 | read on a channel that is not readable fails and changes nothing |
| ChannelSpec.ReadAllIsReadMax | src/main/java/tcl/lang/channel/Channel.java:195-202 | READ_ALL is READ_N_BYTES with Integer.MAX_VALUE, whatever count is given |
| ChannelSpec.ReadCountSpec | src/main/java/tcl/lang/channel/Channel.java:202-246 | the destination gets exactly the units taken from the reader, in order; -1 exactly when end of stream came before anything was read; otherwise the text's length; a blocking read that did not hit EOF or fail reaches the count; the overshoot is under one buffer; only the reader's position and eofSeen change (the line script, the open flag and the stage configuration stay) |
| ChannelSpec.ReadCountAnswers | src/main/java/tcl/lang/channel/Channel.java:202-246 | the text is what a run of data answers delivered, each asked for while the total was below the count; below the count, the reader's next answer decides the end: eofSeen is set exactly on end of stream, the read fails exactly on a reader failure, and an empty answer stops only a non-blocking read; a count of 0 reads nothing and returns 0 |
| ChannelSpec.ReadNegativeCount | src/main/java/tcl/lang/channel/Channel.java:209-211 | a negative count fails allocating the buffer, after the destination was emptied, and consumes nothing |
| ReadLoop.DrainAnswers | src/main/java/tcl/lang/channel/Channel.java:214-239 | every run of the loop is a run of data answers, each asked for while the total was below the count, followed by the answer that stopped it (or by reaching the count) |
| ChannelSpec.NonBlockingNoData | src/main/java/tcl/lang/channel/Channel.java:214-239 | a non-blocking read whose first answer is empty returns 0 and leaves eofSeen false |
| ChannelSpec.ReadLineSpec | src/main/java/tcl/lang/channel/Channel.java:248-263 | a null line sets eofSeen and returns -1; a line becomes the destination, its length is returned and eofSeen follows the filter; a failure leaves eofSeen; only the line script and eofSeen change |
| ChannelSpec.ReadAllScenario | src/main/java/tcl/lang/channel/Channel.java:178-246 | a new read-only channel over "hi" then end of stream: READ_ALL gives 2 and "hi" and sets eofSeen; the next read gives -1 |
| ReadLoop.BufSize | src/main/java/tcl/lang/channel/Channel.java:209 | the request size is the smaller of the count and 8192 |
| ReadLoop.Pull | src/main/java/tcl/lang/channel/Channel.java:214-217 | one read(buf) yields at most a buffer of units, which, with what follows, is exactly what the reader had; end of stream and a failure take nothing |
| ReadLoop.DrainConserves | src/main/java/tcl/lang/channel/Channel.java:214-239 | the loop loses, invents and reorders nothing: the text grows by exactly the units taken, and the total counts them |
| ReadLoop.DrainFilledIff | src/main/java/tcl/lang/channel/Channel.java:214 | the loop stops on the count exactly when the total reached it |
| ReadLoop.DrainBound | src/main/java/tcl/lang/channel/Channel.java:209-239 | the total never decreases and exceeds the count by less than one buffer |
| ReadLoop.DrainBlockingNeverStalls | src/main/java/tcl/lang/channel/Channel.java:233-235 | in blocking mode an empty answer does not stop the loop |
| ReadLoop.OvershootWitness | src/main/java/tcl/lang/channel/Channel.java:209-239 | a count of 10 over answers of 3 then 10 units returns 13 |
| ChannelSpec.IsBlockedSpec | src/main/java/tcl/lang/channel/Channel.java:692-698 | isBlocked fails exactly on a non-readable channel; without an input buffer it is false, otherwise what the buffer reports |
| ChannelSpec.NumBufferedInputBytesSpec | src/main/java/tcl/lang/channel/Channel.java:651-668 | 0 without an input buffer and when available() fails; otherwise the decoder's count plus one for a consumed EOF character; never negative |

## Left out

- The stage classes (`EofInputFilter`, `InputBuffer`, `MarkableInputStream`, `UnicodeDecoder`, `EolInputFilter`, `TclOutputStream`) are not part of this model. Each is a value holding the configuration the channel pushed into it, plus a script of its answers. The byte filtering, buffering, decoding and end-of-line translation they perform are not modelled.
- The chunk script (`read(buf)`) and the line script (`readLine`) are independent. Mixing READ_LINE with counted reads on one channel is not related to a single byte stream.
- Character encoding conversion is not modelled. `EncodingCmd.getBytesPerChar` is the function `bytesPerCharOf` given to the channel, and the system encoding is a constructor parameter.
- TclIO.java is not part of this model. Its constants are taken as RDONLY=1, WRONLY=2, RDWR=4, APPEND=8, BUFF_FULL..BUFF_NONE=0..2, TRANS_AUTO..TRANS_PLATFORM=0..5, SEEK_SET..SEEK_END=1..3. The mode is kept as its low byte, where every tested flag lies.
- The transport hooks `getInputStream`, `getOutputStream` and `getChanType` are subclass code. The stream `initInput` wraps is the `feed` parameter, and the "file" test is the constant `isFile`. Failures of the hooks themselves are not modelled.
- The IOExceptions of `writeObj` and `output.flush()` are not modelled; write and flush succeed once the access check passes. The failures of the two `close()` calls are parameters of `Close`.
- TclOutputStream.java is not part of this model. How much of a write its buffering policy, encoding and translation pass on to the sink is its own answer: the `held` count given to `Write`. A flush is taken to push everything the stage holds to the sink.
- What the output stage does on close, such as appending the EOF character, is not modelled. The stage is dropped.
- `refCount`, `chanName`, `getChanName`/`setChanName`, `getRefCount`, `isBgFlushScheduled` and the `write(String)` overload are not modelled. They are bookkeeping of the channel table, a constant, and a conversion to `TclObject`.
- `Interp` and the exception messages are dropped. Each exception is a `ChannelError` variant.
- The destination `TclObject` is a sequence of UTF-16 code units passed to `Read` and returned as its new content.
- The getters and `eof()` return a field. The fields of `Channel` are read directly and have no method of their own.
- ChannelImpl.Channel.ReadCount: `total` and the overshoot are unbounded integers. The Java `int` could wrap past 2^31-1 on a READ_ALL of about 2 GiB.
- ChannelImpl.Channel.Read: the byte path of `read` is unreachable, because its test is always true. It is a dead branch and is not modelled.
- ChannelImpl.Channel.ReadNextLine: the `finalReader != eolInputFilter` check cannot fire, because initInput always sets the two together. It is not modelled.
- ChannelSpec.SetEncoding, ChannelSpec.SetInputTranslation, ChannelSpec.SetBuffering, ChannelSpec.SetBufferSize and ChannelSpec.SetBlocking: a live input stage that receives a new setting keeps its scripted answers. How the new setting changes what later reads deliver is not modelled. `setInputEofChar`, whose EOF cancellation exists to make the stages re-examine cached bytes, takes the answers that follow as the parameter `rescanned`.
- ChannelImpl.Channel.Write: the append-mode seek is the base class's, which always fails. A subclass whose `seek` succeeds would also run `seekReset` (clearing eofSeen and resetting the input stages). That is not modelled, and WriteSpec's frame excludes it.
- ChannelImpl.Channel.constructor: `mode` is a constructor parameter and a `const`. In Java, subclasses assign the protected field after `Channel()` has run, and nothing in the base class changes it afterwards.
- The reader's script is finite. A blocking reader that answers "no data" forever would make the Java loop spin, and that is not modelled.
