# Android TV Remote v2 client: model and proofs

The client talks to an Android TV over two TLS connections. On one it sends
remote-control messages and answers the television's; on the other it pairs.
This project models four layers of it in Dafny, from the bytes up, and proves
properties of them that span whole runs.

| files | what they model |
|---|---|
| `Ints`, `Varint`, `Wire`, `WireLimits`, `Framing` | machine words, varints, fields, the `Writer` and `Reader` objects, the scans and their limits, frames (`src/proto_wire.cpp`) |
| `WireFormat` | which bytes spell a number, a field, a message and a frame, in the words of the encoding guide, and that the code reads exactly those |
| `Messages`, `Builders`, `PeerMessages` | the messages sent and received, their builders and the parser (`src/protocol_messages.cpp`) |
| `Television` | the other side: what a television reads, field by field, in every message sent |
| `Voice` | the cutting of PCM data, and the grammar of voice messages |
| `Engine` | the connection engine as a state machine: a function per member function, a step per posted call or completion handler (`src/android_tv_remote.cpp`) |
| `EngineSafety`, `EngineShape`, `EngineLedger`, `EngineReader`, `EngineTimers` | what every step keeps, one concern a file |
| `EngineRuns`, `EngineLoss`, `EngineFeatures`, `EngineVoice`, `EngineStart`, `EngineRaces`, `EngineIdle`, `EngineTraffic`, `EngineCommands`, `EngineDictation`, `EngineWire`, `EngineCalls` | what holds after every run: the theorems |
| `Remote` | the engine in its own form, a class whose methods update its fields, each proved against the function of the same name in `Engine`; `Dispatch` and `RunAll` are the I/O thread |
| `PairingCode`, `Pairing`, `PairingClient` | the code check (`src/certificate.cpp`), the blocking connection, the session (`src/pairing.cpp`), and the client that disconnects the engine and holds the session across retries (`src/android_tv_remote.cpp`) |
| `PairingPeer` | the television's side of pairing: what it reads, which statuses end it, the code it shows |

## How the engine is modelled

A state of the engine holds the fields of `AndroidTvRemote::Impl`, the multiset
of pending completion handlers, each with the generation it captured, and a
history nothing reads: for every generation the messages queued, the frames
written, the bytes received and the messages handled. A run is any sequence of
events that are possible one after the other: posted calls with any arguments,
and pending completions in any order, each with success or an error, and with
any bytes.

Timers are modelled with the racing `cancel` of Boost.Asio. A timer has at most
one *armed* wait, which `cancel` and `expires_after` reach. A wait that has
expired becomes *fired*: its handler is queued with success and runs sooner or
later, whatever is cancelled meanwhile. All theorems hold against that
adversary, except where the next section says so.

`Dispatch` shows that a handler always finds what it relies on: no handler reads
a stream that is gone or pops an empty queue, whatever has happened before.

## What the statements are held against

What the client writes and reads is not only related to itself. `WireFormat` says,
apart from the functions that read and write, which bytes spell a number, a field, a
message and a frame. `Television` and `PairingPeer` read every message the client
sends by literal field numbers, compute the digest and show the code on the
television's side. `EngineLoss`, `EngineVoice` and `EngineTraffic` say for every event
what it ends, starts, arms, queues and handles, and the theorems over runs count
losses, keys and messages over the events themselves.

## Where the code falls short of what one would expect

Each is proved twice: with a run or a message that shows it, and with the exact
condition under which it does not happen.

- **A reconnect can replace the user's connection.** The handler of the
  reconnect timer carries no generation. If it has fired when the user calls
  `connect`, it later throws the live stream away (`ReconnectCanReplaceALiveStream`,
  and from any such state `ExpiredWaitReplacesTheStream`). Throughout a run no live
  stream has such a wait behind it if and only if no connect call opens a stream
  while a wait has fired (`SparedIffNeverTooSoon`), and then no reconnect handler
  ever finds a stream (`NoStreamIsReplaced`). The stricter statement that there is
  one wait exactly while the engine is reconnecting without a stream, and otherwise
  none, holds throughout a run if and only if no connect or disconnect call
  overtakes a fired wait (`ExactIffNeverOvertaken`).
- **An old timeout can end a new start of voice.** The handler of the voice timer
  carries no generation either. Wherever voice can be started, and it can be
  (`VoiceCanBeStarted`), starting, stopping and starting again while the first
  timeout has fired lets it end the second start (`OldTimeoutEndsANewStart`). A
  session being started has exactly its own timeout throughout a run if and only
  if none is started while an earlier timeout has fired (`TimelyIffNeverTooSoon`),
  and then no handler ends a start but its own (`NoStartIsEndedByAnother`).
- **An old idle wait can close a busy stream.** The handler of the idle timer knows
  its generation, but not which wait of it. From any live stream whose idle wait is
  armed, and there are such (`IdleWaitsAreArmed`), the wait may expire, a key be sent,
  which starts the wait anew, and the old handler close the stream
  (`OldIdleWaitClosesABusyStream`). A live stream has at most its last idle wait
  throughout a run if and only if nothing resets the timer while a wait of the
  current generation has fired (`PromptIffNeverTooLate`), and then no stream is closed
  but by its last wait (`NoBusyStreamIsClosed`).
- **The identity is loaded at most once.** `ensureSslContext` assigns the context
  before it loads the certificate into it. When loading fails, the next attempt
  finds a context and connects without the client's identity
  (`SecondConnectNeedsNoIdentity`). Every live stream has the identity if and only
  if nothing tries to connect again after the load that failed
  (`IdentifiedIffNeverTriedAgain`).
- **Writes do not wait for the handshake.** `queueMessage` tests only for a
  stream. A key sent right after `connect` is being written while the host is
  still being resolved (`WriteBeforeHandshake`). Nothing is written before the
  handshake if and only if no key, text or link is sent while a connection is
  being made (`OrderlyIffNeverTooEarly`).
- **A tenth byte loses its bits.** It is shifted by 63, so all its bits but one are
  lost, and nothing is refused: ten bytes that denote 2^64 are read as 0
  (`TenthByteIsLost`). A varint is read with the value its digits denote if and only
  if it has fewer than ten bytes or the tenth is at most 1 but for its top bit
  (`VarintIsWholeIff`).
- **Field numbers are cut to 32 bits.** A field with number 2^32 + 1 is read as field
  1 (`LargeNumberIsCut`). A field is read under the number of its key if and only if
  the key is below 2^35 (`NumberIsWholeIff`).
- **The first value wins.** The Protocol Buffers encoding guide lets the last one win.
  Appending a value to a message that has one already does not change what is read
  (`AppendedValueIsIgnored`, `AppendedBytesAreIgnored`). A scan yields the last value
  if and only if there is at most one, or the last equals the first
  (`FirstIsLastIff`).

## Model

| member | source | states |
|---|---|---|
| Varint.AccumulateIsGroups | src/proto_wire.cpp:44-51 | The 64-bit shift-and-or of all four decoding loops computes the base 128 digits modulo 2^64, the truncated tenth byte included |
| Varint.ConsumeByte | src/proto_wire.cpp:44-51 | One byte in the loop: either the value of one more digit, or the varint is complete and this is its value and length |
| Varint.VarintRoundTrip | src/proto_wire.cpp:7-13 | Every 64-bit value comes back from its encoding, whatever follows, in at most ten bytes |
| Varint.VarintIsShortest | src/proto_wire.cpp:7-13 | The encoding is the shortest byte string that decodes to its value |
| Ints.WideningIsUndone | src/protocol_messages.cpp:22-24 | Zero- and sign-extended `int32` values are both undone by the truncation on reading |
| Ints.And32OfNonNegative | src/android_tv_remote.cpp:485-485 | The feature mask's "and" acts bit by bit and never makes a non-negative mask larger or negative |
| Wire.FieldsOfPrefix | src/proto_wire.cpp:56-107 | Fields once read stay read, whatever follows, even after a truncated message |
| Wire.FieldsOfConcat | src/proto_wire.cpp:56-107 | The fields of a complete message followed by another are the fields of both, in order |
| Wire.NextOfEncoded | src/proto_wire.cpp:20-107 | The reader takes exactly one written field off the front and yields it back |
| Wire.ReaderInvertsWriter | src/proto_wire.cpp:7-107 | For any sequence of writes the reader yields exactly those fields and ends with everything consumed |
| Wire.NextIsWritable | src/proto_wire.cpp:56-107 | Every field read can be written again, in no more bytes than it took |
| Wire.Canonicalisation | src/proto_wire.cpp:7-107 | Re-encoding the fields of any complete message, non-minimal varints included, gives the same fields in no more bytes |
| Wire.FindInConcat | src/proto_wire.cpp:109-144 | Each scan of two messages in a row finds the first one's answer, or else the second's |
| Wire.Writer.PutVarint | src/proto_wire.cpp:7-13 | The loop appends exactly the encoding of the value |
| Wire.Writer.PutKey | src/proto_wire.cpp:15-18 | Appends the key of number and wire type |
| Wire.Writer.PutVarintField | src/proto_wire.cpp:20-23 | Adds one varint field to what the message encodes |
| Wire.Writer.PutBytesField | src/proto_wire.cpp:25-35 | Adds one length-delimited field |
| Wire.Writer.PutMessageField | src/proto_wire.cpp:37-39 | Adds a nested message as a length-delimited field |
| Wire.Reader.TakeVarint | src/proto_wire.cpp:41-54 | Yields the varint at the offset and moves past it, or clears `ok` when there is none |
| Wire.Reader.TakePayload | src/proto_wire.cpp:74-106 | Reads the payload of each of the four wire types, or clears `ok` |
| Wire.Reader.Next | src/proto_wire.cpp:56-107 | Yields the next field and moves past it; `ok` tells the end of the message from a malformed field |
| Wire.FindVarint | src/proto_wire.cpp:109-120 | The first varint field of the number in the valid prefix, or nothing |
| Wire.FindBytes | src/proto_wire.cpp:122-133 | The first length-delimited field of the number in the valid prefix, or nothing |
| Wire.HasField | src/proto_wire.cpp:135-144 | Whether a field of the number is in the valid prefix, of whatever wire type |
| WireFormat.NumberIsReadIff | src/proto_wire.cpp:41-54 | A number is read off the front if and only if the bytes it takes spell it: up to ten, the last alone without the top bit, the sum of their low seven bits times powers of 128, in 64 bits |
| WireFormat.NumberIsSpelled | src/proto_wire.cpp:7-13 | What the encoder writes spells its number |
| WireFormat.FieldIsReadIff | src/proto_wire.cpp:56-107 | A field is read if and only if the bytes it takes spell it: a key, and by wire type 0, 1, 2 or 5 a number, eight bytes, a length and as many bytes, or four bytes |
| WireFormat.FieldIsSpelled | src/proto_wire.cpp:15-35 | What the writer writes spells its field |
| WireFormat.MessageIsReadIff | src/proto_wire.cpp:56-107 | A message is read to its end as these fields if and only if it is their spellings, one after the other |
| WireFormat.FrameIsTakenIff | src/proto_wire.cpp:146-157 | A frame is taken off a stream if and only if the bytes it takes are a spelled length within the limit and as many bytes |
| WireFormat.RefusedIff | src/android_tv_remote.cpp:449-461 | A stream is refused if and only if it begins with ten bytes with the top bit or a spelled length above the limit |
| WireLimits.VarintIsWholeIff | src/proto_wire.cpp:41-54 | A varint is read as the number its digits denote if and only if it has fewer than ten bytes or the tenth holds no more than the bit that is left of 64 |
| WireLimits.TenthByteIsLost | src/proto_wire.cpp:44-51 | Ten bytes that denote 2^64 are read as 0, not refused |
| WireLimits.NumberIsWholeIff | src/proto_wire.cpp:61-65 | A field is read under the number in its key if and only if the key is below 2^35 |
| WireLimits.LargeNumberIsCut | src/proto_wire.cpp:61-65 | A varint field with number 2^32 + 1, whatever its value, is read as field 1 |
| WireLimits.ScansTakeTheFirst | src/proto_wire.cpp:109-133 | The scans yield the first of all values a message has under the number |
| WireLimits.FirstIsLastIff | src/proto_wire.cpp:109-133 | They yield the last value if and only if there is at most one, or the last equals the first |
| WireLimits.AppendedValueIsIgnored | src/proto_wire.cpp:109-120 | A varint appended to a complete message that has one under this number is its last value, and the scan still yields the first |
| WireLimits.AppendedBytesAreIgnored | src/proto_wire.cpp:122-133 | The same for length-delimited fields |
| Framing.MakeFrame | src/proto_wire.cpp:146-157 | A frame is the shortest varint of the length, then the payload |
| Framing.DecodeVarintPrefix | src/proto_wire.cpp:159-179 | Finds a varint exactly when the reader does, with the same value and length; on failure the length is 0 or, with more than ten bytes, 10 |
| Framing.DeframeMore | src/android_tv_remote.cpp:434-478 | A stream is read on from where the earlier bytes left off, and no further than a refused length |
| Framing.FramesOfPrefix | src/android_tv_remote.cpp:434-478 | Frames once read stay read |
| Framing.DeframeInvertsFrameAll | src/proto_wire.cpp:146-157 | Any frames within the limit, joined, are read back as exactly their payloads, in order, nothing left over |
| Framing.PartOfFramedStream | src/proto_wire.cpp:146-157 | From any part of such a stream a prefix of the payloads has been read and nothing refused |
| Messages.ParseRemote | src/protocol_messages.cpp:177-246 | The meaning is that of the first length-delimited field with a known number in the valid prefix |
| Messages.ReadMeaning | src/protocol_messages.cpp:186-242 | The cases of the switch, each with the nested fields it reads |
| Messages.LaterBytesAreIgnored | src/protocol_messages.cpp:181-246 | Nothing after the first known field matters, well formed or not |
| Messages.UnknownFieldsAreSkipped | src/protocol_messages.cpp:181-246 | Complete messages without a known field in front change nothing |
| Messages.SentIsReadBack | src/protocol_messages.cpp:76-175 | Both levels of every message sent are read back field for field |
| Messages.EncodeIsInjective | src/protocol_messages.cpp:76-175 | No two messages have the same bytes |
| Messages.MeaningOfSent | src/protocol_messages.cpp:76-246 | Through the client's own parser, configure, set-active, text and voice-begin messages keep their kind and every `int32` read; all others, ping replies among them, are unknown |
| Messages.BothWideningsMeanTheSame | src/protocol_messages.cpp:22-28 | For every known number and any varint field of the nested message, among any other fields, a peer may widen an `int32` either way: the same message is read |
| Messages.PairingMessageIsReadBack | src/protocol_messages.cpp:10-16 | Every pairing message is complete, has status 200 and passes exactly the test for its own number |
| PeerMessages.PeerMessageIsRead | src/protocol_messages.cpp:177-246 | For any bytes: a message is read if and only if the bytes carry it, that is, their first known field says it, in whatever order, with whatever other fields, however widened, zeros left out or not |
| PeerMessages.OtherFieldsAreIgnored | src/protocol_messages.cpp:186-242 | Fields a message is not read from, whatever their numbers and wherever they stand among the others, change nothing: the fields say it if and only if the ones it is read from do |
| PeerMessages.ReferenceIsRead | src/protocol_messages.cpp:177-246 | Every message the client knows, with any values, is carried by its reference encoding and read from it |
| Builders.RemoteConfigureResponse | src/protocol_messages.cpp:76-90 | The bytes are those of `Encode`, which reads back (`SentIsReadBack`): features widened straight from `int32` in 1, the device description in 2, under number 1 |
| Builders.RemoteSetActiveResponse | src/protocol_messages.cpp:92-98 | The same for the set-active reply: features widened straight from `int32`, under number 2 |
| Builders.RemotePingResponse | src/protocol_messages.cpp:100-106 | The same for the ping reply: the value by way of `uint32`, under number 9, not the 8 of a ping |
| Builders.RemoteKey | src/protocol_messages.cpp:108-115 | The same for a key and its direction, under number 10 |
| Builders.RemoteText | src/protocol_messages.cpp:117-140 | The same for a text three levels deep, its cursor at the last byte, under number 21 |
| Builders.RemoteAppLink | src/protocol_messages.cpp:142-148 | The same for a link, under number 90 |
| Builders.RemoteVoiceBegin | src/protocol_messages.cpp:150-156 | The same for the begin of a voice session, under number 30 |
| Builders.RemoteVoicePayload | src/protocol_messages.cpp:158-167 | The same for a session and its samples, under number 31 |
| Builders.RemoteVoiceEnd | src/protocol_messages.cpp:169-175 | The same for the end of a voice session, under number 32 |
| Builders.BuildPairingOuter | src/protocol_messages.cpp:10-16 | Every pairing message is version 2, status 200 and the message given, in this order |
| Builders.BuildPairingRequest | src/protocol_messages.cpp:32-37 | The request: service and client name, under number 10 |
| Builders.BuildPairingOptions | src/protocol_messages.cpp:39-48 | The options: six hexadecimal symbols, role input, under number 20 |
| Builders.BuildPairingConfiguration | src/protocol_messages.cpp:50-59 | The configuration: six hexadecimal symbols, role input, under number 30 |
| Builders.BuildPairingSecret | src/protocol_messages.cpp:61-65 | The secret, under number 40 |
| Television.KeyIsRead | src/protocol_messages.cpp:108-115 | For every key and direction: the code, its upper half clear, is read in 10/1 and the direction in 10/2 |
| Television.TextIsRead | src/protocol_messages.cpp:117-140 | For every text and counters: the counters in 21/1 and 21/2, in 21/3 an insertion with the text in 2/3 and its last index modulo 2^32 in 2/1 and 2/2 |
| Television.LinkIsRead | src/protocol_messages.cpp:142-148 | Every link is read in 90/1 |
| Television.ConfigureIsRead | src/protocol_messages.cpp:76-90 | The features, sign-extended to 64 bits, in 1/1, and in 1/2 the device: 1 in 3, "1" in 4, "atvremote" in 5, "1.0.0" in 6, byte by byte |
| Television.SetActiveIsRead | src/protocol_messages.cpp:92-98 | The features, sign-extended, in 2/1 |
| Television.PongIsRead | src/protocol_messages.cpp:100-106 | The value, its upper half clear, in 9/1 |
| Television.SessionsAreRead | src/protocol_messages.cpp:150-175 | The session in 30/1 of a begin and 32/1 of an end |
| Television.SamplesAreRead | src/protocol_messages.cpp:158-167 | The session in 31/1 and the samples in 31/2 |
| Television.SentIsUnderstood | src/protocol_messages.cpp:76-175 | A television that goes by these numbers understands every message sent as what it is, with every value |
| PairingPeer.RequestIsRead | src/protocol_messages.cpp:32-37 | Version 2, status 200, "atvremote" in 10/1 and the client's name in 10/2 |
| PairingPeer.OptionsAreRead | src/protocol_messages.cpp:39-48 | Version 2, status 200, in 20/1 the encoding hexadecimal (3) with six symbols (6), in 20/3 the role 1 |
| PairingPeer.ConfigurationIsRead | src/protocol_messages.cpp:50-59 | Version 2, status 200, in 30/1 the same encoding, in 30/2 the role 1 |
| PairingPeer.SecretIsRead | src/protocol_messages.cpp:61-65 | Version 2, status 200, the secret in 40/1 |
| Voice.ChunkSizes | src/android_tv_remote.cpp:231-241 | ceil(n / 20480) chunks of 8192 to 20480 bytes, all but the last of full size |
| Voice.ChunksCarryTheData | src/android_tv_remote.cpp:231-241 | Joined, the chunks are the data followed only by zeros, fewer than 8192 |
| Voice.NotBrokenIsGrammatical | src/android_tv_remote.cpp:201-255 | A sequence of messages is read step by step without a message out of place exactly when its voice messages form whole utterances and at most one open one |
| Voice.Utterances | src/android_tv_remote.cpp:201-255 | Finds those utterances, and the session of the open one |
| EngineSafety.StepKeepsPending | src/android_tv_remote.cpp:336-584 | Every step keeps the count of pending handlers of the current generation |
| EngineShape.StepKeepsShape | src/android_tv_remote.cpp:163-595 | Every step keeps connection state, stream, voice session and timers together |
| EngineLedger.StepKeepsLedger | src/android_tv_remote.cpp:417-584 | Every step keeps the books: queued against written, replies against messages, features against masks |
| EngineReader.StepKeepsReader | src/android_tv_remote.cpp:434-478 | Every step keeps the reader aligned with the bytes received |
| EngineReader.ByteOfLength | src/android_tv_remote.cpp:449-466 | The four outcomes of a length byte, by what they do to the frames of the stream |
| EngineReader.BodyArrives | src/android_tv_remote.cpp:467-476 | A whole body is one more frame and leaves nothing unread |
| EngineTimers.StepKeepsDelays | src/android_tv_remote.cpp:405-411 | Every step keeps the delay on the doubling sequence |
| EngineTimers.TotalWait | src/android_tv_remote.cpp:405-411 | n losses in a row wait 100 (2^n - 1) ms for n up to nine, then 30 s more each |
| EngineTimers.ExactUnlessOvertaken | src/android_tv_remote.cpp:163-182 | A step leaves the exact shapes exactly when a connect or disconnect call overtakes a fired reconnect wait |
| EngineRuns.StepKeepsInvariant | src/android_tv_remote.cpp:163-595 | Every step of the engine keeps the whole invariant |
| EngineRuns.GenerationSafety | src/android_tv_remote.cpp:336-584 | In every reachable state each pending completion of the current generation finds its stream; a live stream has exactly one connect or read pending, and one write exactly when its queue is not empty |
| EngineRuns.StaleCompletionIsIgnored | src/android_tv_remote.cpp:354-576 | A completion with an older generation changes nothing but that it is no longer pending |
| EngineRuns.ThreeShapes | src/android_tv_remote.cpp:163-415 | Every reachable state is disconnected without a stream, live, or reconnecting with a wait pending: none is stuck |
| EngineRuns.ConnectedIsWatched | src/android_tv_remote.cpp:364-370 | Connected implies a live stream past its handshake, no connect step of it pending, its idle wait pending |
| EngineRaces.ExactIffNeverOvertaken | src/android_tv_remote.cpp:163-182 | The three exact shapes: one reconnect wait while reconnecting without a stream, else none, throughout a run if and only if no connect or disconnect call overtakes a fired one |
| EngineRaces.ReconnectCanReplaceALiveStream | src/android_tv_remote.cpp:406-409 | A concrete run in which a fired reconnect wait replaces the stream of a later connect call |
| EngineRaces.SparedUnlessTooSoon | src/android_tv_remote.cpp:163-170 | From a state with at most one reconnect wait and none behind a live stream, a step leads out of such states exactly when it is a connect call that opens a stream while a wait has fired |
| EngineRaces.SparedIffNeverTooSoon | src/android_tv_remote.cpp:163-170 | No live stream has a reconnect wait behind it throughout a run if and only if no such call is made in it |
| EngineRaces.NoStreamIsReplaced | src/android_tv_remote.cpp:407-409 | Without such a call no reconnect handler of the run finds a stream to replace |
| EngineRaces.ExpiredWaitReplacesTheStream | src/android_tv_remote.cpp:407-409 | A fired wait next to a live stream can run at once, and replaces it |
| EngineRaces.TimelyUnlessTooSoon | src/android_tv_remote.cpp:201-225 | A step leaves a session being started with other than its own timeout exactly when it starts one while an earlier timeout has fired |
| EngineRaces.TimelyIffNeverTooSoon | src/android_tv_remote.cpp:201-225 | A session being started has exactly one timeout, its own, throughout a run if and only if none is started so |
| EngineRaces.NoStartIsEndedByAnother | src/android_tv_remote.cpp:218-223 | Without such a start every voice handler that runs during a start is that of its only timeout |
| EngineRaces.OldTimeoutEndsANewStart | src/android_tv_remote.cpp:218-223 | Wherever voice can be started, five events lead to a start ended by an earlier timeout, its own still to come |
| EngineRaces.VoiceCanBeStarted | src/android_tv_remote.cpp:201-216 | With the voice option there is a run to such a state: connect, handshake, a configure and a start message, byte by byte |
| EngineIdle.StepMovesIdle | src/android_tv_remote.cpp:558-595 | Exactly the steps that queue a message, bring a body or end the handshake reset the idle timer of the stream; no other adds a wait, and a new stream has none |
| EngineIdle.PromptUnlessTooLate | src/android_tv_remote.cpp:586-595 | A step leaves a live stream with more than its last idle wait exactly when it resets the timer while a wait of its generation has fired |
| EngineIdle.PromptIffNeverTooLate | src/android_tv_remote.cpp:586-595 | A live stream has at most its last idle wait throughout a run if and only if no step does so |
| EngineIdle.NoBusyStreamIsClosed | src/android_tv_remote.cpp:589-594 | Then every idle handler that finds its stream is that of the only wait there is: one has fired, none is armed |
| EngineIdle.OldIdleWaitClosesABusyStream | src/android_tv_remote.cpp:586-595 | From any live stream with its idle wait armed three possible events lead to its end, although a key has just started the wait anew |
| EngineIdle.IdleWaitsAreArmed | src/android_tv_remote.cpp:558-563 | A connect call and a key lead to such a stream |
| EngineRuns.ReceivedIsHandled | src/android_tv_remote.cpp:434-478 | In every generation the messages handled are exactly the whole frames of the bytes received, up to the first refused length |
| EngineRuns.FramedPeerIsUnderstood | src/android_tv_remote.cpp:434-478 | From a peer that frames payloads of at most 4 MiB a prefix of them has been handled; once every byte has arrived all have, and the reader is back at the first byte of a length |
| EngineRuns.BodyIsBounded | src/android_tv_remote.cpp:458-469 | A body is only awaited in a buffer of 1 byte to 4 MiB |
| EngineRuns.LossExactlyWhenRefused | src/android_tv_remote.cpp:449-461 | A length byte ends the connection exactly when it makes a length of ten continuation bytes or of more than 4 MiB |
| EngineRuns.QueuedIsWritten | src/android_tv_remote.cpp:417-584 | In every generation the frames written are a prefix of those queued in it, and what is missing of the current one's is its queue |
| EngineRuns.RepliesAreOwed | src/android_tv_remote.cpp:480-550 | In every generation the configure, set-active and ping replies queued are exactly those its messages call for, in order, with the features of that moment |
| EngineRuns.PingsAreAnswered | src/android_tv_remote.cpp:530-532 | In every generation each ping handled is answered once, in order, with its own value |
| EngineRuns.VoiceIsGrammatical | src/android_tv_remote.cpp:201-255 | In every generation the voice messages are utterances of one session each and at most one open one, which is the engine's own session |
| EngineRuns.VoiceNeedsAConnection | src/android_tv_remote.cpp:201-225 | Starting and speaking exclude each other, imply Connected with a live stream, and starting has its timeout pending |
| EngineRuns.FeaturesAreTheCommonOnes | src/android_tv_remote.cpp:484-486 | A feature is left exactly when it was there before and no configure message lacked it |
| EngineRuns.ActiveFeatures | src/android_tv_remote.cpp:98-101 | After any run, across reconnects, the active features are those of the options that every configure message supported; never negative, so neither widening sets the upper half |
| EngineRuns.VoiceIsAnOption | src/android_tv_remote.cpp:486-486 | Voice is enabled only if the options ask for it |
| EngineFeatures.OptionBits | src/android_tv_remote.cpp:98-101 | The client offers bits 0, 1, 5, 6 and 9, bit 2 and bit 3 if the options ask for them, and no other |
| EngineFeatures.KnownFeatures | src/android_tv_remote.cpp:483-486 | After any messages voice is enabled if and only if one of them was a configure message and the features left have voice |
| EngineFeatures.VoiceEnabledIff | src/android_tv_remote.cpp:484-486 | After any run voice is enabled if and only if the options ask for it, a configure message was handled, and all of them supported bit 3, across generations |
| EngineFeatures.VoiceStartsIff | src/android_tv_remote.cpp:201-225 | After any run `startVoice` starts a session, with the search key (84, short) and an armed timeout, if and only if voice is enabled so, a start message was handled on a live stream, and no session is open or being started; otherwise it changes nothing |
| EngineFeatures.EachIsAnsweredOnce | src/android_tv_remote.cpp:494-532 | In every generation each configure, set-active and ping message handled is answered by one reply of its own kind, in order, and nothing else is |
| EngineVoice.StepMovesVoice | src/android_tv_remote.cpp:201-255 | Exactly which events begin and end a start, and which arm and cancel its timeout: a stop, a disconnect and a confirmation cancel it, the loss of the connection does not |
| EngineRuns.AdvertisedFeatures | src/android_tv_remote.cpp:494-499 | Each reply owed answers one message, in order, and unless it is a ping reply advertises the features left after that message |
| EngineRuns.RepliesAdvertiseTheActive | src/android_tv_remote.cpp:484-499 | Each configure or set-active reply queued advertises, bit for bit, exactly the features common to the options and every configure message handled up to and including the one it answers, across generations |
| EngineRuns.DelayIsBackoff | src/android_tv_remote.cpp:366-411 | The delay is min(100 * 2^k, 30000) ms where k delays have been scheduled since it was reset, and they add up to the closed form |
| EngineLoss.StepMeetsItsFate | src/android_tv_remote.cpp:353-415 | What any event other than a call to connect or disconnect and the reconnect timer makes of the connection: it stays, is open, is retried or given up, with delays and waits |
| EngineLoss.AttemptsConnect | src/android_tv_remote.cpp:336-352 | A connect call leads to Connecting and the reconnect timer to Reconnecting, in a new generation with a stream, unless there is no identity: then Disconnected; only the call resets the delay |
| EngineLoss.DisconnectsEnd | src/android_tv_remote.cpp:172-182 | A disconnect call ends the generation and cancels all three timers; the reconnect timer is then without effect |
| EngineLoss.StreamEndsIff | src/android_tv_remote.cpp:353-478 | A live stream ends if and only if one of its operations fails, a length is refused, its idle timer runs, the user connects or disconnects, or the reconnect timer runs |
| EngineLoss.LossReconnectsIff | src/android_tv_remote.cpp:376-415 | Of the streams lost without a call, a reconnect is scheduled, with one more delay and an armed wait, if and only if the options ask for it and it was not the handshake that failed; otherwise Disconnected, delays and waits as they were |
| EngineLoss.OptionOffNeverReconnects | src/android_tv_remote.cpp:405-413 | With the option off the engine is never reconnecting, nor is there a reconnect wait, after any run |
| EngineLoss.StepCountsLosses | src/android_tv_remote.cpp:399-415 | Every step schedules a delay exactly for a loss that is retried, and clears them exactly with a connect call or a handshake |
| EngineLoss.BackoffOfLosses | src/android_tv_remote.cpp:366-411 | After any run with k losses, counted over its events since the last connect call or handshake, the delay is min(100 * 2^k, 30000) ms, and the waits are those before it and add up to the closed form |
| EngineLoss.StepKeepsConnected | src/android_tv_remote.cpp:522-524 | Every step keeps Connected the same as a live stream with a start message handled |
| EngineLoss.ConnectedIff | src/android_tv_remote.cpp:522-524 | After any run the engine is connected if and only if there is a live stream and a start message, whatever its flag, is among the whole frames received on it |
| EngineRuns.StaysQuiet | src/android_tv_remote.cpp:172-182 | In a disconnected state every event but a connect call keeps it so and adds nothing to the history |
| EngineRuns.QuietAfterDisconnect | src/android_tv_remote.cpp:172-182 | After any run, once disconnected and until the next connect call: no stream, nothing queued, written or handled, whatever still fires |
| EngineStart.OnlyAttemptsOpen | src/android_tv_remote.cpp:336-373 | Nothing but an attempt to connect opens a stream or touches the TLS context |
| EngineStart.AttemptUsesContext | src/android_tv_remote.cpp:328-349 | Only the first attempt makes and loads the context; an attempt opens a stream exactly if there was one or it loads |
| EngineStart.IdentityIsSettledAtOnce | src/android_tv_remote.cpp:328-334 | After any run, whether the client's identity is in the context was decided by the first connect call |
| EngineStart.IdentifiedIffNeverTriedAgain | src/android_tv_remote.cpp:328-349 | Every live stream has the client's identity throughout a run if and only if nothing tries again after a failed load |
| EngineStart.SecondConnectNeedsNoIdentity | src/android_tv_remote.cpp:328-349 | Two connect calls with unreadable files: the second opens a stream |
| EngineStart.OrderlyUnlessTooEarly | src/android_tv_remote.cpp:558-584 | A step starts writing before the handshake exactly when it is a command to a stream that is being connected |
| EngineStart.OrderlyIffNeverTooEarly | src/android_tv_remote.cpp:558-584 | Nothing is queued before the handshake throughout a run if and only if no such command is given |
| EngineStart.WriteBeforeHandshake | src/android_tv_remote.cpp:558-563 | A key sent right after connect is being written while the host is being resolved |
| EngineWire.WireIsDecodable | src/proto_wire.cpp:146-157 | The bytes of the frames written give back the messages queued first |
| EngineWire.PeerReadsWhatWasQueued | src/android_tv_remote.cpp:558-584 | In every generation of every run, from whatever part of its frames is on the wire, acknowledged or not, a peer reads the first messages queued in it, each whole: at least the acknowledged ones, and all once all is sent |
| EngineWire.TelevisionIsUnderstood | src/android_tv_remote.cpp:434-550 | A corollary of `FramedPeerIsUnderstood` and `PeerMessageIsRead`: from a television that frames its messages, however it encodes them, the ones handled mean the first it sent, and all once every byte has arrived |
| EngineWire.PongCarriesItsValue | src/protocol_messages.cpp:100-106 | A ping reply carries any `int32` whole, negative ones too, and would itself cause no reply |
| EngineWire.PingsComeBack | src/android_tv_remote.cpp:434-584 | Bytes to bytes: the ping replies readable off whatever is on the wire carry, one for one, the values of the pings in the bytes received; all of them once all is sent |
| EngineTraffic.StepGrows | src/android_tv_remote.cpp:186-584 | A step queues exactly what its event calls for, handles exactly the message it brings, and carries counters, voice session and generation on accordingly |
| EngineTraffic.WhatIsCalledForIsSent | src/android_tv_remote.cpp:186-563 | Over a whole run the messages queued in every generation are exactly those its events call for, commands, voice data and answers together, in order |
| EngineCommands.StepCommands | src/android_tv_remote.cpp:186-225 | Of what an event calls for, the keys, texts and links are those of the call, a text with the counters of the last IME batch message handled |
| EngineCommands.StepKeepsKnowledge | src/android_tv_remote.cpp:483-512 | Every step keeps the IME counters those of the last batch message handled, and features and voice those the configure messages leave, across generations |
| EngineCommands.CountersAreTheLast | src/android_tv_remote.cpp:509-512 | The counters a text carries are those of the last IME batch message, the first in the first place and the second in the second |
| EngineCommands.CommandsAreQueued | src/android_tv_remote.cpp:186-225 | Over a whole run the keys, texts and links queued in each generation are exactly those of the calls made with a stream, in call order, each text with the counters of the last IME batch message handled |
| EngineCalls.WireSaysWhatWasCalledFor | src/android_tv_remote.cpp:186-584 | Calls to bytes: whatever part of a generation's frames is on the wire, the television understands the first messages that calls and answers called for in it, each with every value, in order, and all once every byte is there |
| EngineCalls.KeysComeOut | src/android_tv_remote.cpp:186-213 | The keys a television reads off the wire of a generation are, in order, code and direction, those of the `sendKey` calls and accepted starts of voice (84, short) in it |
| EngineWire.PayloadIsReadBack | src/protocol_messages.cpp:158-167 | A voice payload gives back its session and its samples |
| EngineWire.PeerHearsTheData | src/android_tv_remote.cpp:227-243 | Of PCM data of any length the peer hears all, in order, then only the padding, under the open session |
| EngineDictation.StepSpeaks | src/android_tv_remote.cpp:201-255 | A step speaks exactly what it adds to the sessions: a begin, the chunks of one call, or an end |
| EngineDictation.VoiceIsDictated | src/android_tv_remote.cpp:201-255 | Over a whole run the voice messages queued in every generation are, in order, those of its sessions: the begin, the chunks of each `sendVoiceData` call made while the session was open, and the end if it was stopped |
| EngineDictation.DictationCarriesTheData | src/android_tv_remote.cpp:227-243 | Joined, the payloads of a session are the data of all its calls, each followed by its padding |
| Remote.Impl.constructor | src/android_tv_remote.cpp:91-103 | A new engine is in the initial state, with the mask of its options, and satisfies the invariant |
| Remote.Impl.CloseStream | src/android_tv_remote.cpp:417-432 | A new generation: no stream, voice session, queue or partial length |
| Remote.Impl.EnsureSslContext | src/android_tv_remote.cpp:328-334 | Makes the context if there is none; throws if that one cannot be loaded, but keeps it |
| Remote.Impl.BeginConnect | src/android_tv_remote.cpp:336-373 | Replaces the stream and starts resolving, unless disconnected by the user or without an identity |
| Remote.Impl.AuthenticationFailed | src/android_tv_remote.cpp:376-388 | Closes a current stream for good |
| Remote.Impl.ConnectionFailed | src/android_tv_remote.cpp:390-397 | A loss, if it is the current generation's and not the user's doing |
| Remote.Impl.HandleConnectionLoss | src/android_tv_remote.cpp:399-415 | Closes the stream and schedules a reconnect, doubling the delay, or stays disconnected |
| Remote.Impl.BeginReadLength | src/android_tv_remote.cpp:434-439 | Starts a length from scratch |
| Remote.Impl.ReadOneLengthByte | src/android_tv_remote.cpp:441-446 | Starts the read of one length byte, if the stream is still there |
| Remote.Impl.HandleConfigure | src/android_tv_remote.cpp:483-496 | The features are cut to the supported ones, voice follows them, and the reply advertises them |
| Remote.Impl.HandleVoiceBegin | src/android_tv_remote.cpp:536-546 | The start is over, its timeout cancelled, and the session confirmed |
| Remote.Impl.HandleMessage | src/android_tv_remote.cpp:480-550 | What each kind of message changes and what it is answered with |
| Remote.Impl.QueueMessage | src/android_tv_remote.cpp:558-563 | Queues the frame of a message on a stream and starts a write if none is going on |
| Remote.Impl.BeginWrite | src/android_tv_remote.cpp:565-572 | Starts writing the first frame, or ends writing |
| Remote.Impl.ResetIdleTimer | src/android_tv_remote.cpp:586-589 | Arms the idle timer for the current generation |
| Remote.Impl.OnResolved | src/android_tv_remote.cpp:353-358 | The host is resolved, or not |
| Remote.Impl.OnConnected | src/android_tv_remote.cpp:359-363 | TCP is connected, or not |
| Remote.Impl.OnHandshake | src/android_tv_remote.cpp:364-370 | The handshake is over: the delay is reset, reading and the idle timer start |
| Remote.Impl.OnLengthByte | src/android_tv_remote.cpp:446-449 | A length byte, an error, or a stale handler |
| Remote.Impl.TakeLengthByte | src/android_tv_remote.cpp:449-469 | One byte of a length: more of it, a loss, an empty message, or a body to read |
| Remote.Impl.OnBody | src/android_tv_remote.cpp:470-476 | A body is handled and the next length awaited |
| Remote.Impl.OnWritten | src/android_tv_remote.cpp:575-583 | A frame has been written, and the next one starts |
| Remote.Impl.OnReconnect | src/android_tv_remote.cpp:407-409 | The reconnect timer's handler |
| Remote.Impl.OnIdle | src/android_tv_remote.cpp:589-594 | The idle timer's handler |
| Remote.Impl.OnVoiceTimer | src/android_tv_remote.cpp:218-223 | The voice timer's handler |
| Remote.Impl.Connect | src/android_tv_remote.cpp:163-170 | The handler of `connect` |
| Remote.Impl.Disconnect | src/android_tv_remote.cpp:172-182 | The handlers of `disconnect` and of `disconnectAndWait` (lines 313 to 326) |
| Remote.Impl.SendKey | src/android_tv_remote.cpp:186-188 | Queues a key |
| Remote.Impl.SendText | src/android_tv_remote.cpp:190-195 | Refuses the empty text; queues any other with the counters received last |
| Remote.Impl.LaunchApp | src/android_tv_remote.cpp:197-199 | Queues a link |
| Remote.Impl.StartVoice | src/android_tv_remote.cpp:201-225 | Asks for a voice session if voice is enabled, none is going on and the engine is connected |
| Remote.Impl.SendVoiceData | src/android_tv_remote.cpp:227-243 | The loop queues exactly the padded chunks, in order, under the open session |
| Remote.Impl.StopVoice | src/android_tv_remote.cpp:245-255 | Ends an open session |
| Remote.Impl.Dispatch | src/android_tv_remote.cpp:102-102 | Any possible event: the handler finds what it relies on, does the step of the state machine and keeps the invariant |
| Remote.Impl.RunAll | src/android_tv_remote.cpp:102-102 | The I/O thread reaches the state the run leads to, so every theorem about runs is one about the object |
| Remote.HandlersFindTheirs | src/android_tv_remote.cpp:354-581 | A current completion has its stream, a current write its frame |
| PairingCode.HexToBytes | src/certificate.cpp:39-56 | The bytes of the digit pairs in either letter case, or the right one of two errors |
| PairingCode.PairingSecret | src/certificate.cpp:253-303 | Succeeds exactly for an accepted code, with the digest over keys and code tail; else the reason (`AcceptedIffShown`, `ShownIsAccepted` and `RefusalIsRight` say which code, digest and reason) |
| PairingCode.HexRoundTrip | src/certificate.cpp:43-54 | Bytes printed in any mixture of letter cases read back |
| PairingCode.OneFirstByteIsAccepted | src/certificate.cpp:291-301 | For given keys and tail exactly one first byte is accepted |
| PairingPeer.AcceptedIffShown | src/certificate.cpp:253-303 | A code is accepted if and only if its six digits, in either letter case, are the first byte of SHA-256 over client modulus, client exponent, server modulus, server exponent and two bytes, and these two bytes |
| PairingPeer.ShownIsAccepted | src/certificate.cpp:287-302 | The code the television shows is accepted, and the secret sent is the television's own digest, in 40/1 |
| PairingPeer.OtherCodesAreRefused | src/certificate.cpp:299-301 | With the television's two bytes a code is accepted if and only if its first byte is that of its digest |
| PairingPeer.RefusalIsRight | src/certificate.cpp:257-301 | A code is refused for its length, else for a character that is no hexadecimal digit, else for the digest |
| Pairing.SyncTlsConnection.Send | src/pairing.cpp:57-60 | One more framed message goes out, or the write fails and nothing does |
| Pairing.SyncTlsConnection.ReceiveLength | src/pairing.cpp:63-72 | The fourth varint decoder: the same value as the others, failing exactly at a tenth continuation byte or the end |
| Pairing.SyncTlsConnection.Receive | src/pairing.cpp:62-81 | The next whole frame, or exactly which exception |
| Pairing.SyncTlsConnection.ReceiveMessage | src/pairing.cpp:62-81 | Receives succeed exactly on the messages of the stream, one after the other |
| PairingPeer.FailureIsRight | src/pairing.cpp:62-81 | Which exception: an invalid length exactly for ten bytes that go on, too large exactly for a spelled length above 4 MiB, otherwise the end of the stream |
| Pairing.HandshakeAccount | src/pairing.cpp:138-153 | Against any messages, and with writes that may fail at any point: exactly the replies to the messages in front of the one that settles the handshake are sent, and that one, its status other than 200, its reply that cannot be written, or the lack of one is the outcome |
| Pairing.HandshakeSucceedsIff | src/pairing.cpp:138-153 | It succeeds if and only if one of the first eight messages holds field 31 but neither 11 nor 20, the status read in it and in all before is 200, and the replies in front of it can be written |
| Pairing.ConformingPeer | src/pairing.cpp:138-149 | A conforming peer is through in three messages, sent options and configuration, if these can be written |
| Pairing.ConfirmedIff | src/pairing.cpp:168-177 | The secret is confirmed if and only if one of four messages holds field 41 and the status read in it and in all before is 200 |
| PairingPeer.ReplyIsRight | src/pairing.cpp:142-148 | To a message that holds field 11 the reply is read as options, otherwise to one that holds 20 as a configuration, otherwise there is none |
| PairingPeer.StatusIsCarried | src/protocol_messages.cpp:67-69 | A status written in field 2, whatever its value, among any other fields, is the status read; without one there is none |
| PairingPeer.StatusDecides | src/pairing.cpp:110-115 | Wherever the handshake has got to a message, that message ends it with a bad status if and only if its status is not 200, or missing |
| PairingPeer.BadStatusIff | src/pairing.cpp:138-141 | The handshake ends with a bad status if and only if one of the first messages has a status other than 200, and none before it settles it |
| PairingPeer.ConfirmAccount | src/pairing.cpp:168-177 | What waiting for the acknowledgement comes to, exactly: confirmed, a bad status, lost, or four messages in vain |
| PairingPeer.BadStatusUnconfirmedIff | src/pairing.cpp:168-177 | Confirmation ends with a bad status if and only if one of the first messages has a status other than 200 and none before it acknowledges |
| PairingPeer.StartSucceedsIff | src/pairing.cpp:133-153 | `start` succeeds if and only if its request can be written and one of the first eight messages acknowledges the configuration as above |
| PairingPeer.StartSends | src/pairing.cpp:135-149 | It sends the request and then the replies to the messages answered, at most eight, in order |
| Pairing.PairingSession.Answer | src/pairing.cpp:142-148 | The answer to one message, field 11 before 20 before 31, or a failed write |
| Pairing.PairingSession.Round | src/pairing.cpp:139-149 | One round of the loop takes a message and sends what a negotiation of one step calls for |
| Pairing.PairingSession.Negotiating | src/pairing.cpp:138-149 | The loop sends and takes exactly what the negotiation calls for |
| Pairing.PairingSession.Handshake | src/pairing.cpp:135-149 | The request and the loop: exactly what goes out, the outcome, and the messages left for `finish` |
| Pairing.PairingSession.Start | src/pairing.cpp:133-154 | No identity, no peer, or the handshake's outcome and everything it sends; the connection is dropped only when eight messages went by in vain |
| Pairing.PairingSession.Finish | src/pairing.cpp:156-178 | A refused code sends nothing and changes nothing; an accepted one sends its secret once, unless the write fails, and awaits up to four messages |
| PairingClient.Client.StartPairing | src/android_tv_remote.cpp:131-142 | The engine is disconnected whatever follows; a session is kept only once its handshake has succeeded, and every failure leaves the one before |
| PairingClient.Client.FinishPairing | src/android_tv_remote.cpp:144-151 | Every outcome: not started, no certificate, a refused code, a failed write, paired or not; the session is given up only on success, so a mistyped code can be retried |
| PairingClient.Client.FinishAfterMistakes | src/android_tv_remote.cpp:147-150 | After any refused codes an accepted one has the outcome and sends the one message it would have at once |

## Left out

- The destructor and `shuttingDown_`: the engine is modelled while it lives.
- User callbacks, the mutexes around them, and availability notices.
- The generation counter is unbounded; its wrap-around after 2^64 closed streams is not modelled.
- Sockets, DNS, TLS and Boost.Asio are nondeterministic completions: success with bytes, or an error. Bytes of a body that never completes, and writes that were not acknowledged, are not in the history; the statements about the wire allow for both.
- Lifetimes of buffers: `lengthByte_` is an argument of its handler and `readBody_` a size.
- The length of the idle and voice timeouts (16 s, 2 s), and time itself: a timer may expire at any moment. The delays of the reconnect timer are modelled.
- The fields of `Impl` are kept in four records (`link`, `session`, `inbox`, `outbox`), which the methods update in place.
- `deviceInfo_`, `currentApp_`, `volumeInfo_`, `isOn_` and the getters: copies of what the parser yields.
- `keyCodeFromName`, `parseDeviceIdentity` and `getNameAndMac`: lookups.
- Texts, links and client names of 2^63 bytes or more, which no machine holds, and texts whose size is 2^31 modulo 2^32: taking 1 from the least `int32` has no defined result.
- PairingClient.Client: the part of `Impl` that holds `pairing_` is a class of its own, beside the engine it disconnects.
- Pairing.SyncTlsConnection.Send: a failed write sends no part of its frame.
- Pairing.PairingSession.Finish: the order in which an unreadable client certificate and a missing peer certificate are noticed; both are one outcome.
- PairingCode.PairingSecret: SHA-256 is any function to 32 bytes; key extraction and OpenSSL failures are not modelled.
- Certificate generation, PEM files, the command-line example and the build.
