# audiort in Dafny

A Dafny model of the deterministic core of audiort, a small recorder. audiort
captures audio from the default input or output device through the cpal
audio backend. It writes the audio to a WAV file through the hound library,
optionally after a countdown.

The model has five modules:

- `Wrappers` (wrappers.dfy): Rust's `Option`, `Result<T, E>` and `Result<(), E>`.
- `Audiort` (audiort.dfy), the library in src/lib.rs. It covers:
  - the backend's sample formats;
  - `as_wav_spec`, which maps a negotiated stream configuration to a WAV header;
  - the `Error` type and its `Display` messages;
  - `DeviceBuilder` and `StreamBuilder` as immutable records with explicit updates.
- `Sink` (sink.dfy), the shared writer slot of src/cli.rs. A slot is
  `Some(writer)` until the finalize branch takes the writer out of it. The
  stream callback and `write_wav_data` write one sample per raw byte, reading
  each byte as a two's-complement `i8`. A sequence of callback buffers and
  finalize requests is run step by step to state the take-once discipline.
- `Delay` (delay.dfy), `do_delay` as a trace of terminal writes and sleeps.
- `Cli` (cli.dfy), the Record command of `cli_main`. It covers the default
  output path and the whole run as a list of effects: file creation, countdown
  output, stream start and the file saved by the explicit finalize.

The backend and the WAV library are foreign. Their answers are plain data:
- `Host` and `BackendDevice` give the default devices and the default
  configuration each one reports.
- `StreamBuilder::from` asks the device for its default configuration a
  second time. That second answer is a parameter of `Audiort.From` and the
  `requery` field of `Cli.Environment`; it need not repeat the first.
- The stream-build result, the play result, whether the file could be created,
  the buffers the callback receives, whether the stop line was read and whether
  finalize succeeded are parameters, or fields of `Cli.Environment`.

The sample-format table (`SampleSize`, `IsFloat`) follows cpal's `SampleFormat`.
Its formats are I8, I16, I32, I64, U8, U16, U32, U64, F32 and F64, with widths
1, 2, 4 or 8 bytes. Only F32 and F64 are float formats.

Notable behaviour of the code, which the model keeps as written:

- Every callback byte becomes one `i8` sample, whatever the header's bits per
  sample. A 16-bit buffer is therefore not written back as 16-bit samples.
  `Sink.SixteenBitBufferSplitsIntoBytes` shows the bytes of 1 and -1 becoming
  four samples.
- `with_reader` always builds an input stream and `with_writer` an output
  stream. The builder's `kind`, set by `as_input`/`as_output`, does not choose
  between them (`Audiort.KindDoesNotSteerBuild`).
- The countdown runs after `StreamBuilder::from` and before `with_reader`. It
  does not sit between building and playing the stream.
- `as_wav_spec` maps every sample format to a header. The header records the
  device's channel count, rate, byte width and float-ness unchanged.
- The WAV file is created before `StreamBuilder::from`. If that call fails, the
  run has already created the file and never calls `finalize` on it
  explicitly; hound finalizes the dropped writer
  (`Cli.RecordFromFailureLeavesFile`).
- The file's header comes from the configuration found when the device was
  resolved; the stream runs with the configuration `StreamBuilder::from`
  obtains by asking again. When the two answers differ, the stream's header is
  not the file's (`Cli.RecordHeaderMismatchReachable`).
- The `Display` text of `DefaultConfigError` is "Error getting output lock".
  The text of `OutputLockError` is "Error getting default device config". The
  two look swapped. The model keeps them as written; the messages are still
  pairwise distinct (`Audiort.ErrorMessageInjective`).
- The Record command's help text gives the default output as
  `~/Music/audiort/out.wav` (src/cli.rs:35), but the code writes `out.wav` in
  the working directory (src/cli.rs:78). The model follows the code
  (`Cli.OutputPath`).
- For counts of ten or more, the countdown still writes a single backspace per
  count (`Delay.DelayBellsAndBackspaces`). Only the last digit of the previous
  count is overwritten.

## Model

| member | source | states |
|---|---|---|
| `Audiort.AsWavSpec` | src/lib.rs:13-24 | the header copies channel count and sample rate unchanged; bits per sample is 8 × the format's byte width, hence a multiple of 8 between 8 and 64; the tag is Float exactly when the format is a float format and Int otherwise |
| `Audiort.AsWavSpecEqualIff` | src/lib.rs:14-22 | two configurations give the same header iff they agree on channels, rate, byte width and float-ness (the header forgets only signedness) |
| `Audiort.FloatHeaderWidth` | src/lib.rs:17-22 | a Float header is 32 or 64 bits wide |
| `Audiort.ErrorMessage` | src/lib.rs:53-68 | a writer-creation error displays the prefix "Error creating data writer" and a line break, followed by exactly its detail text; the seven fixed texts are the source's literals and are characterised only through `WriterCreationMessageIff` and `ErrorMessageInjective` |
| `Audiort.WriterCreationMessageIff` | src/lib.rs:62-64 | a message starts with "Error creating data writer\n" iff it displays a writer-creation error, and the rest of it is that error's detail text |
| `Audiort.ErrorMessageInjective` | src/lib.rs:53-68 | distinct errors display distinct messages |
| `Audiort.NewDefaultInput` | src/lib.rs:71-86 | no default input device gives DefaultInputDeviceError; a device without a default input configuration gives DefaultConfigError; otherwise the builder has kind Input, that device and its default input configuration; no other error is possible |
| `Audiort.NewDefaultOutput` | src/lib.rs:88-103 | as for input, with DefaultOutputDeviceError, kind Output and the default output configuration |
| `Audiort.NewDefaultCarriesDefaultConfig` | src/lib.rs:71-103 | a freshly resolved device's configuration is the device's default for its own direction |
| `Audiort.WithConfig` | src/lib.rs:117-120 | the configuration becomes the given one; kind and backend device are unchanged |
| `Audiort.WithConfigLastWins` | src/lib.rs:117-120 | a second override replaces the first; re-setting the current configuration changes nothing |
| `Audiort.From` | src/lib.rs:131-151 | succeeds iff the device answers the second default-configuration query for its kind, else fails with DefaultConfigError; on success kind and device are copied, no stream is built yet, and the configuration is that second answer |
| `Audiort.FromIgnoresConfigOverride` | src/lib.rs:131-150 | a `with_config` override before `from` changes neither whether `from` succeeds nor the builder's configuration |
| `Audiort.FromConfigMatchesDeviceIff` | src/lib.rs:131-150 | the stream builder uses the device's configuration iff the second answer is that configuration |
| `Audiort.FromRepeatedAnswerKeepsConfig` | src/lib.rs:71-150 | when the device answers the second query as it did at resolve time, `from` succeeds on a freshly resolved device and keeps its configuration |
| `Audiort.AsInput` | src/lib.rs:153-156 | kind becomes Input; device, configuration and stream are unchanged |
| `Audiort.AsOutput` | src/lib.rs:158-161 | kind becomes Output; device, configuration and stream are unchanged |
| `Audiort.Play` | src/lib.rs:167-173 | with no stream the result is Ok whatever the backend would answer; the result is PlayError iff a stream exists and the backend fails to start it |
| `Audiort.WithReader` | src/lib.rs:175-192 | on a successful build the stream slot holds a new input stream with the builder's configuration, which is also returned, and nothing else changes; on a build error the builder is unchanged and the error is returned |
| `Audiort.WithWriter` | src/lib.rs:194-211 | as `WithReader`, with an output stream |
| `Audiort.KindDoesNotSteerBuild` | src/lib.rs:175-211 | the stream `with_reader`/`with_writer` build is the same after `as_input`, after `as_output` and with neither |
| `Audiort.PlayBeforeBuildIsNoOp` | src/lib.rs:145-173 | a fresh stream builder plays successfully doing nothing, and so does one whose build failed |
| `Sink.ByteAsI8` | src/cli.rs:162 | the sample is the unique value in -128..127 congruent to the byte modulo 256, and it is non-negative iff the byte is below 128 |
| `Sink.ByteReinterpretRoundTrip` | src/cli.rs:106 | reading a byte as `i8` and back gives the byte, and the other way round: the reinterpretation loses nothing |
| `Sink.DecodeBytes` | src/cli.rs:160-164 | a buffer yields exactly one sample per byte, in input order, each the byte read as `i8` |
| `Sink.SixteenBitBufferSplitsIntoBytes` | src/cli.rs:104-107 | the little-endian 16-bit samples 1 and -1 are written as the four 8-bit samples 1, 0, -1, -1 |
| `Sink.RecordCallback` | src/cli.rs:101-111 | with an empty slot nothing is written; with a writer, its header is kept, its earlier samples are kept, and exactly one sample per buffer byte is appended in order |
| `Sink.WriteWavData` | src/cli.rs:157-167 | the loop appends the decoded buffer to the writer's samples and keeps its header, does nothing on an empty slot, and agrees with the Record callback |
| `Sink.Take` | src/cli.rs:118 | taking yields whatever the slot held and leaves it empty |
| `Sink.FinalizeBranch` | src/cli.rs:116-123 | the slot is empty afterwards; nothing is finalized iff the slot was already empty; a file is written iff a writer was taken and finalized successfully, and it holds that writer's header and samples |
| `Sink.FinalizeIsTakeOnce` | src/cli.rs:117-121 | after a finalize, a second finalize finds nothing and a later buffer leaves the slot as it is |
| `Sink.RunOnEmptySlot` | src/cli.rs:102-121 | with the slot empty, any sequence of buffers and finalize requests leaves it empty, and every finalize finds nothing |
| `Sink.RunBuffersAppends` | src/cli.rs:101-111 | buffers delivered to a filled slot append all their decoded bytes in arrival order and finalize nothing |
| `Sink.RecordingFinalizedOnce` | src/cli.rs:96-123 | buffers, then a successful finalize, then anything: the first finalize writes the header and every earlier sample in order, every later finalize finds nothing, and the slot ends empty |
| `Delay.Decimal` | src/cli.rs:142 | the count is printed as a non-empty string of decimal digits with no leading zero |
| `Delay.DecimalRoundTrip` | src/cli.rs:142 | reading the printed count back as a decimal number gives the count |
| `Delay.DecimalInjective` | src/cli.rs:142 | distinct counts are printed differently |
| `Delay.DoDelay` | src/cli.rs:133-153 | no delay gives the empty trace; a delay of n gives 2n + 3 events that start with the "Recording in  " banner and end with "\r" followed by a 500 ms sleep |
| `Delay.CountdownAt` | src/cli.rs:141-145 | for every k below n, the countdown's event 2k writes a backspace, the count n − k and the alert, and event 2k + 1 sleeps 1000 ms |
| `Delay.CountdownShape` | src/cli.rs:141-145 | the countdown has 2n events; its k-th pair writes a backspace, the count n − k and the alert, then sleeps 1000 ms |
| `Delay.DelayCountsDown` | src/cli.rs:136-145 | inside the delay trace, count n − k is written at position 1 + 2k, with the bell unless quiet, and is followed by a one-second sleep |
| `Delay.CountdownSleep` | src/cli.rs:141-145 | the countdown of n sleeps 1000 · n ms |
| `Delay.DelaySleepTotal` | src/cli.rs:133-150 | no delay sleeps 0 ms; a delay of n, including n = 0, sleeps 1000 · n + 500 ms in total |
| `Delay.DelayPrinted` | src/cli.rs:138-147 | the delay writes the banner, then the countdown's text, then a carriage return |
| `Delay.CountdownCharacters` | src/cli.rs:136-145 | the countdown's text holds n backspaces, and n bells with the alert or none without it |
| `Delay.DelayBellsAndBackspaces` | src/cli.rs:136-147 | the delay rings the bell n times unless quiet, never when quiet, and writes exactly one backspace per count |
| `Cli.OutputPath` | src/cli.rs:78 | with no output path the file is "out.wav"; otherwise it is the given path |
| `Cli.Record` | src/cli.rs:77-124 | a failure to resolve the device creates no file, has no other effect and is returned as that library error; any effect at all starts with creating the file at the chosen path under the resolved device's header |
| `Cli.RecordHappyPath` | src/cli.rs:77-124 | when every outside answer is favourable, the run creates the file under the device's header, runs the countdown, starts an input stream with the configuration of `from`'s second query, and saves the device's header with one 8-bit sample per received byte, in order |
| `Cli.RecordWriterCreationFails` | src/cli.rs:89-90 | when the file cannot be created the run has no effect and fails with the writer-creation error |
| `Cli.RecordFromFailureLeavesFile` | src/cli.rs:89-92 | when `from`'s second query fails the file has been created, nothing else happens, and the run fails with DefaultConfigError |
| `Cli.RecordBuildFails` | src/cli.rs:92-112 | when the stream cannot be built the file is created and the countdown runs, no stream starts, and the run fails with the backend's build error |
| `Cli.RecordPlayFails` | src/cli.rs:100-114 | when the backend refuses to play, the effects stop after the countdown and the run fails with PlayError |
| `Cli.RecordStopLineUnread` | src/cli.rs:114-116 | when the stop line cannot be read the stream has started, the writer is not finalized explicitly and the run succeeds |
| `Cli.RecordFinalizeFails` | src/cli.rs:116-119 | when finalize fails the stream has started, no save effect follows and the run fails with the finalize error |
| `Cli.RecordStreamMatchesHeader` | src/cli.rs:89-112 | any stream the run starts is an input stream with the configuration of `from`'s second query; that configuration is the file header's configuration iff the second answer repeats the first, and then the stream's header is the file's |
| `Cli.RecordHeaderMismatchReachable` | src/cli.rs:89-112 | for a device whose second answer differs from its first, a successful run starts a stream whose header differs from the file's |
| `Cli.RecordDelayBeforeStart` | src/cli.rs:92-114 | every countdown effect comes before the stream starts |
| `Cli.RecordSavesOnlyOnStop` | src/cli.rs:116-123 | the explicit finalize saves a file only if the stop line was read and finalize succeeded; that save is then the last effect and the command succeeds |

## Left out

- Audiort.ErrorMessage: the contract states only the writer-creation message; the other seven texts are the body's literals, with no contract of their own beyond distinctness.
- cpal host and device queries, stream construction and `Stream::play` are foreign calls. Their answers are inputs (`Host`, `BackendDevice`, the `query`, `built` and `backendPlays` parameters, `Cli.Environment`).
- The buffer-size field of cpal's supported stream configuration is not modelled. Nothing in the core reads it.
- `DeviceBuilder::name` is a best-effort foreign query used only for a diagnostic line. The source's `kind()`, `config()` and `stream()` accessors are the record fields of the same names.
- Cli.RecordFromFailureLeavesFile: does not show that the writer dropped by the early return of `from`'s error is finalized by hound, leaving an empty WAV file; hound's drop behaviour is outside the model.
- Cli.RecordStopLineUnread: does not show that the writer, dropped with the stream's callback at the end of the command, is finalized by hound with every recorded sample; the session lists only the explicit finalize.
- Cli.RecordSavesOnlyOnStop: `SaveFile` is the explicit finalize only; a file hound finalizes on drop on the other exits is not a `SaveFile` effect.
- hound's file creation, its on-disk sample encoding and its header patching in `finalize` are file I/O in a library outside the model. A writer is its header plus the sample values written so far. hound finalizing a dropped, never-taken writer is not modelled either.
- `Arc<Mutex<…>>` locking and lock poisoning are not modelled. A failed lock makes the source's callback and finalize branch silently do nothing. The real-time callback thread is not modelled: the slot is a value updated one step at a time.
- The panicking stream error callbacks and the `expect` on a failed sample write are not modelled. This includes hound rejecting an 8-bit sample for a sample width it cannot write.
- `println!`/`eprintln!` diagnostics are not modelled.
- Failing terminal writes and flushes inside `do_delay` are not modelled: every write is assumed to succeed.
- clap argument parsing, reading the stop line from standard input and real sleeping are not modelled. The stop line is a boolean; sleeps are trace events.
- The Loopback command branch is unfinished and never plays a stream.
- src/main.rs is a one-line entry point.
- The error variants `StreamConfigFormatError`, `StreamCreationError`, `OutputLockError` and `WriterCreationError` are never constructed by the core. They appear only through their `Display` messages.
- The delay is a `nat`, not a `usize`: no count in the trace is large enough for the width to matter.
