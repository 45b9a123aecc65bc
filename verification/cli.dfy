/** The command-line front end's Record command as one session: resolve the
    device, create the WAV writer with the device's header, bind a stream
    builder, count down, register the writer callback, play, and on the
    user's line of input take and finalize the writer.

    Every answer from outside the model (the audio host, whether the file
    could be created, the backend's second default-configuration answer
    asked for by the stream builder, the stream build and play results, the
    buffers the callback receives while recording, the read of the stop line
    and the WAV library's finalize) is a field of `Environment`. */
module Cli {
  import opened Wrappers
  import opened Audiort
  import opened Sink
  import opened Delay

  /** The path the recording is written to: the one given on the command
      line, or `out.wav` in the working directory when none is given. */
  function OutputPath(output: Option<string>): (path: string)
    ensures output.None? ==> path == "out.wav"
    ensures output.Some? ==> path == output.value
  {
    match output
    case None => "out.wav"
    case Some(p) => p
  }

  /** The answers of everything outside the model, for one Record run.
      `host` answers the device resolution; `requery` is the device's answer
      when the stream builder asks it again for its default configuration. */
  datatype Environment = Environment(
    host: Host,
    fileCreatable: bool,
    requery: Option<StreamConfig>,
    build: Result<nat, BuildStreamError>,
    backendPlays: bool,
    buffers: seq<seq<u8>>,
    stopLineRead: bool,
    finalizeOk: bool)

  /** The errors `cli_main` returns from the Record command. */
  datatype CliError =
    | Library(error: Error)
    | WriterCreationFailed
    | StreamCreationFailed(cause: BuildStreamError)
    | FinalizeError

  /** The effects of a run, in the order they happen. `SaveFile` is the
      explicit `finalize` of the taken writer; the finalize hound performs
      when a writer is dropped without being taken is not an effect here. */
  datatype Effect =
    | CreateFile(path: string, spec: WavSpec)
    | Console(event: Event)
    | StartStream(stream: Stream)
    | SaveFile(path: string, file: WavFile)

  /** A run's effects and the command's result. */
  datatype Session = Session(effects: seq<Effect>, result: Outcome<CliError>)

  /** The default device for the requested direction. */
  function Resolve(kind: Device, host: Host): Result<DeviceBuilder, Error>
  {
    match kind
    case Input => NewDefaultInput(host)
    case Output => NewDefaultOutput(host)
  }

  /** The countdown's events as session effects. */
  function ConsoleEffects(t: seq<Event>): (e: seq<Effect>)
    ensures |e| == |t|
    ensures forall i :: 0 <= i < |t| ==> e[i] == Console(t[i])
  {
    seq(|t|, i requires 0 <= i < |t| => Console(t[i]))
  }

  /** The Record command. The model delivers the buffers to the writer
      callback only once the stream plays, although some backends run a
      stream as soon as it is built. The writer is finalized explicitly only
      once the stop line is read. */
  function Record(kind: Device, output: Option<string>, delay: Option<nat>, quiet: bool, env: Environment): (s: Session)
    ensures Resolve(kind, env.host).Err? ==> s == Session([], Fail(Library(Resolve(kind, env.host).error)))
    ensures s.effects != [] ==>
              && Resolve(kind, env.host).Ok?
              && s.effects[0] == CreateFile(OutputPath(output), AsWavSpec(Resolve(kind, env.host).value.config))
  {
    var path := OutputPath(output);
    match Resolve(kind, env.host)
    case Err(e) => Session([], Fail(Library(e)))
    case Ok(device) =>
      var spec := AsWavSpec(device.config);
      if !env.fileCreatable then Session([], Fail(WriterCreationFailed))
      else
        var created := [CreateFile(path, spec)];
        match From(device, env.requery)
        case Err(e) => Session(created, Fail(Library(e)))
        case Ok(sb) =>
          var delayed := created + ConsoleEffects(DoDelay(delay, quiet));
          var slot := WriterSlot(Some(WavWriter(spec, [])));
          var built := WithReader(sb, env.build);
          match built.1
          case Err(cause) => Session(delayed, Fail(StreamCreationFailed(cause)))
          case Ok(stream) =>
            match Play(built.0, env.backendPlays)
            case Fail(e) => Session(delayed, Fail(Library(e)))
            case Pass =>
              var started := delayed + [StartStream(stream)];
              var filled := Run(slot, Buffers(env.buffers)).0;
              if !env.stopLineRead then Session(started, Pass)
              else
                match FinalizeBranch(filled, env.finalizeOk).1
                case Written(file) => Session(started + [SaveFile(path, file)], Pass)
                case NothingTaken => Session(started, Pass)
                case FinalizeFailed => Session(started, Fail(FinalizeError))
  }

  /** The effects up to the countdown's end, once the file is created and
      the stream builder is bound. */
  function Delayed(device: DeviceBuilder, output: Option<string>, delay: Option<nat>, quiet: bool): seq<Effect>
  {
    [CreateFile(OutputPath(output), AsWavSpec(device.config))] + ConsoleEffects(DoDelay(delay, quiet))
  }

  /** Whether every answer from outside the model is the favourable one. */
  predicate AllGoesWell(kind: Device, env: Environment)
  {
    && Resolve(kind, env.host).Ok?
    && env.fileCreatable
    && env.requery.Some?
    && env.build.Ok?
    && env.backendPlays
    && env.stopLineRead
    && env.finalizeOk
  }

  /** A run where everything goes well: the file is created at the chosen
      path under the device's header, the countdown runs, an input stream is
      started with the configuration the stream builder was given, and the
      saved file holds the device's header and one 8-bit sample per received
      byte, in order. */
  lemma RecordHappyPath(kind: Device, output: Option<string>, delay: Option<nat>, quiet: bool, env: Environment)
    requires AllGoesWell(kind, env)
    ensures var device := Resolve(kind, env.host).value;
            Record(kind, output, delay, quiet, env) ==
              Session(
                Delayed(device, output, delay, quiet)
                + [StartStream(Stream(env.build.value, Input, env.requery.value)),
                   SaveFile(OutputPath(output), WavFile(AsWavSpec(device.config), DecodeAll(env.buffers)))],
                Pass)
  {
    var device := Resolve(kind, env.host).value;
    var w := WavWriter(AsWavSpec(device.config), []);
    RunBuffersAppends(w, env.buffers);
    assert [] + DecodeAll(env.buffers) == DecodeAll(env.buffers);
  }

  /** The file cannot be created: nothing happens and the command fails. */
  lemma RecordWriterCreationFails(kind: Device, output: Option<string>, delay: Option<nat>, quiet: bool, env: Environment)
    requires Resolve(kind, env.host).Ok?
    requires !env.fileCreatable
    ensures Record(kind, output, delay, quiet, env) == Session([], Fail(WriterCreationFailed))
  {
  }

  /** The stream builder's second configuration query fails: the file has
      already been created, `finalize` is never called explicitly (the
      dropped writer is finalized by hound, which the model does not show),
      no countdown runs and the command fails with the library's
      configuration error. */
  lemma RecordFromFailureLeavesFile(kind: Device, output: Option<string>, delay: Option<nat>, quiet: bool, env: Environment)
    requires Resolve(kind, env.host).Ok?
    requires env.fileCreatable
    requires env.requery.None?
    ensures var device := Resolve(kind, env.host).value;
            Record(kind, output, delay, quiet, env) ==
              Session([CreateFile(OutputPath(output), AsWavSpec(device.config))], Fail(Library(DefaultConfigError)))
  {
  }

  /** The backend cannot build the stream: the countdown has run, no stream
      starts, and the backend's error is carried in the command's. */
  lemma RecordBuildFails(kind: Device, output: Option<string>, delay: Option<nat>, quiet: bool, env: Environment)
    requires Resolve(kind, env.host).Ok?
    requires env.fileCreatable
    requires env.requery.Some?
    requires env.build.Err?
    ensures Record(kind, output, delay, quiet, env) ==
              Session(Delayed(Resolve(kind, env.host).value, output, delay, quiet),
                      Fail(StreamCreationFailed(env.build.error)))
  {
  }

  /** The backend refuses to play the built stream: no stream starts and the
      command fails with the library's play error. */
  lemma RecordPlayFails(kind: Device, output: Option<string>, delay: Option<nat>, quiet: bool, env: Environment)
    requires Resolve(kind, env.host).Ok?
    requires env.fileCreatable
    requires env.requery.Some?
    requires env.build.Ok?
    requires !env.backendPlays
    ensures Record(kind, output, delay, quiet, env) ==
              Session(Delayed(Resolve(kind, env.host).value, output, delay, quiet), Fail(Library(PlayError)))
  {
  }

  /** The stream plays but the stop line cannot be read: the command ends
      successfully without calling `finalize` explicitly (the dropped writer
      is finalized by hound, which the model does not show). */
  lemma RecordStopLineUnread(kind: Device, output: Option<string>, delay: Option<nat>, quiet: bool, env: Environment)
    requires Resolve(kind, env.host).Ok?
    requires env.fileCreatable
    requires env.requery.Some?
    requires env.build.Ok?
    requires env.backendPlays
    requires !env.stopLineRead
    ensures Record(kind, output, delay, quiet, env) ==
              Session(Delayed(Resolve(kind, env.host).value, output, delay, quiet)
                      + [StartStream(Stream(env.build.value, Input, env.requery.value))], Pass)
  {
  }

  /** The WAV library fails to finalize the taken writer: the stream has
      started, no explicit finalize succeeds, and the command fails. */
  lemma RecordFinalizeFails(kind: Device, output: Option<string>, delay: Option<nat>, quiet: bool, env: Environment)
    requires Resolve(kind, env.host).Ok?
    requires env.fileCreatable
    requires env.requery.Some?
    requires env.build.Ok?
    requires env.backendPlays
    requires env.stopLineRead
    requires !env.finalizeOk
    ensures Record(kind, output, delay, quiet, env) ==
              Session(Delayed(Resolve(kind, env.host).value, output, delay, quiet)
                      + [StartStream(Stream(env.build.value, Input, env.requery.value))], Fail(FinalizeError))
  {
    var device := Resolve(kind, env.host).value;
    RunBuffersAppends(WavWriter(AsWavSpec(device.config), []), env.buffers);
  }

  /** The stream the Record command starts is an input stream, even when
      recording from an output device, and runs with the configuration of
      the stream builder's second query. That configuration is the one the
      file header was derived from exactly when the backend answers the
      second query as it did at resolve time; then the stream's header is
      the file's. */
  lemma RecordStreamMatchesHeader(kind: Device, output: Option<string>, delay: Option<nat>, quiet: bool, env: Environment, i: nat)
    requires i < |Record(kind, output, delay, quiet, env).effects|
    requires Record(kind, output, delay, quiet, env).effects[i].StartStream?
    ensures Resolve(kind, env.host).Ok? && env.requery.Some?
    ensures Record(kind, output, delay, quiet, env).effects[i].stream.direction == Input
    ensures Record(kind, output, delay, quiet, env).effects[i].stream.config == env.requery.value
    ensures var device := Resolve(kind, env.host).value;
            var config := Record(kind, output, delay, quiet, env).effects[i].stream.config;
            config == device.config <==> env.requery == DefaultConfig(device.inner, kind)
    ensures var device := Resolve(kind, env.host).value;
            env.requery == DefaultConfig(device.inner, kind) ==>
              AsWavSpec(Record(kind, output, delay, quiet, env).effects[i].stream.config) ==
                Record(kind, output, delay, quiet, env).effects[0].spec
  {
    NewDefaultCarriesDefaultConfig(env.host);
  }

  /** A host whose default input device reports mono 8-bit audio at
      resolve time and stereo audio when asked again. */
  const ChangingHost := Host(
    Some(BackendDevice(0, Some(StreamConfig(1, 8000, I8)), None)),
    None)

  /** A run on `ChangingHost` in which everything succeeds. */
  const ChangingEnvironment := Environment(
    ChangingHost, true, Some(StreamConfig(2, 8000, I8)), Ok(0), true, [], true, true)

  /** When the backend's second answer differs from its first, the Record
      command starts a stream whose header is not the header of the file it
      writes. */
  lemma RecordHeaderMismatchReachable()
    ensures var s := Record(Input, None, None, true, ChangingEnvironment);
            && |s.effects| == 3
            && s.effects[1].StartStream?
            && AsWavSpec(s.effects[1].stream.config) != s.effects[0].spec
  {
    RecordStopLineUnread(Input, None, None, true, ChangingEnvironment.(stopLineRead := false));
    RecordHappyPath(Input, None, None, true, ChangingEnvironment);
  }

  /** Every countdown effect happens before the stream starts: recording
      never begins mid-countdown. */
  lemma RecordDelayBeforeStart(kind: Device, output: Option<string>, delay: Option<nat>, quiet: bool, env: Environment, i: nat, j: nat)
    requires j < |Record(kind, output, delay, quiet, env).effects|
    requires i < |Record(kind, output, delay, quiet, env).effects|
    requires Record(kind, output, delay, quiet, env).effects[i].Console?
    requires Record(kind, output, delay, quiet, env).effects[j].StartStream?
    ensures i < j
  {
  }

  /** The explicit finalize saves a file only when the stop line was read
      and the WAV library finalized it, and then exactly once, as the last
      effect. */
  lemma RecordSavesOnlyOnStop(kind: Device, output: Option<string>, delay: Option<nat>, quiet: bool, env: Environment, i: nat)
    requires i < |Record(kind, output, delay, quiet, env).effects|
    requires Record(kind, output, delay, quiet, env).effects[i].SaveFile?
    ensures env.stopLineRead && env.finalizeOk
    ensures i == |Record(kind, output, delay, quiet, env).effects| - 1
    ensures Record(kind, output, delay, quiet, env).result == Pass
  {
  }
}
