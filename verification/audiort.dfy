/** The library half of audiort: how a negotiated device configuration becomes a
    WAV header, the library's error type and its messages, and the device and
    stream builders as immutable records with explicit state updates.

    The audio backend (cpal) is foreign. Its answers (which default devices
    exist, what default configuration each reports, whether a stream could be
    built or started) are read from plain records and parameters. */
module Audiort {
  import opened Wrappers

  type u16 = x: int | 0 <= x < 0x1_0000
  type u32 = x: int | 0 <= x < 0x1_0000_0000

  // ---------------------------------------------------------------------------
  // Sample formats and the WAV header
  // ---------------------------------------------------------------------------

  /** The backend's sample formats, a closed set. */
  datatype SampleFormat = I8 | I16 | I32 | I64 | U8 | U16 | U32 | U64 | F32 | F64

  /** Width in bytes of one sample of the format (the backend's `sample_size`). */
  function SampleSize(f: SampleFormat): nat
  {
    match f
    case I8 | U8 => 1
    case I16 | U16 => 2
    case I32 | U32 | F32 => 4
    case I64 | U64 | F64 => 8
  }

  /** Whether the format holds floating-point samples (the backend's `is_float`). */
  predicate IsFloat(f: SampleFormat)
  {
    f == F32 || f == F64
  }

  /** A configuration the device reports as supported: channel count, sample
      rate in Hz and sample format. */
  datatype StreamConfig = StreamConfig(channels: u16, sampleRate: u32, sampleFormat: SampleFormat)

  /** The WAV library's sample-format tag. */
  datatype WavSampleFormat = Float | Int

  /** The WAV library's header description. */
  datatype WavSpec = WavSpec(channels: u16, sampleRate: u32, bitsPerSample: u16, sampleFormat: WavSampleFormat)

  /** `as_wav_spec`: the header a recording of a stream with configuration `c`
      is written under. The byte width is cast to 16 bits before the
      multiplication by 8, as the source does; no format is wide enough for
      either step to lose anything. */
  function AsWavSpec(c: StreamConfig): (w: WavSpec)
    ensures w.channels == c.channels
    ensures w.sampleRate == c.sampleRate
    ensures w.bitsPerSample == 8 * SampleSize(c.sampleFormat)
    ensures w.bitsPerSample % 8 == 0 && 8 <= w.bitsPerSample <= 64
    ensures w.sampleFormat == Float <==> IsFloat(c.sampleFormat)
    ensures w.sampleFormat == Int <==> !IsFloat(c.sampleFormat)
  {
    WavSpec(
      c.channels,
      c.sampleRate,
      (SampleSize(c.sampleFormat) % 0x1_0000) * 8,
      if IsFloat(c.sampleFormat) then Float else Int)
  }

  /** Two configurations give the same header exactly when they agree on the
      channel count, the sample rate, the sample width and float-ness: the
      header forgets signedness and nothing else. */
  lemma AsWavSpecEqualIff(c1: StreamConfig, c2: StreamConfig)
    ensures AsWavSpec(c1) == AsWavSpec(c2) <==>
              && c1.channels == c2.channels
              && c1.sampleRate == c2.sampleRate
              && SampleSize(c1.sampleFormat) == SampleSize(c2.sampleFormat)
              && (IsFloat(c1.sampleFormat) <==> IsFloat(c2.sampleFormat))
  {
  }

  /** A float header is always 32 or 64 bits wide. */
  lemma FloatHeaderWidth(c: StreamConfig)
    requires AsWavSpec(c).sampleFormat == Float
    ensures AsWavSpec(c).bitsPerSample == 32 || AsWavSpec(c).bitsPerSample == 64
  {
  }

  // ---------------------------------------------------------------------------
  // Errors
  // ---------------------------------------------------------------------------

  /** The library's error type. */
  datatype Error =
    | DefaultInputDeviceError
    | DefaultOutputDeviceError
    | DefaultConfigError
    | StreamConfigFormatError
    | StreamCreationError
    | OutputLockError
    | WriterCreationError(detail: string)
    | PlayError

  const WriterCreationPrefix: string := "Error creating data writer\n"

  predicate IsWriterCreationMessage(m: string)
  {
    |m| >= |WriterCreationPrefix| && m[..|WriterCreationPrefix|] == WriterCreationPrefix
  }

  /** The `Display` text of each error, exactly as the source writes it. */
  function ErrorMessage(e: Error): (m: string)
    ensures e.WriterCreationError? ==> m == WriterCreationPrefix + e.detail
  {
    match e
    case DefaultInputDeviceError => "Error getting default input device"
    case DefaultOutputDeviceError => "Error getting default output device"
    case DefaultConfigError => "Error getting output lock"
    case StreamConfigFormatError => "Bad stream config format"
    case StreamCreationError => "Error creating stream"
    case OutputLockError => "Error getting default device config"
    case WriterCreationError(detail) => WriterCreationPrefix + detail
    case PlayError => "Error recording data"
  }

  /** A message starts with the writer-creation prefix exactly when it
      reports a writer-creation error; the rest of it is then the detail. */
  lemma WriterCreationMessageIff(e: Error)
    ensures IsWriterCreationMessage(ErrorMessage(e)) <==> e.WriterCreationError?
    ensures e.WriterCreationError? ==> ErrorMessage(e)[|WriterCreationPrefix|..] == e.detail
  {
    var m := ErrorMessage(e);
    var p := WriterCreationPrefix;
    if !e.WriterCreationError? {
      // Every fixed message is either shorter than the prefix or differs
      // from it at index 0 or 6.
      assert |m| < |p| || m[0] != p[0] || m[6] != p[6];
    }
  }

  /** Distinct errors are displayed with distinct messages, so a message
      identifies its error. */
  lemma ErrorMessageInjective(e1: Error, e2: Error)
    requires e1 != e2
    ensures ErrorMessage(e1) != ErrorMessage(e2)
  {
    var m1, m2 := ErrorMessage(e1), ErrorMessage(e2);
    WriterCreationMessageIff(e1);
    WriterCreationMessageIff(e2);
    if e1.WriterCreationError? && e2.WriterCreationError? {
      assert m1[|WriterCreationPrefix|..] != m2[|WriterCreationPrefix|..];
    } else if !e1.WriterCreationError? && !e2.WriterCreationError? {
      if |m1| == |m2| {
        // The only two fixed messages of equal length part at index 22.
        assert m1[22] != m2[22];
      }
    }
  }

  // ---------------------------------------------------------------------------
  // Devices
  // ---------------------------------------------------------------------------

  /** The library's device direction. */
  datatype Device = Input | Output

  /** What the backend reports about one physical device: an identity and the
      answer of its default-configuration query in each direction. */
  datatype BackendDevice = BackendDevice(
    id: nat,
    defaultInputConfig: Option<StreamConfig>,
    defaultOutputConfig: Option<StreamConfig>)

  /** The backend's default host: its default device in each direction, if any. */
  datatype Host = Host(defaultInputDevice: Option<BackendDevice>, defaultOutputDevice: Option<BackendDevice>)

  /** The device's answer to the default-configuration query for `kind`. */
  function DefaultConfig(d: BackendDevice, kind: Device): Option<StreamConfig>
  {
    match kind
    case Input => d.defaultInputConfig
    case Output => d.defaultOutputConfig
  }

  /** A resolved device: its direction, the backend device and the
      configuration recordings will use. The accessors `kind()` and
      `config()` of the source are the fields `kind` and `config`. */
  datatype DeviceBuilder = DeviceBuilder(kind: Device, inner: BackendDevice, config: StreamConfig)

  /** `new_default_input`: the host's default input device with its default
      input configuration. */
  function NewDefaultInput(host: Host): (r: Result<DeviceBuilder, Error>)
    ensures r == Err(DefaultInputDeviceError) <==> host.defaultInputDevice.None?
    ensures r == Err(DefaultConfigError) <==>
              host.defaultInputDevice.Some? && host.defaultInputDevice.value.defaultInputConfig.None?
    ensures r.Ok? || r == Err(DefaultInputDeviceError) || r == Err(DefaultConfigError)
    ensures r.Ok? ==>
              && r.value.kind == Input
              && host.defaultInputDevice == Some(r.value.inner)
              && r.value.inner.defaultInputConfig == Some(r.value.config)
  {
    match host.defaultInputDevice
    case None => Err(DefaultInputDeviceError)
    case Some(device) =>
      match device.defaultInputConfig
      case None => Err(DefaultConfigError)
      case Some(config) => Ok(DeviceBuilder(Input, device, config))
  }

  /** `new_default_output`: the host's default output device with its default
      output configuration. */
  function NewDefaultOutput(host: Host): (r: Result<DeviceBuilder, Error>)
    ensures r == Err(DefaultOutputDeviceError) <==> host.defaultOutputDevice.None?
    ensures r == Err(DefaultConfigError) <==>
              host.defaultOutputDevice.Some? && host.defaultOutputDevice.value.defaultOutputConfig.None?
    ensures r.Ok? || r == Err(DefaultOutputDeviceError) || r == Err(DefaultConfigError)
    ensures r.Ok? ==>
              && r.value.kind == Output
              && host.defaultOutputDevice == Some(r.value.inner)
              && r.value.inner.defaultOutputConfig == Some(r.value.config)
  {
    match host.defaultOutputDevice
    case None => Err(DefaultOutputDeviceError)
    case Some(device) =>
      match device.defaultOutputConfig
      case None => Err(DefaultConfigError)
      case Some(config) => Ok(DeviceBuilder(Output, device, config))
  }

  /** A freshly resolved device carries the device's default configuration for
      its own direction. */
  lemma NewDefaultCarriesDefaultConfig(host: Host)
    ensures NewDefaultInput(host).Ok? ==>
              DefaultConfig(NewDefaultInput(host).value.inner, Input) == Some(NewDefaultInput(host).value.config)
    ensures NewDefaultOutput(host).Ok? ==>
              DefaultConfig(NewDefaultOutput(host).value.inner, Output) == Some(NewDefaultOutput(host).value.config)
  {
  }

  /** `with_config`: replaces the configuration and nothing else. */
  function WithConfig(d: DeviceBuilder, config: StreamConfig): (r: DeviceBuilder)
    ensures r.config == config
    ensures r.kind == d.kind && r.inner == d.inner
  {
    d.(config := config)
  }

  /** The last `with_config` wins, and re-setting the current configuration
      changes nothing. */
  lemma WithConfigLastWins(d: DeviceBuilder, a: StreamConfig, b: StreamConfig)
    ensures WithConfig(WithConfig(d, a), b) == WithConfig(d, b)
    ensures WithConfig(d, d.config) == d
  {
  }

  // ---------------------------------------------------------------------------
  // Streams
  // ---------------------------------------------------------------------------

  /** cpal's `BuildStreamError`. */
  datatype BuildStreamError =
    | DeviceNotAvailable
    | StreamConfigNotSupported
    | InvalidArgument
    | StreamIdOverflow
    | BackendSpecific(description: string)

  /** A stream the backend built: its identity, the direction it was built
      for and the configuration it runs with. */
  datatype Stream = Stream(id: nat, direction: Device, config: StreamConfig)

  /** A device bound into a stream builder, with the configuration streams are
      built with, the stream built so far (if any) and the builder's kind. */
  datatype StreamBuilder = StreamBuilder(device: DeviceBuilder, config: StreamConfig, stream: Option<Stream>, kind: Device)

  /** `StreamBuilder::from`: asks the backend device again for its default
      configuration in the device's direction; `query` is that second
      answer, which need not repeat the one given when the device was
      resolved. The builder's own configuration, and any `with_config`
      override of it, is not consulted. */
  function From(device: DeviceBuilder, query: Option<StreamConfig>): (r: Result<StreamBuilder, Error>)
    ensures r.Ok? <==> query.Some?
    ensures r.Err? ==> r.error == DefaultConfigError
    ensures r.Ok? ==>
              && r.value.device == device
              && r.value.kind == device.kind
              && r.value.stream.None?
              && Some(r.value.config) == query
  {
    match query
    case None => Err(DefaultConfigError)
    case Some(config) => Ok(StreamBuilder(device, config, None, device.kind))
  }

  /** A `with_config` override before `from` does not reach the stream
      builder's configuration, nor decide whether `from` succeeds. */
  lemma FromIgnoresConfigOverride(d: DeviceBuilder, c: StreamConfig, query: Option<StreamConfig>)
    ensures From(WithConfig(d, c), query).Ok? <==> From(d, query).Ok?
    ensures From(d, query).Ok? ==> From(WithConfig(d, c), query).value.config == From(d, query).value.config
  {
  }

  /** The stream builder's configuration equals the device's configuration
      exactly when the backend's second answer repeats it. */
  lemma FromConfigMatchesDeviceIff(d: DeviceBuilder, query: Option<StreamConfig>)
    requires From(d, query).Ok?
    ensures From(d, query).value.config == d.config <==> query == Some(d.config)
  {
  }

  /** When the backend answers the second query as it answered at resolve
      time, a freshly resolved device's stream builder uses the device's
      configuration. */
  lemma FromRepeatedAnswerKeepsConfig(host: Host, kind: Device)
    ensures var d := if kind == Input then NewDefaultInput(host) else NewDefaultOutput(host);
            d.Ok? ==>
              && From(d.value, DefaultConfig(d.value.inner, kind)).Ok?
              && From(d.value, DefaultConfig(d.value.inner, kind)).value.config == d.value.config
  {
    NewDefaultCarriesDefaultConfig(host);
  }

  /** `as_input`: sets the kind to `Input` and changes nothing else. */
  function AsInput(sb: StreamBuilder): (r: StreamBuilder)
    ensures r.kind == Input
    ensures r.device == sb.device && r.config == sb.config && r.stream == sb.stream
  {
    sb.(kind := Input)
  }

  /** `as_output`: sets the kind to `Output` and changes nothing else. */
  function AsOutput(sb: StreamBuilder): (r: StreamBuilder)
    ensures r.kind == Output
    ensures r.device == sb.device && r.config == sb.config && r.stream == sb.stream
  {
    sb.(kind := Output)
  }

  /** `play`: starts the built stream if there is one; the backend's answer is
      `backendPlays`. Without a stream it succeeds and does nothing. */
  function Play(sb: StreamBuilder, backendPlays: bool): (r: Outcome<Error>)
    ensures sb.stream.None? ==> r == Pass
    ensures r.Fail? <==> sb.stream.Some? && !backendPlays
    ensures r.Fail? ==> r.error == PlayError
  {
    match sb.stream
    case None => Pass
    case Some(_) => if backendPlays then Pass else Fail(PlayError)
  }

  /** Stores a stream the backend built for `direction`, or reports its error
      and leaves the builder as it was. Shared by `with_reader` and
      `with_writer`. */
  function Build(sb: StreamBuilder, direction: Device, built: Result<nat, BuildStreamError>): (StreamBuilder, Result<Stream, BuildStreamError>)
  {
    match built
    case Err(e) => (sb, Err(e))
    case Ok(id) =>
      var s := Stream(id, direction, sb.config);
      (sb.(stream := Some(s)), Ok(s))
  }

  /** `with_reader`: asks the backend for an input stream with the builder's
      configuration (`built` is the answer). On success the stream slot holds
      the new stream, which is also returned; on failure the builder is
      unchanged. */
  function WithReader(sb: StreamBuilder, built: Result<nat, BuildStreamError>): (r: (StreamBuilder, Result<Stream, BuildStreamError>))
    ensures built.Err? ==> r.0 == sb && r.1 == Err(built.error)
    ensures built.Ok? ==>
              && r.1.Ok?
              && r.0.stream == Some(r.1.value)
              && r.1.value == Stream(built.value, Input, sb.config)
              && r.0.device == sb.device && r.0.config == sb.config && r.0.kind == sb.kind
  {
    Build(sb, Input, built)
  }

  /** `with_writer`: as `with_reader`, for an output stream. */
  function WithWriter(sb: StreamBuilder, built: Result<nat, BuildStreamError>): (r: (StreamBuilder, Result<Stream, BuildStreamError>))
    ensures built.Err? ==> r.0 == sb && r.1 == Err(built.error)
    ensures built.Ok? ==>
              && r.1.Ok?
              && r.0.stream == Some(r.1.value)
              && r.1.value == Stream(built.value, Output, sb.config)
              && r.0.device == sb.device && r.0.config == sb.config && r.0.kind == sb.kind
  {
    Build(sb, Output, built)
  }

  /** The builder's kind does not steer which stream is built: `with_reader`
      always builds an input stream and `with_writer` an output stream, so
      `as_input`/`as_output` change no built stream. */
  lemma KindDoesNotSteerBuild(sb: StreamBuilder, built: Result<nat, BuildStreamError>)
    ensures WithReader(AsInput(sb), built).1 == WithReader(AsOutput(sb), built).1 == WithReader(sb, built).1
    ensures WithWriter(AsInput(sb), built).1 == WithWriter(AsOutput(sb), built).1 == WithWriter(sb, built).1
  {
  }

  /** Playing before any stream is built succeeds whatever the backend would
      answer, and a failed build keeps it that way. */
  lemma PlayBeforeBuildIsNoOp(d: DeviceBuilder, query: Option<StreamConfig>, e: BuildStreamError, backendPlays: bool)
    requires From(d, query).Ok?
    ensures Play(From(d, query).value, backendPlays) == Pass
    ensures Play(WithReader(From(d, query).value, Err(e)).0, backendPlays) == Pass
  {
  }
}
