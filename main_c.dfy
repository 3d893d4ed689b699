/**
 * The C program: one global context that owns the SDL library, an audio
 * device and a test WAV buffer; `init` acquires them in that order and stops
 * at the first failure, `quit` releases whatever is held in the reverse
 * order and may be called any number of times. In between, a 440 Hz square
 * wave is written into a `struct wave` as left/right pairs and queued.
 */
module MainC {
  import opened CTypes
  import opened SdlHost
  import opened Waveform
  import opened Generate

  /** `AUDIO_DEVICE_FREQ` and `AUDIO_DEVICE_CHANNELS`. */
  const AudioDeviceFreq: nat := 48000
  const AudioDeviceChannels: nat := 2
  /** `duration` of `main`, in seconds. */
  const Duration: nat := 4
  /** The tone of `main`, in Hz. */
  const ToneFreq: real := 440.0
  /** The `SDL_AudioSpec` request of `init_audio_device`. */
  const DeviceWant: AudioSpec := AudioSpec(AudioDeviceFreq, AudioF32, AudioDeviceChannels, 4096)
  /** The sample-index bound of the fill loop, `sampleRate * duration`. */
  const MonoSamples: nat := AudioDeviceFreq * Duration
  /** The capacity of the wave, `channels * sampleRate * duration`. */
  const WaveCapacity: nat := AudioDeviceChannels * AudioDeviceFreq * Duration

  // ---------------------------------------------------------------------------
  // g_context

  /**
   * The value of `PMTContext`: the device id (0 for none), whether the WAV
   * buffer came from the converter (and so must go to SDL_free), whether the
   * buffer pointer is non-NULL, and its byte length.
   */
  datatype ContextState = ContextState(audioDevice: nat, converted: bool, hasBuffer: bool, len: nat)

  /** `{ 0, }`: the initial value of `g_context`. */
  const ZeroContext: ContextState := ContextState(0, false, false, 0)

  /** `g_context`, whose fields `init` and `quit` update in place. */
  class Context {
    var audioDevice: nat
    var converted: bool
    var hasBuffer: bool
    var len: nat

    function State(): ContextState
      reads this
    {
      ContextState(audioDevice, converted, hasBuffer, len)
    }

    constructor ()
      ensures State() == ZeroContext
    {
      audioDevice, converted, hasBuffer, len := 0, false, false, 0;
    }
  }

  // ---------------------------------------------------------------------------
  // init

  /** Whether `init_test_wav` reports success for the outcome `wav`. */
  function TestWavOk(wav: WavOutcome): bool
  {
    wav.WavReady? || wav.WavConverted?
  }

  /**
   * The context after `init_test_wav` with outcome `wav`. A failed load
   * leaves it as it was. Every load sets the buffer and its length; a load
   * that needs no conversion clears `converted`, a failed conversion leaves
   * `converted` and the loaded buffer alone, and a successful one installs
   * the converted buffer, whose `len * len_mult` bytes are stored in a
   * `Uint32` and so wrap modulo 2^32.
   */
  function TestWavState(s: ContextState, wav: WavOutcome): ContextState
  {
    match wav
    case WavMissing => s
    case WavReady(len) => s.(converted := false, hasBuffer := true, len := len)
    case WavBuildFailed(len) => s.(hasBuffer := true, len := len)
    case WavConvertFailed(len) => s.(hasBuffer := true, len := len)
    case WavConverted(len, lenMult) => s.(converted := true, hasBuffer := true, len := ToUint32(len * lenMult))
  }

  /** The SDL calls of `init`: each step runs only when the previous one succeeded. */
  function InitEvents(sdlOk: bool, openedId: nat, wav: WavOutcome): seq<Event>
  {
    [Init(InitAudio, sdlOk)]
    + (if sdlOk then [OpenAudioDevice(DeviceWant, openedId)] else [])
    + (if sdlOk && openedId != 0 then [LoadWav(wav)] else [])
  }

  /** The context after `init`: the device id is stored even when it is 0. */
  function InitState(s: ContextState, sdlOk: bool, openedId: nat, wav: WavOutcome): ContextState
  {
    if !sdlOk then s
    else if openedId == 0 then s.(audioDevice := 0)
    else TestWavState(s.(audioDevice := openedId), wav)
  }

  /** `init` succeeds exactly when all three steps do. */
  function InitOk(sdlOk: bool, openedId: nat, wav: WavOutcome): bool
  {
    sdlOk && openedId != 0 && TestWavOk(wav)
  }

  /** `init_sdl`: `SDL_Init(SDL_INIT_AUDIO)`, whose success is `sdlOk`. */
  method InitSdl(host: Host, sdlOk: bool) returns (ok: bool)
    modifies host
    ensures ok == sdlOk
    ensures host.log == old(host.log) + [Init(InitAudio, sdlOk)]
    ensures host.initialized == (old(host.initialized) || sdlOk)
  {
    host.Invoke(Init(InitAudio, sdlOk));
    ok := sdlOk;
  }

  /** `init_audio_device`: stores the id SDL returns and succeeds when it is nonzero. */
  method InitAudioDevice(context: Context, host: Host, openedId: nat) returns (ok: bool)
    modifies context, host
    ensures ok <==> openedId != 0
    ensures context.State() == old(context.State()).(audioDevice := openedId)
    ensures host.log == old(host.log) + [OpenAudioDevice(DeviceWant, openedId)]
    ensures host.initialized == old(host.initialized)
  {
    host.Invoke(OpenAudioDevice(DeviceWant, openedId));
    context.audioDevice := openedId;
    ok := openedId != 0;
  }

  /** `init_test_wav`: loads and, if needed, converts the test WAV. */
  method InitTestWav(context: Context, host: Host, wav: WavOutcome) returns (ok: bool)
    modifies context, host
    ensures ok == TestWavOk(wav)
    ensures context.State() == TestWavState(old(context.State()), wav)
    ensures host.log == old(host.log) + [LoadWav(wav)]
    ensures host.initialized == old(host.initialized)
  {
    host.Invoke(LoadWav(wav));
    match wav
    case WavMissing =>
      ok := false;
    case WavReady(len) =>
      context.hasBuffer, context.len := true, len;
      context.converted := false;
      ok := true;
    case WavBuildFailed(len) =>
      context.hasBuffer, context.len := true, len;
      ok := false;
    case WavConvertFailed(len) =>
      context.hasBuffer, context.len := true, len;
      ok := false;
    case WavConverted(len, lenMult) =>
      context.hasBuffer, context.len := true, len;
      var bufferSize := len * lenMult;
      context.len := ToUint32(bufferSize);
      context.converted := true;
      ok := true;
  }

  /** `init`: SDL, then the device, then the WAV, stopping at the first failure. */
  method InitProgram(context: Context, host: Host, sdlOk: bool, openedId: nat, wav: WavOutcome) returns (ok: bool)
    modifies context, host
    ensures ok == InitOk(sdlOk, openedId, wav)
    ensures context.State() == InitState(old(context.State()), sdlOk, openedId, wav)
    ensures host.log == old(host.log) + InitEvents(sdlOk, openedId, wav)
    ensures host.initialized == (old(host.initialized) || sdlOk)
  {
    ok := InitSdl(host, sdlOk);
    if !ok {
      return;
    }
    ok := InitAudioDevice(context, host, openedId);
    if !ok {
      return;
    }
    ok := InitTestWav(context, host, wav);
  }

  // ---------------------------------------------------------------------------
  // quit

  /**
   * The SDL calls of `quit` from context `s`: the WAV buffer goes to SDL_free
   * when it was converted and to SDL_FreeWAV otherwise, then the device is
   * closed, then SDL is quit if any subsystem is initialised; each only if held.
   */
  function QuitEvents(s: ContextState, sdlInitialized: bool): seq<Event>
  {
    (if s.hasBuffer then [if s.converted then Free else FreeWav] else [])
    + (if s.audioDevice != 0 then [CloseAudioDevice(s.audioDevice)] else [])
    + (if sdlInitialized then [Quit] else [])
  }

  /**
   * The context after `quit`: no buffer and no device. The length is zeroed
   * only together with a buffer, and `converted` is never reset.
   */
  function QuitState(s: ContextState): ContextState
  {
    var afterWav := if s.hasBuffer then s.(hasBuffer := false, len := 0) else s;
    afterWav.(audioDevice := 0)
  }

  /** `quit`: releases every resource the context holds, in reverse order of acquisition. */
  method QuitProgram(context: Context, host: Host)
    modifies context, host
    ensures context.State() == QuitState(old(context.State()))
    ensures host.log == old(host.log) + QuitEvents(old(context.State()), old(host.initialized))
    ensures !host.initialized
  {
    if context.hasBuffer {
      if context.converted {
        host.Invoke(Free);
      } else {
        host.Invoke(FreeWav);
      }
      context.hasBuffer := false;
      context.len := 0;
    }
    if context.audioDevice != 0 {
      host.Invoke(CloseAudioDevice(context.audioDevice));
      context.audioDevice := 0;
    }
    if host.initialized {
      host.Invoke(Quit);
    }
  }

  /** A second `quit` makes no call and changes nothing: `quit` is idempotent. */
  lemma QuitIdempotent(s: ContextState, sdlInitialized: bool)
    ensures QuitState(QuitState(s)) == QuitState(s)
    ensures QuitEvents(QuitState(s), false) == []
    ensures !QuitState(s).hasBuffer && QuitState(s).audioDevice == 0
  {
  }

  /** A resource of the program and, for the WAV buffer, whether it belongs to SDL_free. */
  datatype Resource = SdlLibrary | Device(id: nat) | WavBuffer(viaFree: bool)

  /** The resource the call `e` acquires, if any. */
  function AcquiredBy(e: Event): seq<Resource>
  {
    match e
    case Init(_, ok) => if ok then [SdlLibrary] else []
    case OpenAudioDevice(_, id) => if id != 0 then [Device(id)] else []
    case LoadWav(outcome) =>
      if outcome.WavMissing? then [] else [WavBuffer(outcome.WavConverted?)]
    case _ => []
  }

  /** The resource the call `e` releases, if any. */
  function ReleasedBy(e: Event): seq<Resource>
  {
    match e
    case Quit => [SdlLibrary]
    case CloseAudioDevice(id) => [Device(id)]
    case Free => [WavBuffer(true)]
    case FreeWav => [WavBuffer(false)]
    case _ => []
  }

  /** The resources that the calls of `log` acquire or release, in order, by `effect`. */
  function Collect(effect: Event -> seq<Resource>, log: seq<Event>): seq<Resource>
  {
    if log == [] then [] else effect(log[0]) + Collect(effect, log[1..])
  }

  /** The resources that the calls of `log` acquire, in order. */
  function Acquired(log: seq<Event>): seq<Resource>
  {
    Collect(AcquiredBy, log)
  }

  /** The resources that the calls of `log` release, in order. */
  function Released(log: seq<Event>): seq<Resource>
  {
    Collect(ReleasedBy, log)
  }

  function Reverse<T>(s: seq<T>): seq<T>
  {
    if s == [] then [] else Reverse(s[1..]) + [s[0]]
  }

  /**
   * From program start, the `quit` that follows `init` releases exactly the
   * resources `init` acquired, each with the matching release call, in the
   * reverse order — whichever step of `init` failed.
   */
  lemma QuitReleasesWhatInitAcquired(sdlOk: bool, openedId: nat, wav: WavOutcome)
    ensures Released(QuitEvents(InitState(ZeroContext, sdlOk, openedId, wav), sdlOk))
            == Reverse(Acquired(InitEvents(sdlOk, openedId, wav)))
  {
    var init := InitEvents(sdlOk, openedId, wav);
    var quit := QuitEvents(InitState(ZeroContext, sdlOk, openedId, wav), sdlOk);
    if !sdlOk {
      assert init == [Init(InitAudio, false)] && quit == [];
      CollectTwo(AcquiredBy, Init(InitAudio, false), Init(InitAudio, false));
      assert [Init(InitAudio, false)][1..] == [];
    } else if openedId == 0 {
      assert init == [Init(InitAudio, true), OpenAudioDevice(DeviceWant, 0)] && quit == [Quit];
      CollectTwo(AcquiredBy, Init(InitAudio, true), OpenAudioDevice(DeviceWant, 0));
      assert [Quit][1..] == [] && [SdlLibrary][1..] == [];
    } else {
      var free := if wav.WavConverted? then Free else FreeWav;
      var buffer := WavBuffer(wav.WavConverted?);
      assert init == [Init(InitAudio, true), OpenAudioDevice(DeviceWant, openedId), LoadWav(wav)];
      CollectThree(AcquiredBy, Init(InitAudio, true), OpenAudioDevice(DeviceWant, openedId), LoadWav(wav));
      if wav.WavMissing? {
        assert quit == [CloseAudioDevice(openedId), Quit];
        CollectTwo(ReleasedBy, CloseAudioDevice(openedId), Quit);
        assert Acquired(init) == [SdlLibrary] + [Device(openedId)] + [];
        assert [SdlLibrary] + [Device(openedId)] + [] == [SdlLibrary, Device(openedId)];
        ReverseTwo(SdlLibrary, Device(openedId));
      } else {
        assert quit == [free, CloseAudioDevice(openedId), Quit];
        CollectThree(ReleasedBy, free, CloseAudioDevice(openedId), Quit);
        ReverseThree(SdlLibrary, Device(openedId), buffer);
      }
    }
  }

  /** What two consecutive calls acquire or release. */
  lemma CollectTwo(effect: Event -> seq<Resource>, a: Event, b: Event)
    ensures Collect(effect, [a, b]) == effect(a) + effect(b)
  {
    assert [a, b][1..] == [b] && [b][1..] == [];
    assert Collect(effect, [b]) == effect(b) + [];
  }

  /** What three consecutive calls acquire or release. */
  lemma CollectThree(effect: Event -> seq<Resource>, a: Event, b: Event, c: Event)
    ensures Collect(effect, [a, b, c]) == effect(a) + effect(b) + effect(c)
  {
    assert [a, b, c][1..] == [b, c];
    CollectTwo(effect, b, c);
  }

  lemma ReverseTwo<T>(x: T, y: T)
    ensures Reverse([x, y]) == [y, x]
  {
    assert [x, y][1..] == [y] && [y][1..] == [];
    assert Reverse([y]) == [y];
  }

  lemma ReverseThree<T>(x: T, y: T, z: T)
    ensures Reverse([x, y, z]) == [z, y, x]
  {
    assert [x, y, z][1..] == [y, z];
    ReverseTwo(y, z);
  }

  // ---------------------------------------------------------------------------
  // The square wave

  /** The phase of mono sample `i`: `2 * M_PI * 440 / sampleRate * i`. */
  function SquarePhase(i: int): real
  {
    2.0 * Pi * ToneFreq / AudioDeviceFreq as real * i as real
  }

  /**
   * The phase stays within [0, 2π] for the first 110 mono samples
   * (48000 / 440 < 110) and exceeds 2π from sample 110 on.
   */
  lemma SquarePhaseFirstPeriod(i: nat)
    ensures i <= 109 ==> 0.0 <= SquarePhase(i) <= 2.0 * Pi
    ensures i >= 110 ==> SquarePhase(i) > 2.0 * Pi
  {
    assert SquarePhase(i) == 2.0 * Pi * (i as real * 440.0 / 48000.0);
    if i <= 109 {
      assert i as real * 440.0 / 48000.0 <= 1.0;
    } else {
      assert i as real * 440.0 / 48000.0 > 1.0;
    }
  }

  /**
   * The mono samples of the fill loop, `squ` of each phase: every one is 0
   * or 1, and the first 110 are 1 whatever the math library does.
   */
  function SquareSamples(trig: Trig): (mono: seq<real>)
    ensures |mono| == MonoSamples
    ensures forall i :: 0 <= i < |mono| ==> mono[i] == Squ(trig, SquarePhase(i))
    ensures forall i :: 0 <= i < |mono| ==> mono[i] == 0.0 || mono[i] == 1.0
    ensures forall i :: 0 <= i < 110 ==> mono[i] == 1.0
  {
    var mono := seq(MonoSamples, i => Squ(trig, SquarePhase(i)));
    assert forall i :: 0 <= i < 110 ==> mono[i] == 1.0 by {
      forall i | 0 <= i < 110
        ensures mono[i] == 1.0
      {
        SquarePhaseFirstPeriod(i);
      }
    }
    mono
  }

  /** The contents of the wave after the fill loop: every mono sample as a pair. */
  function SquareWave(trig: Trig): seq<real>
  {
    Duplicated(SquareSamples(trig))
  }

  /**
   * The fill loop of `main`: two `add_sample` calls per mono sample on a
   * fresh wave of `channels * sampleRate * duration` slots, which exactly fill
   * it, so no sample is dropped.
   */
  method FillSquareWave(wave: Wave, trig: Trig)
    requires wave.Valid() && wave.capacity == WaveCapacity && wave.size == 0
    modifies wave, wave.samples
    ensures wave.Valid()
    ensures wave.size == wave.capacity
    ensures wave.Contents() == SquareWave(trig)
    ensures wave.Contents() == AppendedAll([], wave.capacity, SquareWave(trig))
  {
    var i := 0;
    while i < MonoSamples
      invariant 0 <= i <= MonoSamples
      invariant wave.Valid() && wave.capacity == WaveCapacity && wave.size == 2 * i
      invariant forall k :: 0 <= k < 2 * i ==> wave.samples[k] == Squ(trig, SquarePhase(k / 2))
    {
      var sample := Squ(trig, 2.0 * Pi * ToneFreq / AudioDeviceFreq as real * i as real);
      AddPair(wave, sample);
      i := i + 1;
    }
    ghost var square := SquareWave(trig);
    assert |wave.Contents()| == |square|;
    forall k | 0 <= k < |square|
      ensures wave.Contents()[k] == square[k]
    {
      assert square[k] == SquareSamples(trig)[k / 2];
    }
    FreshWaveKeepsFirst(wave.capacity, square);
  }

  /** The two `add_sample` calls of one iteration, on a wave with room for both. */
  method AddPair(wave: Wave, sample: real)
    requires wave.Valid() && wave.size + 2 <= wave.capacity
    modifies wave, wave.samples
    ensures wave.Valid() && wave.size == old(wave.size) + 2
    ensures forall k :: 0 <= k < old(wave.size) ==> wave.samples[k] == old(wave.samples[k])
    ensures wave.samples[old(wave.size)] == sample && wave.samples[old(wave.size) + 1] == sample
  {
    wave.AddSample(sample);
    wave.AddSample(sample);
  }

  /** Every sample of the wave is 0 or 1, and both channels always agree. */
  lemma SquareWaveShape(trig: Trig)
    ensures |SquareWave(trig)| == WaveCapacity
    ensures forall k :: 0 <= k < |SquareWave(trig)| ==> SquareWave(trig)[k] == 0.0 || SquareWave(trig)[k] == 1.0
    ensures forall i :: 0 <= i < MonoSamples ==> SquareWave(trig)[2 * i] == SquareWave(trig)[2 * i + 1]
  {
    var wave := SquareWave(trig);
    forall i | 0 <= i < MonoSamples
      ensures wave[2 * i] == wave[2 * i + 1]
    {
      assert (2 * i) / 2 == i && (2 * i + 1) / 2 == i;
    }
  }

  /**
   * The wave starts high: the phase stays within [0, 2π] for the first 110
   * mono samples (48000 / 440 < 110), so they are 1 whatever the math
   * library does; from sample 110 on, the phase exceeds 2π.
   */
  lemma SquareWaveStartsHigh(trig: Trig, i: nat)
    ensures i <= 109 ==> SquareWave(trig)[2 * i] == 1.0 && SquareWave(trig)[2 * i + 1] == 1.0
    ensures i >= 110 ==> SquarePhase(i) > 2.0 * Pi
  {
    SquarePhaseFirstPeriod(i);
    if i <= 109 {
      assert (2 * i) / 2 == i && (2 * i + 1) / 2 == i;
    }
  }

  // ---------------------------------------------------------------------------
  // main

  /**
   * The SDL calls of `main` after a successful `init`, when the wave holds
   * `wave`: the device is paused and the wave queued as `wave->size *
   * sizeof(float)` bytes, narrowed to SDL's `Uint32` length; a failed queue call returns at once, and a
   * successful one is followed by the unpause and a wait of five seconds.
   */
  function PlayEvents(wave: seq<real>, id: nat, queueResult: int): seq<Event>
  {
    [PauseAudioDevice(id, 1), QueueAudio(id, wave, ToUint32(|wave| * SizeOfFloat), queueResult)]
    + (if queueResult == 0 then [PauseAudioDevice(id, 0), Delay((Duration + 1) * 1000)] else [])
  }

  /**
   * The SDL calls of `main` and of the `quit` registered with `atexit`. A
   * failed `init` is followed by `quit` at once.
   */
  function RunEvents(wave: seq<real>, sdlOk: bool, openedId: nat, wav: WavOutcome, queueResult: int): seq<Event>
  {
    InitEvents(sdlOk, openedId, wav)
    + (if InitOk(sdlOk, openedId, wav) then PlayEvents(wave, openedId, queueResult) else [])
    + QuitEvents(InitState(ZeroContext, sdlOk, openedId, wav), sdlOk)
  }

  /** The exit status of `main`. */
  function RunStatus(sdlOk: bool, openedId: nat, wav: WavOutcome, queueResult: int): int
  {
    if InitOk(sdlOk, openedId, wav) && queueResult == 0 then ExitSuccess else ExitFailure
  }

  /** The body of `main` after a successful `init`, up to its return. */
  method Play(context: Context, host: Host, trig: Trig, queueResult: int) returns (status: int)
    modifies host
    ensures status == if queueResult == 0 then ExitSuccess else ExitFailure
    ensures host.log == old(host.log) + PlayEvents(SquareWave(trig), context.audioDevice, queueResult)
    ensures host.initialized == old(host.initialized)
  {
    host.Invoke(PauseAudioDevice(context.audioDevice, 1));

    var wave := new Wave(WaveCapacity);
    FillSquareWave(wave, trig);

    host.Invoke(QueueAudio(context.audioDevice, wave.samples[..wave.size], ToUint32(wave.size * SizeOfFloat), queueResult));
    var queued := queueResult == 0;
    if !queued {
      return ExitFailure;
    }
    host.Invoke(PauseAudioDevice(context.audioDevice, 0));
    host.Invoke(Delay((Duration + 1) * 1000));
    status := ExitSuccess;
  }

  /**
   * `main` followed by the `atexit` handler, from program start. The wave's
   * storage is not released by `deleteWave` here: Dafny has no deallocation.
   */
  method Run(context: Context, host: Host, trig: Trig, sdlOk: bool, openedId: nat, wav: WavOutcome, queueResult: int)
    returns (status: int)
    requires context.State() == ZeroContext && !host.initialized
    modifies context, host
    ensures status == RunStatus(sdlOk, openedId, wav, queueResult)
    ensures host.log == old(host.log) + RunEvents(SquareWave(trig), sdlOk, openedId, wav, queueResult)
    ensures context.State() == QuitState(InitState(ZeroContext, sdlOk, openedId, wav))
    ensures !host.initialized
  {
    ghost var start := host.log;
    var ok := InitProgram(context, host, sdlOk, openedId, wav);
    ghost var initialised := host.log;
    ghost var played: seq<Event> := [];
    if !ok {
      status := ExitFailure;
    } else {
      status := Play(context, host, trig, queueResult);
      played := PlayEvents(SquareWave(trig), openedId, queueResult);
    }
    QuitProgram(context, host);
    Regroup(start, InitEvents(sdlOk, openedId, wav), played,
            QuitEvents(InitState(ZeroContext, sdlOk, openedId, wav), sdlOk));
  }

  /** `init` makes no queue call. */
  lemma InitQueuesNothing(sdlOk: bool, openedId: nat, wav: WavOutcome)
    ensures QueuedData(InitEvents(sdlOk, openedId, wav)) == []
  {
    var init := InitEvents(sdlOk, openedId, wav);
    assert forall k :: 0 <= k < |init| ==> init[k].Init? || init[k].OpenAudioDevice? || init[k].LoadWav?;
    QueuedDataNone(init);
  }

  /** `quit` makes no queue call. */
  lemma QuitQueuesNothing(s: ContextState, sdlInitialized: bool)
    ensures QueuedData(QuitEvents(s, sdlInitialized)) == []
  {
    var quit := QuitEvents(s, sdlInitialized);
    assert forall k :: 0 <= k < |quit| ==> quit[k].Free? || quit[k].FreeWav? || quit[k].CloseAudioDevice? || quit[k].Quit?;
    QueuedDataNone(quit);
  }

  /**
   * The playing part of `main` makes one queue call, of the whole wave: the
   * device FIFO receives what its narrowed byte count covers (the whole wave
   * below 2^30 samples) when SDL accepts the call, and nothing when it
   * refuses it.
   */
  lemma PlayQueuesWave(wave: seq<real>, id: nat, queueResult: int)
    ensures QueuedData(PlayEvents(wave, id, queueResult)) == if queueResult == 0 then Sent(wave) else []
    ensures queueResult == 0 && |wave| < 0x4000_0000 ==> QueuedData(PlayEvents(wave, id, queueResult)) == wave
  {
    SentPrefix(wave);
    var pause := PauseAudioDevice(id, 1);
    var q := QueueAudio(id, wave, ToUint32(|wave| * SizeOfFloat), queueResult);
    var rest := if queueResult == 0 then [PauseAudioDevice(id, 0), Delay((Duration + 1) * 1000)] else [];
    QueuedDataNone(rest);
    QueuedDataAppend([pause, q], rest);
    assert QueuedData([pause, q]) == (if queueResult == 0 then Sent(wave) else []) by {
      assert [pause, q][..1] == [pause];
      assert [pause][..0] == [];
    }
  }

  /**
   * A run hands the wave to the device FIFO exactly when it exits with
   * success, that is when `init` and the queue call both succeed (all of it
   * below 2^30 samples, otherwise what the narrowed byte count covers); any
   * other run queues nothing.
   */
  lemma RunQueuesWave(wave: seq<real>, sdlOk: bool, openedId: nat, wav: WavOutcome, queueResult: int)
    ensures RunStatus(sdlOk, openedId, wav, queueResult) == ExitSuccess ==>
              QueuedData(RunEvents(wave, sdlOk, openedId, wav, queueResult)) == Sent(wave)
    ensures RunStatus(sdlOk, openedId, wav, queueResult) == ExitSuccess && |wave| < 0x4000_0000 ==>
              QueuedData(RunEvents(wave, sdlOk, openedId, wav, queueResult)) == wave
    ensures RunStatus(sdlOk, openedId, wav, queueResult) != ExitSuccess ==>
              QueuedData(RunEvents(wave, sdlOk, openedId, wav, queueResult)) == []
  {
    var init := InitEvents(sdlOk, openedId, wav);
    var play := if InitOk(sdlOk, openedId, wav) then PlayEvents(wave, openedId, queueResult) else [];
    var quit := QuitEvents(InitState(ZeroContext, sdlOk, openedId, wav), sdlOk);
    InitQueuesNothing(sdlOk, openedId, wav);
    QuitQueuesNothing(InitState(ZeroContext, sdlOk, openedId, wav), sdlOk);
    if InitOk(sdlOk, openedId, wav) {
      PlayQueuesWave(wave, openedId, queueResult);
    } else {
      QueuedDataNone(play);
    }
    QueuedDataAppend(init, play);
    QueuedDataAppend(init + play, quit);
    assert QueuedData(RunEvents(wave, sdlOk, openedId, wav, queueResult)) == QueuedData(play);
  }

  /**
   * The square wave of `main` is 384000 samples long and queued as 1536000
   * bytes, a count that fits SDL's `Uint32` length unchanged, so the whole
   * wave is handed over.
   */
  lemma SquareWaveBytes(trig: Trig)
    ensures |SquareWave(trig)| == 384000 && |SquareWave(trig)| * SizeOfFloat == 1536000
    ensures ToUint32(|SquareWave(trig)| * SizeOfFloat) == 1536000
    ensures Sent(SquareWave(trig)) == SquareWave(trig)
  {
    SentPrefix(SquareWave(trig));
  }
}
