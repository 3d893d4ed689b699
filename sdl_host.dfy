/**
 * The narrow slice of the SDL2 library that the synthesiser calls, seen from
 * the caller: every call is an event appended to a log, and whatever SDL
 * decides (whether SDL_Init succeeds, which device id it opens, what
 * SDL_QueueAudio returns, how a WAV load ends) is carried inside the event as
 * an oracle value chosen by the environment.
 */
module SdlHost {
  import opened CTypes

  /** `SDL_INIT_AUDIO`. */
  const InitAudio: nat := 0x10
  /** `SDL_INIT_VIDEO | SDL_INIT_AUDIO` (0x20 and 0x10 are distinct bits). */
  const InitVideoAudio: nat := 0x30
  /** `AUDIO_F32`, 32-bit little-endian float samples. */
  const AudioF32: nat := 0x8120
  /** `EXIT_SUCCESS` and `EXIT_FAILURE`. */
  const ExitSuccess: int := 0
  const ExitFailure: int := 1

  /** `sizeof(float)` in bytes. */
  const SizeOfFloat: nat := 4

  /** The fields of an `SDL_AudioSpec` "want" request that the code fills in. */
  datatype AudioSpec = AudioSpec(freq: int, format: nat, channels: nat, samples: nat)

  /**
   * How the WAV loading step of main.c ends: SDL_LoadWAV, SDL_BuildAudioCVT
   * and SDL_ConvertAudio are foreign calls, so only their outcome is
   * modelled. `len` is the byte length SDL_LoadWAV reports and `lenMult` the
   * `len_mult` of the conversion.
   */
  datatype WavOutcome =
    | WavMissing                                // SDL_LoadWAV failed
    | WavReady(len: nat)                        // loaded; SDL_BuildAudioCVT returned 0
    | WavBuildFailed(len: nat)                  // loaded; SDL_BuildAudioCVT returned -1
    | WavConvertFailed(len: nat)                // loaded; SDL_ConvertAudio failed
    | WavConverted(len: nat, lenMult: nat)      // loaded and converted into an SDL_malloc buffer

  /** The two warnings of the core whose presence the properties talk about. */
  datatype Warning = QueueFailed | QuitWithoutInit

  datatype Event =
    | Init(flags: nat, ok: bool)                               // SDL_Init, and whether it returned 0
    | Quit                                                     // SDL_Quit
    | OpenAudioDevice(want: AudioSpec, id: nat)                // SDL_OpenAudioDevice, 0 on failure
    | CloseAudioDevice(id: nat)                                // SDL_CloseAudioDevice
    | PauseAudioDevice(id: nat, pauseOn: nat)                  // SDL_PauseAudioDevice
    | QueueAudio(id: nat, data: seq<real>, len: nat, result: int)  // SDL_QueueAudio of `len` bytes
    | LoadWav(outcome: WavOutcome)                             // the WAV loading step as a whole
    | FreeWav                                                  // SDL_FreeWAV
    | Free                                                     // SDL_free
    | Delay(ms: nat)                                           // SDL_Delay
    | Warned(warning: Warning)                                 // a warning written to the log

  /** Whether SDL reports any subsystem as initialised (`SDL_WasInit(0) != 0`) after `e`. */
  function InitializedAfter(initialized: bool, e: Event): bool
  {
    match e
    case Init(_, ok) => initialized || ok
    case Quit => false
    case _ => initialized
  }

  /** The SDL library as the program observes it. */
  class Host {
    /** Every call made so far, oldest first. */
    var log: seq<Event>
    /** `SDL_WasInit(0) != 0`. */
    var initialized: bool

    constructor ()
      ensures log == [] && !initialized
    {
      log := [];
      initialized := false;
    }

    /** Performs the call `e`. */
    method Invoke(e: Event)
      modifies this
      ensures log == old(log) + [e]
      ensures initialized == InitializedAfter(old(initialized), e)
    {
      log := log + [e];
      initialized := InitializedAfter(initialized, e);
    }
  }

  /** Whether `e` is an SDL_QueueAudio call that SDL accepted (it returned 0). */
  predicate Accepted(e: Event)
  {
    e.QueueAudio? && e.result == 0
  }

  /**
   * What SDL_QueueAudio copies into the FIFO from `data` when told `len`
   * bytes: the samples that the first `len` bytes hold, and never more than
   * `data` has.
   */
  function QueuedPrefix(data: seq<real>, len: nat): (r: seq<real>)
    ensures |r| == if len / SizeOfFloat <= |data| then len / SizeOfFloat else |data|
    ensures r == data[..|r|]
  {
    if len / SizeOfFloat <= |data| then data[..len / SizeOfFloat] else data
  }

  /**
   * The samples that the events of `log` put into the device FIFO, in order:
   * of every accepted queue call, the samples its byte count `len` covers.
   * A call SDL rejects adds nothing.
   */
  function QueuedData(log: seq<Event>): seq<real>
  {
    if log == [] then []
    else
      var e := log[|log| - 1];
      QueuedData(log[..|log| - 1]) + (if Accepted(e) then QueuedPrefix(e.data, e.len) else [])
  }

  /**
   * The samples a queue call of the whole of `data` actually hands over: both
   * programs pass `|data| * sizeof(float)`, a `size_t`, as SDL's `Uint32`
   * length, which keeps it modulo 2^32.
   */
  function Sent(data: seq<real>): seq<real>
  {
    QueuedPrefix(data, ToUint32(|data| * SizeOfFloat))
  }

  /**
   * The narrowing keeps the first `|data| mod 2^30` samples: all of them
   * below 2^30 samples, none at exactly 2^30.
   */
  lemma SentPrefix(data: seq<real>)
    ensures Sent(data) == data[..|data| % 0x4000_0000]
    ensures |data| < 0x4000_0000 ==> Sent(data) == data
    ensures |data| == 0x4000_0000 ==> Sent(data) == []
  {
    var n := |data|;
    var q, r := n / 0x4000_0000, n % 0x4000_0000;
    assert n * SizeOfFloat == q * UintMod + 4 * r;
    assert 0 <= 4 * r < UintMod;
    ModOfMultiple(q, 4 * r);
    assert ToUint32(n * SizeOfFloat) == 4 * r;
  }

  /** Adding whole multiples of 2^32 does not change the low 32 bits. */
  lemma {:induction false} ModOfMultiple(q: nat, r: nat)
    requires r < UintMod
    ensures (q * UintMod + r) % UintMod == r
    decreases q
  {
    if q > 0 {
      ModOfMultiple(q - 1, r);
      assert q * UintMod + r == (q - 1) * UintMod + r + UintMod;
    }
  }

  /** Queuing distributes over consecutive stretches of calls. */
  lemma {:induction false} QueuedDataAppend(a: seq<Event>, b: seq<Event>)
    ensures QueuedData(a + b) == QueuedData(a) + QueuedData(b)
    decreases |b|
  {
    if b == [] {
      assert a + b == a;
    } else {
      var b' := b[..|b| - 1];
      assert (a + b)[..|a + b| - 1] == a + b';
      assert (a + b)[|a + b| - 1] == b[|b| - 1];
      QueuedDataAppend(a, b');
    }
  }

  /** A stretch of calls without an accepted queue call adds nothing to the FIFO. */
  lemma {:induction false} QueuedDataNone(log: seq<Event>)
    requires forall k :: 0 <= k < |log| ==> !Accepted(log[k])
    ensures QueuedData(log) == []
    decreases |log|
  {
    if log != [] {
      QueuedDataNone(log[..|log| - 1]);
    }
  }

  /** Reassociates a log extended by three stretches of calls, one after another. */
  lemma Regroup(start: seq<Event>, a: seq<Event>, b: seq<Event>, c: seq<Event>)
    ensures start + a + b + c == start + (a + b + c)
  {
  }
}
