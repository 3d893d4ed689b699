/**
 * The C++ wrappers `nk::SDL2` and `nk::SDL2AudioDevice`: a reference count
 * of live SDL2 objects that initialises SDL for the first and quits it after
 * the last, and an audio device object owning one opened device id.
 */
module Sdl2Wrapper {
  import opened CTypes
  import opened SdlHost

  /** The static `SDL2::s_count_init` together with the SDL calls made so far. */
  datatype Counter = Counter(count: nat, log: seq<Event>)

  /** The state after constructing one SDL2 object, and whether the constructor threw. */
  datatype Constructed = Constructed(next: Counter, thrown: bool)

  /**
   * `SDL2::SDL2`: SDL_Init is called only when no SDL2 object is live; when it
   * fails the constructor throws before the count changes, otherwise the count
   * goes up by one (in `unsigned int`).
   */
  function CtorStep(c: Counter, initOk: bool): Constructed
  {
    var log := if c.count == 0 then c.log + [Init(InitVideoAudio, initOk)] else c.log;
    if c.count == 0 && !initOk then Constructed(Counter(c.count, log), true)
    else Constructed(Counter((c.count + 1) % UintMod, log), false)
  }

  /**
   * `SDL2::~SDL2`: with a positive count it decrements and calls SDL_Quit
   * exactly when the count reaches 0; with count 0 it only warns.
   */
  function DtorStep(c: Counter): Counter
  {
    if c.count > 0 then
      var n := c.count - 1;
      Counter(n, if n == 0 then c.log + [Quit] else c.log)
    else Counter(c.count, c.log + [Warned(QuitWithoutInit)])
  }

  /** The class-level state of `nk::SDL2`: the static counter, and the SDL it drives. */
  class Sdl2 {
    var countInit: nat
    const host: Host

    ghost predicate Valid()
      reads this
    {
      countInit < UintMod
    }

    /** Program start: the static counter is zero-initialised. */
    constructor (host: Host)
      ensures Valid() && countInit == 0 && this.host == host
    {
      countInit := 0;
      this.host := host;
    }

    /** The constructor `SDL2::SDL2`; `initOk` is what SDL_Init would report. */
    method Construct(initOk: bool) returns (thrown: bool)
      requires Valid()
      modifies this, host
      ensures Valid()
      ensures Constructed(Counter(countInit, host.log), thrown) == CtorStep(Counter(old(countInit), old(host.log)), initOk)
      ensures thrown <==> old(countInit) == 0 && !initOk
      ensures thrown ==> countInit == old(countInit)
      ensures !thrown && old(countInit) + 1 < UintMod ==> countInit == old(countInit) + 1
      ensures host.log == old(host.log) + (if old(countInit) == 0 then [Init(InitVideoAudio, initOk)] else [])
      ensures host.initialized == (old(host.initialized) || (old(countInit) == 0 && initOk))
    {
      if countInit == 0 {
        host.Invoke(Init(InitVideoAudio, initOk));
        if !initOk {
          return true;
        }
      }
      countInit := (countInit + 1) % UintMod;
      thrown := false;
    }

    /** The destructor `SDL2::~SDL2`. */
    method Destruct()
      requires Valid()
      modifies this, host
      ensures Valid()
      ensures Counter(countInit, host.log) == DtorStep(Counter(old(countInit), old(host.log)))
      ensures old(countInit) > 0 ==> countInit == old(countInit) - 1
      ensures old(countInit) > 0 ==> host.log == old(host.log) + (if countInit == 0 then [Quit] else [])
      ensures old(countInit) == 0 ==> countInit == 0 && host.log == old(host.log) + [Warned(QuitWithoutInit)]
      ensures host.initialized == (old(host.initialized) && old(countInit) != 1)
    {
      if countInit > 0 {
        countInit := countInit - 1;
        if countInit == 0 {
          host.Invoke(Quit);
        }
      } else {
        host.Invoke(Warned(QuitWithoutInit));
      }
    }
  }

  // ---------------------------------------------------------------------------
  // Runs of constructions and destructions

  /**
   * The counter after successful constructions (`true`) and destructions
   * (`false`) of SDL2 objects, in order, from program start.
   */
  function Run(ops: seq<bool>): Counter
    decreases |ops|
  {
    if ops == [] then Counter(0, [])
    else
      var before := Run(ops[..|ops| - 1]);
      if ops[|ops| - 1] then CtorStep(before, true).next else DtorStep(before)
  }

  /** The number of SDL2 objects alive after `ops`. */
  function Live(ops: seq<bool>): int
    decreases |ops|
  {
    if ops == [] then 0
    else Live(ops[..|ops| - 1]) + (if ops[|ops| - 1] then 1 else -1)
  }

  /** Every destruction destroys a live object, and fewer than 2^32 objects are ever alive. */
  ghost predicate WellNested(ops: seq<bool>)
  {
    forall p :: 0 <= p <= |ops| ==> 0 <= Live(ops[..p]) < UintMod
  }

  /** SDL_Init (successful) and SDL_Quit alternately, starting with SDL_Init. */
  function Alternating(n: nat): (calls: seq<Event>)
    ensures |calls| == n
    ensures forall k :: 0 <= k < n ==> calls[k] == if k % 2 == 0 then Init(InitVideoAudio, true) else Quit
  {
    if n == 0 then []
    else Alternating(n - 1) + [if (n - 1) % 2 == 0 then Init(InitVideoAudio, true) else Quit]
  }

  /**
   * Over any well-nested run, the counter equals the number of live objects,
   * SDL_Init and SDL_Quit alternate starting with SDL_Init, and SDL is left
   * initialised (the last call was SDL_Init) exactly when an object is alive.
   */
  lemma {:induction false} WellNestedRun(ops: seq<bool>)
    requires WellNested(ops)
    ensures Run(ops).count == Live(ops)
    ensures Run(ops).log == Alternating(|Run(ops).log|)
    ensures |Run(ops).log| % 2 == 1 <==> Run(ops).count > 0
    decreases |ops|
  {
    if ops != [] {
      var prefix := ops[..|ops| - 1];
      assert WellNested(prefix) by {
        forall p | 0 <= p <= |prefix| ensures 0 <= Live(prefix[..p]) < UintMod {
          assert prefix[..p] == ops[..p];
        }
      }
      WellNestedRun(prefix);
      assert ops[..|ops|] == ops;
      var before := Run(prefix);
      var m := |before.log|;
      if ops[|ops| - 1] {
        if before.count == 0 {
          assert Alternating(m + 1) == Alternating(m) + [Init(InitVideoAudio, true)];
        }
      } else {
        if before.count == 1 {
          assert Alternating(m + 1) == Alternating(m) + [Quit];
        }
      }
    }
  }

  // ---------------------------------------------------------------------------
  // The audio device

  datatype InitError = AudioDeviceInitError

  datatype Opened = Opened(id: nat) | OpenFailed(error: InitError)

  /**
   * `init_audio_device`: asks SDL for a device (`openedId` is what it returns)
   * and throws exactly when the id is 0; otherwise the id is the result.
   */
  method InitAudioDevice(host: Host, want: AudioSpec, openedId: nat) returns (r: Opened)
    modifies host
    ensures host.log == old(host.log) + [OpenAudioDevice(want, openedId)]
    ensures host.initialized == old(host.initialized)
    ensures r.OpenFailed? <==> openedId == 0
    ensures r.Opened? ==> r.id == openedId
  {
    host.Invoke(OpenAudioDevice(want, openedId));
    if openedId == 0 {
      return OpenFailed(AudioDeviceInitError);
    }
    return Opened(openedId);
  }

  datatype DeviceOrError = Device(device: AudioDevice) | DeviceFailed(error: InitError)

  /** `nk::SDL2AudioDevice`: owns the one nonzero device id it was opened with. */
  class AudioDevice {
    const deviceId: nat
    const host: Host

    /** The member initialiser: only a nonzero id from a successful open gets here. */
    constructor (host: Host, id: nat)
      requires id != 0
      ensures deviceId == id && this.host == host
    {
      deviceId := id;
      this.host := host;
    }

    /**
     * The constructor `SDL2AudioDevice(sdl2, freq, format, channels, samples)`:
     * either throws (SDL returned 0) or yields a fresh object with that id.
     */
    static method Open(host: Host, freq: int, format: nat, channels: nat, samples: nat, openedId: nat)
      returns (r: DeviceOrError)
      modifies host
      ensures host.log == old(host.log) + [OpenAudioDevice(AudioSpec(freq, format, channels, samples), openedId)]
      ensures host.initialized == old(host.initialized)
      ensures r.DeviceFailed? <==> openedId == 0
      ensures r.Device? ==> fresh(r.device) && r.device.deviceId == openedId && r.device.host == host
    {
      var id := InitAudioDevice(host, AudioSpec(freq, format, channels, samples), openedId);
      if id.OpenFailed? {
        return DeviceFailed(id.error);
      }
      var device := new AudioDevice(host, id.id);
      return Device(device);
    }

    /** `pause`: asks SDL to pause this device; it cannot fail. */
    method Pause()
      modifies host
      ensures host.log == old(host.log) + [PauseAudioDevice(deviceId, 1)]
      ensures host.initialized == old(host.initialized)
    {
      host.Invoke(PauseAudioDevice(deviceId, 1));
    }

    /** `unpause`: asks SDL to resume this device; it cannot fail. */
    method Unpause()
      modifies host
      ensures host.log == old(host.log) + [PauseAudioDevice(deviceId, 0)]
      ensures host.initialized == old(host.initialized)
    {
      host.Invoke(PauseAudioDevice(deviceId, 0));
    }

    /**
     * `queue(buffer)`: hands the whole buffer to SDL_QueueAudio, measured as
     * element count times `sizeof(float)` bytes, a `size_t` that SDL's
     * `Uint32` length parameter narrows; `result` is what SDL returns.
     * It never throws: a failure only leads to a warning.
     */
    method Queue(buffer: seq<real>, result: int)
      modifies host
      ensures host.log == old(host.log) + QueueEvents(deviceId, buffer, result)
      ensures host.initialized == old(host.initialized)
    {
      host.Invoke(QueueAudio(deviceId, buffer, ToUint32(|buffer| * SizeOfFloat), result));
      CheckQueueResult(result);
    }

    /** `check_queue_result`: warns exactly when the result is nonzero, and never throws. */
    method CheckQueueResult(result: int)
      modifies host
      ensures host.log == old(host.log) + (if result != 0 then [Warned(QueueFailed)] else [])
      ensures host.initialized == old(host.initialized)
    {
      if result != 0 {
        host.Invoke(Warned(QueueFailed));
      }
    }

    /** The destructor `~SDL2AudioDevice`: closes the device, unconditionally. */
    method Close()
      modifies host
      ensures host.log == old(host.log) + [CloseAudioDevice(deviceId)]
      ensures host.initialized == old(host.initialized)
    {
      host.Invoke(CloseAudioDevice(deviceId));
    }
  }

  /** The calls of one `queue`: the queuing itself and, on failure, the warning. */
  function QueueEvents(id: nat, buffer: seq<real>, result: int): (events: seq<Event>)
  {
    [QueueAudio(id, buffer, ToUint32(|buffer| * SizeOfFloat), result)]
    + (if result != 0 then [Warned(QueueFailed)] else [])
  }

  /**
   * A queue call offers exactly the buffer, as `4 * |buffer|` bytes narrowed
   * to `Uint32` (so exactly `4 * |buffer|` for fewer than 2^30 samples). When
   * SDL accepts it the FIFO receives the samples those bytes cover, which is
   * the whole buffer below 2^30 samples; otherwise it receives nothing and
   * there is a warning.
   */
  lemma QueueEventsShape(id: nat, buffer: seq<real>, result: int)
    ensures QueuedData(QueueEvents(id, buffer, result)) == if result == 0 then Sent(buffer) else []
    ensures result == 0 && |buffer| < 0x4000_0000 ==> QueuedData(QueueEvents(id, buffer, result)) == buffer
    ensures QueueEvents(id, buffer, result)[0] == QueueAudio(id, buffer, ToUint32(4 * |buffer|), result)
    ensures |buffer| < 0x4000_0000 ==> QueueEvents(id, buffer, result)[0].len == 4 * |buffer|
    ensures Warned(QueueFailed) in QueueEvents(id, buffer, result) <==> result != 0
  {
    var call := QueueAudio(id, buffer, ToUint32(|buffer| * SizeOfFloat), result);
    if result != 0 {
      QueuedDataAppend([call], [Warned(QueueFailed)]);
      assert QueuedData([Warned(QueueFailed)]) == [] by {
        assert [Warned(QueueFailed)][..0] == [];
      }
    }
    assert QueuedData([call]) == (if result == 0 then Sent(buffer) else []) by {
      assert [call][..0] == [];
    }
    SentPrefix(buffer);
  }
}
