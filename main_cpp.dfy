/**
 * The C++ program: four vowel buffers of harmonic tones, each filled as
 * identical left/right pairs, queued to one audio device between a pause and
 * an unpause, with SDL and the device released by their owners' destructors.
 */
module MainCpp {
  import opened CTypes
  import opened SdlHost
  import opened Waveform
  import opened Sdl2Wrapper

  /** `DEVICE_CHANNELS` and `DEVICE_SAMPLES`. */
  const DeviceChannels: nat := 2
  const DeviceSamples: nat := 8192
  /** `duration`, in milliseconds. */
  const DurationMs: nat := 4000
  /** `duration / 1000 * DEVICE_CHANNELS * DEVICE_FREQUENCY`: the length of each buffer. */
  const BufferLength: nat := DurationMs / 1000 * DeviceChannels * DeviceFrequency

  /** The fundamental of every voice, in Hz. */
  const Fundamental: real := 120.0

  /**
   * The sample expression of the fill loops: mono sample `i` of a voice is
   * 0.01 times the harmonic sum at 120 Hz from harmonic 1 with that voice's
   * formant gain. It is written as the sum of the terms the recursion adds
   * up; `VoiceIsHarmonicsSample` shows it is the recursion's value.
   */
  function Voice(coef: real -> real, trig: Trig): int -> real
  {
    i => 0.01 * Sum(HarmonicTerms(Fundamental, i as real, coef, trig, 1))
  }

  /** Each voice sample is `0.01 * gen_harmonics_sample(120, i, coef)`. */
  lemma VoiceIsHarmonicsSample(coef: real -> real, trig: Trig, i: int)
    ensures Voice(coef, trig)(i) == 0.01 * GenHarmonicsSample(120.0, i as real, coef, trig, 1)
  {
    HarmonicsIsSumOfTerms(Fundamental, i as real, coef, trig, 1);
  }

  /** A full buffer of a voice: `BufferLength / 2` mono samples, each as a stereo pair. */
  function VoiceBuffer(coef: real -> real, trig: Trig): seq<real>
  {
    Duplicated(seq(BufferLength / 2, Voice(coef, trig)))
  }

  /**
   * One of the four fill loops, with `voice` its sample expression: index
   * `i` runs over `0 .. size/2 - 1` and writes `voice(i)` to elements `2i`
   * and `2i + 1`. Every pair holds the same value; only the last element of
   * an odd-length buffer is left as it was.
   */
  method FillStereo(samples: array<real>, voice: int -> real)
    modifies samples
    ensures forall k :: 0 <= k < samples.Length / 2 * 2 ==> samples[k] == voice(k / 2)
    ensures samples[..] == Duplicated(seq(samples.Length / 2, voice)) + old(samples[..])[samples.Length / 2 * 2..]
  {
    var i := 0;
    while i < samples.Length / 2
      invariant 0 <= i <= samples.Length / 2
      invariant forall k :: 0 <= k < 2 * i ==> samples[k] == voice(k / 2)
      invariant forall k :: 2 * i <= k < samples.Length ==> samples[k] == old(samples[k])
    {
      var sample := voice(i);
      samples[i * 2 + 0] := sample;
      samples[i * 2 + 1] := sample;
      i := i + 1;
    }
    ghost var stereo := Duplicated(seq(samples.Length / 2, voice));
    ghost var rest := old(samples[..])[2 * i..];
    assert |samples[..]| == |stereo + rest|;
    forall k | 0 <= k < samples.Length
      ensures samples[..][k] == (stereo + rest)[k]
    {
      if k < 2 * i {
        assert stereo[k] == voice(k / 2);
      } else {
        assert (stereo + rest)[k] == rest[k - 2 * i];
      }
    }
  }

  /**
   * `std::vector<float> samplesN(BUFFER_LENGTH)` followed by its fill loop:
   * a buffer of `BufferLength` samples, every one of them overwritten with
   * the voice (so the vector's zero initialisation is never observed).
   */
  method NewVoiceBuffer(coef: real -> real, trig: Trig) returns (samples: array<real>)
    ensures fresh(samples)
    ensures samples[..] == VoiceBuffer(coef, trig)
  {
    samples := new real[BufferLength];
    FillStereo(samples, Voice(coef, trig));
    assert samples.Length / 2 * 2 == samples.Length;
  }

  /** The `SDL_AudioSpec` request of main.cpp. */
  const DeviceWant: AudioSpec := AudioSpec(DeviceFrequency, AudioF32, DeviceChannels, DeviceSamples)

  /** The four buffers of main.cpp in the order they are queued: the vowels i, ae, u and 3. */
  function Voices(trig: Trig): (buffers: seq<seq<real>>)
    ensures |buffers| == 4
  {
    [VoiceBuffer(FormantI, trig), VoiceBuffer(FormantAe, trig),
     VoiceBuffer(FormantU, trig), VoiceBuffer(Formant3, trig)]
  }

  /** Every voice buffer holds `BufferLength` samples. */
  lemma VoicesLengths(trig: Trig)
    ensures forall j :: 0 <= j < |Voices(trig)| ==> |Voices(trig)[j]| == BufferLength
  {
    VoiceBufferLength(FormantI, trig);
    VoiceBufferLength(FormantAe, trig);
    VoiceBufferLength(FormantU, trig);
    VoiceBufferLength(Formant3, trig);
  }

  /** `BufferLength` is even, so a voice buffer fills all of it. */
  lemma VoiceBufferLength(coef: real -> real, trig: Trig)
    ensures |VoiceBuffer(coef, trig)| == BufferLength
  {
    assert BufferLength == 384000;
  }

  /** The calls of queuing `buffers` one after another, the `j`th getting SDL result `results[j]`. */
  function QueueAll(id: nat, buffers: seq<seq<real>>, results: seq<int>): seq<Event>
    requires |buffers| == |results|
  {
    if buffers == [] then []
    else
      QueueAll(id, buffers[..|buffers| - 1], results[..|results| - 1])
      + QueueEvents(id, buffers[|buffers| - 1], results[|results| - 1])
  }

  /** All `buffers`, end to end. */
  function Concat(buffers: seq<seq<real>>): seq<real>
  {
    if buffers == [] then [] else Concat(buffers[..|buffers| - 1]) + buffers[|buffers| - 1]
  }

  /**
   * What a queue call of `buffer` adds to the device FIFO when SDL returns
   * `result`: the samples its narrowed byte count covers, or nothing.
   */
  function Kept(buffer: seq<real>, result: int): seq<real>
  {
    if result == 0 then Sent(buffer) else []
  }

  /** Below 2^30 samples nothing is lost to the narrowing: an accepted call hands over the whole buffer. */
  lemma KeptWhole(buffer: seq<real>, result: int)
    requires |buffer| < 0x4000_0000
    ensures Kept(buffer, result) == if result == 0 then buffer else []
  {
    SentPrefix(buffer);
  }

  /** What the queue calls SDL accepted (result 0) hand over, end to end; the rejected ones leave no trace. */
  function AcceptedBuffers(buffers: seq<seq<real>>, results: seq<int>): seq<real>
    requires |buffers| == |results|
  {
    if buffers == [] then []
    else
      AcceptedBuffers(buffers[..|buffers| - 1], results[..|results| - 1])
      + Kept(buffers[|buffers| - 1], results[|results| - 1])
  }

  /**
   * When SDL accepts every call and every buffer is shorter than 2^30
   * samples (so no byte count wraps), the accepted buffers are all of them,
   * end to end.
   */
  lemma {:induction false} AllAcceptedIsConcat(buffers: seq<seq<real>>, results: seq<int>)
    requires |buffers| == |results|
    requires forall j :: 0 <= j < |results| ==> results[j] == 0
    requires forall j :: 0 <= j < |buffers| ==> |buffers[j]| < 0x4000_0000
    ensures AcceptedBuffers(buffers, results) == Concat(buffers)
    decreases |buffers|
  {
    if buffers != [] {
      var n := |buffers| - 1;
      AllAcceptedIsConcat(buffers[..n], results[..n]);
      assert results[n] == 0;
      SentPrefix(buffers[n]);
    }
  }

  /**
   * Queuing buffers one after another puts into the device FIFO, end to end
   * and in order, what each call SDL accepted hands over.
   */
  lemma {:induction false} QueueAllData(id: nat, buffers: seq<seq<real>>, results: seq<int>)
    requires |buffers| == |results|
    ensures QueuedData(QueueAll(id, buffers, results)) == AcceptedBuffers(buffers, results)
    decreases |buffers|
  {
    if buffers != [] {
      var n := |buffers| - 1;
      QueueAllData(id, buffers[..n], results[..n]);
      QueueEventsShape(id, buffers[n], results[n]);
      QueuedDataAppend(QueueAll(id, buffers[..n], results[..n]), QueueEvents(id, buffers[n], results[n]));
    }
  }

  /**
   * When every buffer holds `size` samples, every queue call among the
   * events is to device `id` and hands over `size` samples, with the byte
   * count `4 * size` narrowed to SDL's `Uint32` length.
   */
  lemma {:induction false} QueueAllCalls(id: nat, buffers: seq<seq<real>>, results: seq<int>, size: nat)
    requires |buffers| == |results|
    requires forall j :: 0 <= j < |buffers| ==> |buffers[j]| == size
    ensures forall k :: 0 <= k < |QueueAll(id, buffers, results)| && QueueAll(id, buffers, results)[k].QueueAudio? ==>
              var e := QueueAll(id, buffers, results)[k]; e.id == id && |e.data| == size && e.len == ToUint32(4 * size)
    decreases |buffers|
  {
    if buffers != [] {
      var n := |buffers| - 1;
      QueueAllCalls(id, buffers[..n], results[..n], size);
      var front: seq<Event> := QueueAll(id, buffers[..n], results[..n]);
      var last: seq<Event> := QueueEvents(id, buffers[n], results[n]);
      forall k | 0 <= k < |front + last| && (front + last)[k].QueueAudio?
        ensures var e := (front + last)[k]; e.id == id && |e.data| == size && e.len == ToUint32(4 * size)
      {
        if k >= |front| {
          assert (front + last)[k] == last[k - |front|];
        } else {
          assert (front + last)[k] == front[k];
        }
      }
    }
  }

  /** Four queue calls in a row are `QueueAll` of the four buffers. */
  lemma QueueAllFour(id: nat, b0: seq<real>, b1: seq<real>, b2: seq<real>, b3: seq<real>, results: seq<int>)
    requires |results| == 4
    ensures QueueAll(id, [b0, b1, b2, b3], results)
            == QueueEvents(id, b0, results[0]) + QueueEvents(id, b1, results[1])
               + QueueEvents(id, b2, results[2]) + QueueEvents(id, b3, results[3])
  {
    var r := results;
    assert QueueAll(id, [b0], r[..1]) == QueueEvents(id, b0, r[0]) by {
      assert [b0][..0] == [];
    }
    assert QueueAll(id, [b0, b1], r[..2]) == QueueAll(id, [b0], r[..1]) + QueueEvents(id, b1, r[1]) by {
      assert [b0, b1][..1] == [b0] && r[..2][..1] == r[..1];
    }
    assert QueueAll(id, [b0, b1, b2], r[..3]) == QueueAll(id, [b0, b1], r[..2]) + QueueEvents(id, b2, r[2]) by {
      assert [b0, b1, b2][..2] == [b0, b1] && r[..3][..2] == r[..2];
    }
    assert QueueAll(id, [b0, b1, b2, b3], r) == QueueAll(id, [b0, b1, b2], r[..3]) + QueueEvents(id, b3, r[3]) by {
      assert [b0, b1, b2, b3][..3] == [b0, b1, b2];
    }
  }

  /**
   * The calls of main.cpp between opening and closing the device `id`: the
   * pause, the queue calls of `buffers` in order, the unpause and the wait of
   * four durations.
   */
  function PlaybackEvents(id: nat, buffers: seq<seq<real>>, queueResults: seq<int>): seq<Event>
    requires |buffers| == |queueResults|
  {
    [PauseAudioDevice(id, 1)] + QueueAll(id, buffers, queueResults)
    + [PauseAudioDevice(id, 0), Delay(DurationMs * 4)]
  }

  /**
   * The SDL calls of one run of main.cpp, given the buffers it queues,
   * what SDL_Init reports, the device id SDL_OpenAudioDevice returns and the
   * SDL_QueueAudio results.
   */
  function SessionEvents(buffers: seq<seq<real>>, initOk: bool, openedId: nat, queueResults: seq<int>): seq<Event>
    requires |buffers| == |queueResults|
  {
    if !initOk then [Init(InitVideoAudio, false)]
    else if openedId == 0 then [Init(InitVideoAudio, true), OpenAudioDevice(DeviceWant, 0), Quit]
    else
      [Init(InitVideoAudio, true), OpenAudioDevice(DeviceWant, openedId)]
      + PlaybackEvents(openedId, buffers, queueResults)
      + [CloseAudioDevice(openedId), Quit]
  }

  /** The pause, the four queue calls in order, the unpause and the wait. */
  method QueueAndPlay(device: AudioDevice, s1: array<real>, s2: array<real>, s3: array<real>, s4: array<real>,
                      queueResults: seq<int>)
    requires |queueResults| == 4
    modifies device.host
    ensures device.host.log
            == old(device.host.log) + PlaybackEvents(device.deviceId, [s1[..], s2[..], s3[..], s4[..]], queueResults)
    ensures device.host.initialized == old(device.host.initialized)
  {
    device.Pause();
    device.Queue(s1[..], queueResults[0]);
    device.Queue(s2[..], queueResults[1]);
    device.Queue(s3[..], queueResults[2]);
    device.Queue(s4[..], queueResults[3]);
    device.Unpause();
    device.host.Invoke(Delay(DurationMs * 4));
    QueueAllFour(device.deviceId, s1[..], s2[..], s3[..], s4[..], queueResults);
  }

  /**
   * The body of main.cpp once the device is open: fills the four buffers,
   * then pauses, queues them in order, unpauses and waits.
   */
  method Play(device: AudioDevice, trig: Trig, queueResults: seq<int>)
    requires |queueResults| == 4
    modifies device.host
    ensures device.host.log == old(device.host.log) + PlaybackEvents(device.deviceId, Voices(trig), queueResults)
    ensures device.host.initialized == old(device.host.initialized)
  {
    var samples1 := NewVoiceBuffer(FormantI, trig);
    var samples2 := NewVoiceBuffer(FormantAe, trig);
    var samples3 := NewVoiceBuffer(FormantU, trig);
    var samples4 := NewVoiceBuffer(Formant3, trig);
    assert [samples1[..], samples2[..], samples3[..], samples4[..]] == Voices(trig);
    QueueAndPlay(device, samples1, samples2, samples3, samples4, queueResults);
  }

  /**
   * `main` of main.cpp, from program start (no SDL2 object alive). A failed
   * SDL_Init or device open ends it with EXIT_FAILURE; the objects already
   * built are then destroyed, and on success the device is closed before SDL
   * is quit (destruction in reverse order of declaration).
   */
  method RunSession(host: Host, sdl2: Sdl2, trig: Trig, initOk: bool, openedId: nat, queueResults: seq<int>)
    returns (status: int)
    requires sdl2.Valid() && sdl2.countInit == 0 && sdl2.host == host
    requires |queueResults| == 4
    modifies host, sdl2
    ensures status == if initOk && openedId != 0 then ExitSuccess else ExitFailure
    ensures host.log == old(host.log) + SessionEvents(Voices(trig), initOk, openedId, queueResults)
    ensures sdl2.Valid() && sdl2.countInit == 0
  {
    var thrown := sdl2.Construct(initOk);
    if thrown {
      return ExitFailure;
    }
    var outcome := AudioDevice.Open(host, DeviceFrequency, AudioF32, DeviceChannels, DeviceSamples, openedId);
    if outcome.DeviceFailed? {
      sdl2.Destruct();
      return ExitFailure;
    }
    var device := outcome.device;
    Play(device, trig, queueResults);
    ghost var played := PlaybackEvents(openedId, Voices(trig), queueResults);
    device.Close();
    sdl2.Destruct();
    status := ExitSuccess;
    assert [Init(InitVideoAudio, true)] + [OpenAudioDevice(DeviceWant, openedId)]
           == [Init(InitVideoAudio, true), OpenAudioDevice(DeviceWant, openedId)];
    assert [CloseAudioDevice(openedId)] + [Quit] == [CloseAudioDevice(openedId), Quit];
    Regroup(old(host.log), [Init(InitVideoAudio, true), OpenAudioDevice(DeviceWant, openedId)], played,
            [CloseAudioDevice(openedId), Quit]);
  }

  /** Four queue calls' contributions, end to end. */
  lemma AcceptedFour(buffers: seq<seq<real>>, r: seq<int>)
    requires |buffers| == 4 && |r| == 4
    ensures AcceptedBuffers(buffers, r)
            == Kept(buffers[0], r[0]) + Kept(buffers[1], r[1]) + Kept(buffers[2], r[2]) + Kept(buffers[3], r[3])
  {
    assert buffers[..4][..3] == buffers[..3] && r[..4][..3] == r[..3];
    assert buffers[..3][..2] == buffers[..2] && r[..3][..2] == r[..2];
    assert buffers[..2][..1] == buffers[..1] && r[..2][..1] == r[..1];
    assert buffers[..1][..0] == [] && r[..1][..0] == [];
    assert AcceptedBuffers(buffers[..1], r[..1]) == Kept(buffers[0], r[0]);
    assert AcceptedBuffers(buffers[..2], r[..2]) == AcceptedBuffers(buffers[..1], r[..1]) + Kept(buffers[1], r[1]);
    assert AcceptedBuffers(buffers[..3], r[..3]) == AcceptedBuffers(buffers[..2], r[..2]) + Kept(buffers[2], r[2]);
    assert buffers[..4] == buffers && r[..4] == r;
  }

  /** A successful session: SDL_Init, the open, the pause, the queue calls, then four calls more. */
  lemma SuccessfulSessionShape(buffers: seq<seq<real>>, openedId: nat, queueResults: seq<int>)
    requires |buffers| == |queueResults| && openedId != 0
    ensures SessionEvents(buffers, true, openedId, queueResults)
            == [Init(InitVideoAudio, true), OpenAudioDevice(DeviceWant, openedId), PauseAudioDevice(openedId, 1)]
               + QueueAll(openedId, buffers, queueResults)
               + [PauseAudioDevice(openedId, 0), Delay(DurationMs * 4), CloseAudioDevice(openedId), Quit]
  {
  }

  /**
   * A successful session puts into the device FIFO, end to end and in order,
   * what each queue call SDL accepted hands over, and all of `buffers` when it
   * accepts every call and no buffer reaches 2^30 samples. A failed session
   * queues nothing.
   */
  lemma SessionQueuedData(buffers: seq<seq<real>>, initOk: bool, openedId: nat, queueResults: seq<int>)
    requires |buffers| == |queueResults|
    ensures var log := SessionEvents(buffers, initOk, openedId, queueResults);
      && (initOk && openedId != 0 ==>
            && QueuedData(log) == AcceptedBuffers(buffers, queueResults)
            && ((&& (forall j :: 0 <= j < |queueResults| ==> queueResults[j] == 0)
                 && (forall j :: 0 <= j < |buffers| ==> |buffers[j]| < 0x4000_0000))
                ==> QueuedData(log) == Concat(buffers)))
      && (!(initOk && openedId != 0) ==> QueuedData(log) == [])
  {
    var log := SessionEvents(buffers, initOk, openedId, queueResults);
    if initOk && openedId != 0 {
      var head := [Init(InitVideoAudio, true), OpenAudioDevice(DeviceWant, openedId), PauseAudioDevice(openedId, 1)];
      var calls := QueueAll(openedId, buffers, queueResults);
      var tail := [PauseAudioDevice(openedId, 0), Delay(DurationMs * 4), CloseAudioDevice(openedId), Quit];
      SuccessfulSessionShape(buffers, openedId, queueResults);
      QueuedDataNone(head);
      QueuedDataNone(tail);
      QueueAllData(openedId, buffers, queueResults);
      QueuedDataAppend(head, calls);
      QueuedDataAppend(head + calls, tail);
      if (forall j :: 0 <= j < |queueResults| ==> queueResults[j] == 0) &&
         (forall j :: 0 <= j < |buffers| ==> |buffers[j]| < 0x4000_0000) {
        AllAcceptedIsConcat(buffers, queueResults);
      }
    } else {
      QueuedDataNone(log);
    }
  }

  /**
   * In a successful session every queue call lies between the pause (index
   * 2) and the unpause, and when each buffer holds `size` samples each call
   * hands over a whole buffer to the opened device, its byte count
   * `4 * size` narrowed to a `Uint32`.
   */
  lemma SessionQueueOrder(buffers: seq<seq<real>>, openedId: nat, queueResults: seq<int>, size: nat)
    requires |buffers| == |queueResults| && openedId != 0
    requires forall j :: 0 <= j < |buffers| ==> |buffers[j]| == size
    ensures var log := SessionEvents(buffers, true, openedId, queueResults);
      && log[2] == PauseAudioDevice(openedId, 1)
      && log[|log| - 4] == PauseAudioDevice(openedId, 0)
      && forall k :: 0 <= k < |log| && log[k].QueueAudio? ==>
           2 < k < |log| - 4 && log[k].id == openedId
           && |log[k].data| == size && log[k].len == ToUint32(4 * size)
  {
    var log := SessionEvents(buffers, true, openedId, queueResults);
    var head := [Init(InitVideoAudio, true), OpenAudioDevice(DeviceWant, openedId), PauseAudioDevice(openedId, 1)];
    var calls := QueueAll(openedId, buffers, queueResults);
    var tail := [PauseAudioDevice(openedId, 0), Delay(DurationMs * 4), CloseAudioDevice(openedId), Quit];
    SuccessfulSessionShape(buffers, openedId, queueResults);
    QueueAllCalls(openedId, buffers, queueResults, size);
    forall k | 0 <= k < |log| && log[k].QueueAudio?
      ensures 2 < k < |log| - 4 && log[k].id == openedId
              && |log[k].data| == size && log[k].len == ToUint32(4 * size)
    {
      if k < |head| {
        assert false;
      } else if k < |head| + |calls| {
        assert log[k] == calls[k - |head|];
      } else {
        assert false;
      }
    }
  }

  /**
   * A successful session with four buffers, each shorter than 2^30 samples:
   * the FIFO receives, in order, each buffer whose call SDL accepts, whole.
   */
  lemma SessionQueuesFour(buffers: seq<seq<real>>, openedId: nat, r: seq<int>)
    requires openedId != 0 && |buffers| == 4 && |r| == 4
    requires forall j :: 0 <= j < 4 ==> |buffers[j]| < 0x4000_0000
    ensures QueuedData(SessionEvents(buffers, true, openedId, r))
            == (if r[0] == 0 then buffers[0] else []) + (if r[1] == 0 then buffers[1] else [])
               + (if r[2] == 0 then buffers[2] else []) + (if r[3] == 0 then buffers[3] else [])
  {
    SessionQueuedData(buffers, true, openedId, r);
    AcceptedFour(buffers, r);
    KeptWhole(buffers[0], r[0]);
    KeptWhole(buffers[1], r[1]);
    KeptWhole(buffers[2], r[2]);
    KeptWhole(buffers[3], r[3]);
  }

  /**
   * main.cpp queues the vowels i, ae, u and 3, in that order: the FIFO
   * receives each vowel whose queue call SDL accepts, whole, and when it
   * accepts all four, one stream of `4 * BufferLength` samples.
   */
  lemma SessionQueuesVowels(trig: Trig, openedId: nat, queueResults: seq<int>)
    requires openedId != 0 && |queueResults| == 4
    ensures var log := SessionEvents(Voices(trig), true, openedId, queueResults);
      && QueuedData(log) == (if queueResults[0] == 0 then VoiceBuffer(FormantI, trig) else [])
                           + (if queueResults[1] == 0 then VoiceBuffer(FormantAe, trig) else [])
                           + (if queueResults[2] == 0 then VoiceBuffer(FormantU, trig) else [])
                           + (if queueResults[3] == 0 then VoiceBuffer(Formant3, trig) else [])
      && ((forall j :: 0 <= j < 4 ==> queueResults[j] == 0) ==>
            && QueuedData(log) == VoiceBuffer(FormantI, trig) + VoiceBuffer(FormantAe, trig)
                                 + VoiceBuffer(FormantU, trig) + VoiceBuffer(Formant3, trig)
            && |QueuedData(log)| == 4 * BufferLength)
  {
    var voices := Voices(trig);
    VoicesLengths(trig);
    assert BufferLength < 0x4000_0000;
    SessionQueuesFour(voices, openedId, queueResults);
    assert voices[0] == VoiceBuffer(FormantI, trig) && voices[1] == VoiceBuffer(FormantAe, trig);
    assert voices[2] == VoiceBuffer(FormantU, trig) && voices[3] == VoiceBuffer(Formant3, trig);
  }

  /**
   * Each queue call of main.cpp hands over one whole buffer of
   * `BufferLength` samples as `4 * BufferLength` bytes, which fits SDL's
   * `Uint32` length.
   */
  lemma SessionVowelCalls(trig: Trig, openedId: nat, queueResults: seq<int>)
    requires openedId != 0 && |queueResults| == 4
    ensures var log := SessionEvents(Voices(trig), true, openedId, queueResults);
      forall k :: 0 <= k < |log| && log[k].QueueAudio? ==>
        |log[k].data| == BufferLength && log[k].len == 4 * BufferLength
  {
    VoicesLengths(trig);
    SessionQueueOrder(Voices(trig), openedId, queueResults, BufferLength);
    assert ToUint32(4 * BufferLength) == 4 * BufferLength;
  }
}
