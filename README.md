# pmt synthesiser core in Dafny

pmt is a small SDL2 synthesiser. It has two programs:

- The C program (`src/main.c` with `src/generate.c`) writes a four-second
  440 Hz square wave into a fixed-capacity sample buffer and plays it.
- The C++ program (`src/main.cpp` with the `nk::SDL2` wrappers of
  `src/sdl2.cpp`/`src/sdl2.h`) builds four vowel-like buffers from sums of
  formant-weighted harmonics and plays them one after another.

The model covers the parts of both programs that carry logic.

## Modules

- **SdlHost** (`sdl_host.dfy`): SDL seen from its caller.
  - Every SDL call is an `Event` appended to the `log` of a `Host` object.
  - What SDL decides is an oracle value carried inside the event: whether
    `SDL_Init` succeeds, which device id it opens, what `SDL_QueueAudio`
    returns, how the WAV load ends.
  - `QueuedData` is the device FIFO: of every queue call that SDL accepted
    (result 0), in call order, the samples that its byte count `len` covers.
    A refused call adds nothing.
  - `Sent` is what a queue call of a whole buffer hands over. Both programs
    pass the `size_t` count `size * sizeof(float)` as SDL's `Uint32` length,
    so from 2^30 samples on only a prefix (possibly nothing) is queued.
- **CTypes** (`c_types.dfy`): the 32-bit unsigned integers of the sources
  (`unsigned int` and `Uint32`) and their wrap-around arithmetic.
- **Generate** (`generate.dfy`): `struct wave` as the class `Wave`.
  - It has an `array<real>` of `capacity` slots and a mutable `size`.
  - It has `newWave` (the constructor) and `add_sample`.
- **Waveform** (`waveform.dfy`): the pure waveform functions.
  - `squ`, `gen_sine_sample`, `between` and `get_formant_coef` with its
    five vowel instances.
  - The recursion `gen_harmonics_sample`.
  - `Duplicated`, the left/right interleaving both programs write.
  - `sin`, `cos` and `atan2` are uninterpreted: they are the fields of a
    `Trig` value. Where a property needs it, `atan2` is assumed to lie in
    [-π, π] through the predicate `Atan2InRange`.
- **Sdl2Wrapper** (`sdl2.dfy`): `nk::SDL2` and `nk::SDL2AudioDevice`.
  - The static `s_count_init` is the field `countInit` of the class `Sdl2`.
    The constructor and destructor of `nk::SDL2` are its methods
    `Construct` and `Destruct`.
  - `CtorStep` and `DtorStep` are the same steps as functions, used to
    reason about whole runs of constructions and destructions.
  - `AudioDevice` holds a `const` device id. It opens the device (or
    fails), pauses and unpauses it, queues buffers and closes it.
- **MainCpp** (`main_cpp.dfy`): `main` of the C++ program.
  - The four fill loops are one in-place array method, `FillStereo`.
  - The session runs: construct SDL2, open the device, fill, pause, queue
    i/ae/u/3, unpause, wait, then destruct.
- **MainC** (`main_c.dfy`): the C program.
  - `g_context` is the class `Context`, updated by `init` and `quit`.
  - The square-wave fill loop goes through `Wave.AddSample`.
  - `main` with its `atexit(quit)` is modelled too.
  - Acquired and released resources are compared by reading the call log.

Floats are reals. `unsigned int` and `Uint32` arithmetic that can wrap is
written modulo 2^32:

- the band limits `F - T` and `F + T` of `get_formant_coef`;
- `s_count_init += 1`;
- the converted WAV length;
- the byte count passed to `SDL_QueueAudio`, whose `len` parameter is a
  `Uint32` while the programs compute it as a `size_t`.

A note on the C source: `init_audio_device` stores the returned id into
`context->audio_device` but tests `g_context.audio_device`. It is only ever
called with `&g_context`, so the two are the same object. The model
therefore tests the value it has just stored.

## Model

| member | source | states |
|---|---|---|
| Generate.Wave.constructor | src/generate.c:5-13 | `newWave(n)`: fresh storage of `n` slots, `size == 0`, `capacity == n`, no live samples |
| Generate.Wave.AddSample | src/generate.c:20-28 | a full wave is left exactly as it was; otherwise the sample lands in slot `size`, no other slot changes, `size` grows by exactly 1; `size <= capacity` is kept and `capacity` is `const`; as the only mutator of the API (generate.h) it only ever extends the live contents at the end, by at most one sample |
| Generate.AppendedAllTruncates | src/generate.c:20-28 | appending a sequence to a wave that is not over-full keeps its samples, takes new ones in order until full, and drops the rest |
| Generate.FreshWaveKeepsFirst | src/generate.c:5-28 | after N appends to a fresh wave of capacity C it holds `min(N, C)` samples, the first `min(N, C)` appended, in order |
| Waveform.Squ | src/main.cpp:21-27 | `squ` is always 0 or 1; a negative phase gives 0; a phase in [0, 2π] is not folded and gives 1; above 2π the result is 0 iff the single `atan2(sin x, cos x)` is negative; the C program's `squ` (main.c, lines 181-187) is the same function |
| Waveform.SquFoldsOnce | src/main.cpp:22-26 | with `atan2` in [-π, π], a folded phase lies in [-π, π], folding it again changes nothing, and `squ` of the folded phase equals `squ` of the original |
| Waveform.PhasePeriod | src/main.cpp:29-32 | the phase of `gen_sine_sample` is 0 at sample 0 and advances by exactly 2π per `sampleRate / freq` samples |
| Waveform.BetweenExcludesBounds | src/main.cpp:34-36 | `between` is strict: both bounds are excluded, and it holds iff `a < x < b` |
| Waveform.FormantCoef | src/main.cpp:38-45 | the gain is one of 1.0, 0.9 and 0.3; when no band limit wraps, it is 1.0 iff the frequency is strictly within T of F1, 0.9 iff outside that band and strictly within T of F2, and 0.3 iff outside both (the first band wins on overlap) |
| Waveform.FormantWrappedBandIsEmpty | src/main.cpp:38-45 | when `F1 < T`, the unsigned `F1 - T` wraps above `F1 + T`, so the full gain is never returned |
| Waveform.VowelBands | src/main.cpp:47-51 | for each of the five vowel instances: gain 1.0 exactly on the open interval (F1-100, F1+100), 0.9 exactly on (F2-100, F2+100) |
| Waveform.CutoffBounds | src/main.cpp:60-62 | for `freq > 0`, harmonic `j` is below the 4200 Hz ceiling iff `j` is at most the cutoff `floor(4200 / freq)`; this cutoff is the recursion's termination measure |
| Waveform.HarmonicTerms | src/main.cpp:53-65 | for `freq > 0`, the terms summed from harmonic `i` are one per harmonic number `j >= i` with `freq * j <= 4200` and none for any other `j >= i`, lowest first; there are `cutoff - i + 1` of them (none when `i` is past the cutoff); term `k` is `2 * coef(freq * (i+k)) * sine(freq * (i+k), 48000, x)` |
| Waveform.CutoffBoundsAll | src/main.cpp:60-62 | for `freq > 0`, the cutoff is non-negative and every harmonic number is below the ceiling iff it is at most the cutoff |
| Waveform.HarmonicsNeverStopWithoutPositiveFrequency | src/main.cpp:53-65 | for `freq <= 0`, no harmonic number from `i` on ever exceeds the ceiling, so the stopping test never fires (see Findings) |
| Waveform.HarmonicsStopAboveCeiling | src/main.cpp:60-62 | once `freq * i > 4200` the result is 0 and no term is left: the recursion stops there |
| Waveform.HarmonicsIsSumOfTerms | src/main.cpp:53-65 | for `freq > 0`, `gen_harmonics_sample(freq, x, coef, i)` is the sum of those terms |
| Waveform.VoiceSumsThirtyFiveHarmonics | src/main.cpp:92 | from fundamental 120 Hz and harmonic 1, exactly 35 terms are summed: 120 Hz up to 4200 Hz |
| Waveform.Duplicated | src/main.cpp:91-95 | left/right interleaving: twice as many elements, and elements `2i` and `2i+1` are both mono value `i` |
| Waveform.DuplicatedSnoc | src/main.cpp:91-95 | one more mono value adds one more identical pair at the end |
| Sdl2Wrapper.Sdl2.constructor | src/sdl2.cpp:94 | the static counter starts at 0 |
| Sdl2Wrapper.Sdl2.Construct | src/sdl2.cpp:96-114 | `SDL_Init` is called iff the count is 0; the constructor throws iff that call fails, leaving the count unchanged; otherwise the count rises by exactly 1 (mod 2^32) |
| Sdl2Wrapper.Sdl2.Destruct | src/sdl2.cpp:116-134 | a positive count is decremented and `SDL_Quit` is called exactly when it reaches 0; at count 0 there is only a warning, never an underflow |
| Sdl2Wrapper.Alternating | src/sdl2.cpp:94-134 | the reference call pattern: `SDL_Init`, `SDL_Quit`, `SDL_Init`, ... |
| Sdl2Wrapper.WellNestedRun | src/sdl2.cpp:94-134 | over any well-nested run of successful constructions and destructions, the count equals the number of live objects; `SDL_Init` and `SDL_Quit` alternate starting with `SDL_Init`; SDL is left initialised iff an object is live |
| Sdl2Wrapper.InitAudioDevice | src/sdl2.cpp:57-81 | exactly one `SDL_OpenAudioDevice` call; fails iff the returned id is 0, otherwise yields that id |
| Sdl2Wrapper.AudioDevice.constructor | src/sdl2.h:53 | the device id is set once at construction, is nonzero, and is `const` thereafter |
| Sdl2Wrapper.AudioDevice.Open | src/sdl2.cpp:136-146 | constructing `SDL2AudioDevice` either throws (id 0) or yields a fresh object owning the nonzero id |
| Sdl2Wrapper.AudioDevice.Pause | src/sdl2.cpp:156-159 | one `SDL_PauseAudioDevice(id, 1)` call on the object's own id; no failure path |
| Sdl2Wrapper.AudioDevice.Unpause | src/sdl2.cpp:161-164 | one `SDL_PauseAudioDevice(id, 0)` call on the object's own id; no failure path |
| Sdl2Wrapper.AudioDevice.Queue | src/sdl2.h:41-49 | one `SDL_QueueAudio` of the whole buffer to the object's own device, with the byte count `size * sizeof(float)` narrowed to SDL's `Uint32` length, followed by `check_queue_result` (a warning iff the result is nonzero); it never throws |
| Sdl2Wrapper.AudioDevice.CheckQueueResult | src/sdl2.cpp:166-170 | warns iff the result is nonzero, and does nothing else |
| Sdl2Wrapper.AudioDevice.Close | src/sdl2.cpp:148-154 | the destructor closes the device unconditionally |
| SdlHost.SentPrefix | src/sdl2.h:44-47 | narrowing the byte count `4 * n` of a whole buffer of `n` samples to a `Uint32` hands over its first `n mod 2^30` samples: all of them below 2^30 samples, none at exactly 2^30 |
| Sdl2Wrapper.QueueEventsShape | src/sdl2.h:44-48 | when SDL returns 0 a queue call puts into the FIFO the samples its narrowed byte count covers, which is the whole buffer for fewer than 2^30 samples, and nothing otherwise; it passes `4 * size` bytes modulo 2^32, which is `4 * size` itself for fewer than 2^30 samples; it warns iff SDL reports failure |
| MainCpp.VoiceIsHarmonicsSample | src/main.cpp:92 | the sample of each fill loop is `0.01 * gen_harmonics_sample(120, i, coef)` |
| MainCpp.FillStereo | src/main.cpp:90-95 | the loop over `i < size/2` writes the voice sample `i` to elements `2i` and `2i+1`, so the array becomes the interleaved voice; only an odd last element would be left untouched |
| MainCpp.NewVoiceBuffer | src/main.cpp:90-116 | each vector of `BUFFER_LENGTH` (even) elements is overwritten completely: its contents are the interleaved voice |
| MainCpp.VoicesLengths | src/main.cpp:90-116 | each of the four buffers has `4000 / 1000 * 2 * 48000` samples |
| MainCpp.KeptWhole | src/sdl2.h:44-47 | for a buffer shorter than 2^30 samples, a queue call adds the whole buffer to the FIFO if accepted and nothing if refused |
| MainCpp.QueueAllData | src/main.cpp:119-122 | successive queue calls put into the FIFO, end to end and in call order, what each call SDL accepted hands over (its narrowed byte count's worth of samples) |
| MainCpp.AllAcceptedIsConcat | src/main.cpp:119-122 | when SDL accepts every call and every buffer is shorter than 2^30 samples, the FIFO contributions are all the buffers, end to end |
| MainCpp.QueueAllCalls | src/main.cpp:119-122 | every queue call goes to the one device and, for a buffer of `size` samples, passes those samples and `4 * size` bytes narrowed to a `Uint32` |
| MainCpp.QueueAllFour | src/main.cpp:119-122 | the four queue calls, one after another |
| MainCpp.QueueAndPlay | src/main.cpp:118-124 | pause, then the queue calls of samples1..samples4 in that order, then unpause and `SDL_Delay(duration * 4)` |
| MainCpp.Play | src/main.cpp:88-124 | once the device is open, the calls are exactly the pause, the four vowel buffers in order i, ae, u, 3, the unpause and the wait |
| MainCpp.RunSession | src/main.cpp:67-125 | the whole run: a failed `SDL_Init` exits with failure after that one call; a failed open quits SDL and exits with failure; otherwise it plays, closes the device before quitting SDL, and exits with success; the counter ends at 0 in every case |
| MainCpp.AcceptedFour | src/main.cpp:119-122 | the FIFO contributions of four queue calls, end to end: each call's handed-over samples if accepted, nothing if refused |
| MainCpp.SuccessfulSessionShape | src/main.cpp:67-125 | a session whose `SDL_Init` and open succeed makes `SDL_Init`, the open and the pause, then the queue calls, then the unpause, the wait, the close and `SDL_Quit` |
| MainCpp.SessionQueuedData | src/main.cpp:67-125 | a successful session puts into the FIFO, end to end and in order, what each call SDL accepted hands over, and all the buffers when SDL accepts every call and none reaches 2^30 samples; a session whose `SDL_Init` or open fails queues nothing |
| MainCpp.SessionQueueOrder | src/main.cpp:118-123 | in a successful session the pause is the third call and the unpause the fourth from last; every queue call lies strictly between them, goes to the opened device and passes one whole buffer, as `4 * size` bytes narrowed to a `Uint32` |
| MainCpp.SessionQueuesFour | src/main.cpp:118-123 | a successful session with four buffers shorter than 2^30 samples puts into the FIFO, in order, each buffer whose call SDL accepts, whole |
| MainCpp.SessionQueuesVowels | src/main.cpp:67-125 | the C++ program queues the vowel buffers i, ae, u, 3 in that order: the FIFO receives each one whose call SDL accepts, whole, and when all four are accepted one stream of `4 * BUFFER_LENGTH` samples |
| MainCpp.SessionVowelCalls | src/main.cpp:118-123 | each queue call of the C++ program passes one whole buffer of `BUFFER_LENGTH` samples as `4 * BUFFER_LENGTH` bytes, which fits a `Uint32` |
| MainC.Context.constructor | src/main.c:27 | `g_context` starts zeroed: no device, no buffer, length 0 |
| MainC.InitSdl | src/main.c:133-140 | one `SDL_Init(SDL_INIT_AUDIO)`; it succeeds iff SDL does |
| MainC.InitAudioDevice | src/main.c:64-81 | opens the device with the 48000 Hz / F32 / 2 channel / 4096 request, stores the returned id even when it is 0 (nothing else changes), and succeeds iff the id is nonzero |
| MainC.InitTestWav | src/main.c:83-131 | the context after each outcome of the WAV step: unchanged on a failed load; the loaded buffer and length otherwise; `converted` true and the `Uint32`-truncated `len * len_mult` after a conversion; success iff no conversion was needed or it succeeded |
| MainC.InitProgram | src/main.c:142-154 | SDL, then the device, then the WAV, each step only after the previous one succeeded; succeeds iff all three did |
| MainC.QuitProgram | src/main.c:156-179 | the WAV buffer is released if held (by `SDL_free` iff converted, else `SDL_FreeWAV`), then the device is closed if open, then SDL is quit if initialised; buffer and device are reset; SDL ends uninitialised |
| MainC.QuitIdempotent | src/main.c:156-171 | a second `quit` makes no call and changes nothing |
| MainC.QuitReleasesWhatInitAcquired | src/main.c:142-179 | from program start, `quit` releases exactly what `init` acquired, each resource with its matching release call, in reverse order of acquisition, whichever step failed |
| MainC.SquarePhaseFirstPeriod | src/main.c:206 | the phase `2 * pi * 440 / 48000 * i` lies in [0, 2π] for `i <= 109` and exceeds 2π from `i = 110` on |
| MainC.SquareSamples | src/main.c:181-206 | there are `sampleRate * duration` mono samples, sample `i` is `squ` of the phase of `i`, every one is 0 or 1, and the first 110 are 1 |
| MainC.FillSquareWave | src/main.c:199-209 | on a fresh wave of `channels * sampleRate * duration` slots the loop's appends fill it exactly (`size == capacity`, nothing dropped); the contents are every square sample, twice, which is what `AppendedAll` gives for those appends on a fresh wave |
| MainC.AddPair | src/main.c:207-208 | the two `add_sample` calls of one iteration write the same value to two consecutive slots |
| MainC.SquareWaveShape | src/main.c:199-209 | the wave holds `2 * 48000 * 4` samples, each 0 or 1, and every left/right pair is equal |
| MainC.SquareWaveStartsHigh | src/main.c:181-206 | the first 110 mono samples have a phase in [0, 2π], so they are 1 whatever `atan2` does; later phases all exceed 2π and are folded |
| MainC.Play | src/main.c:197-222 | pause, then one queue call of the live samples as `size * sizeof(float)` bytes narrowed to a `Uint32`; on failure it returns `EXIT_FAILURE` at once, otherwise it unpauses, waits `(duration + 1) * 1000` ms and returns `EXIT_SUCCESS` |
| MainC.Run | src/main.c:189-229 | `main` plus the `atexit` `quit`: the calls are `init`'s, then the playback if `init` succeeded, then `quit`'s; the exit status; the final context; SDL ends uninitialised |
| MainC.InitQueuesNothing | src/main.c:142-154 | `init` makes no queue call |
| MainC.QuitQueuesNothing | src/main.c:156-179 | `quit` makes no queue call |
| MainC.PlayQueuesWave | src/main.c:211-214 | playback makes one queue call of the whole wave: the FIFO receives what its narrowed byte count covers (the whole wave below 2^30 samples) iff SDL accepts it, and nothing otherwise |
| MainC.RunQueuesWave | src/main.c:189-229 | a run that exits with success (`init` and the queue call both succeed) hands the wave to the FIFO, all of it below 2^30 samples and otherwise what the narrowed byte count covers; every other run queues nothing |
| MainC.SquareWaveBytes | src/main.c:211-214 | the queued square wave is 384000 samples, that is 1536000 bytes, a count the `Uint32` length holds unchanged, so all of it is handed over |

## Left out

- Floating point: floats and doubles are reals. There is no rounding of
  `freq * i`, no narrowing of `double` to `float`, and no 1e-5 tolerance.
- `sin`, `cos` and `atan2` are uninterpreted. Only the range of `atan2` is
  assumed, and only by the lemmas that need it.
- Waveform.Phase and Waveform.SineSample: both require `sampleRate != 0`.
  The C++ code would divide by zero there; it only ever uses 48000.
- Waveform.GenHarmonicsSample: requires `freq > 0`, because otherwise the
  recursion does not end (see Findings). It also does not model the `unsigned int`
  wrap-around of `i + 1`, which only a fundamental below 4200 / 2^32 Hz
  could reach.
- Waveform.FormantCoef: its if-and-only-if clauses are stated only when no
  band limit wraps around. Waveform.FormantWrappedBandIsEmpty covers the
  wrapping case for F1, and every instance in the program is wrap-free.
- `deleteWave` (its two `free` calls, of the slots and of the wave) and the
  vector and `unique_ptr` deallocations have no counterpart, since Dafny has
  no deallocation. The wave's release is not an event either.
- `malloc` failure in `newWave` and in the WAV conversion is not modelled.
  Neither is the content of slots that were allocated but never written.
- The deleted copy constructor and copy assignment of `SDL2AudioDevice`
  cannot be expressed. The model gives each object one `const` id and
  creates objects only through `AudioDevice.Open`.
- `init_test_wav` is modelled by its outcome only (`WavOutcome`).
  `SDL_LoadWAV`, `SDL_BuildAudioCVT` and `SDL_ConvertAudio` are foreign
  calls. This has three consequences:
  - the internal `SDL_FreeWAV` of the loaded buffer after a successful
    conversion is not an event;
  - the `cvt.buf` that leaks when the conversion fails is not tracked;
  - the WAV buffer's bytes are not tracked.
- Logging is left out, apart from the two warnings the properties rely on.
  Those are the failed queue call and the destructor of `SDL2` at count 0.
- All SDL calls are log events with oracle results. Playback itself
  happens on SDL's own thread and is not modelled. Neither is the draining
  of the FIFO, nor the clock behind `SDL_Delay`.
- Interactive device listing and selection are stdin/stdout I/O and are
  not modelled: `list_audio_device`, `scan_int`, `select_audio_device`.
- The window, GL context and user-event wrappers of `sdl2.cpp`
  (`SDL2Window`, `SDL2GLContext`, `SDL2UserEvent`,
  `set_sdl2_gl_attribute`) are not modelled. Neither are the exception
  classes, which only carry constant messages.
- `src/wave.h` is not part of this model.
- MainCpp.NewVoiceBuffer: the zero initialisation of the vectors is not
  modelled, because every element is overwritten before it is read.
- Waveform.Squ: the C++ `squ` takes a `float` and the C `squ` a `double`.
  Both are one real-valued function here. The C++ `squ` is never called
  by the C++ `main`.
- MainCpp.RunSession: the `try`/`catch` is modelled by the `thrown` flag and
  the `DeviceFailed` outcome. Destructors run in reverse order of
  declaration, and only for the objects that were constructed.
- MainC.QuitProgram: `converted` is never reset by `quit`. It matters only
  together with a buffer, which `quit` does reset.

## Findings

| source | as written | input that shows it | evidently intended | confidence | as-written member | corrected member |
|---|---|---|---|---|---|---|
| src/main.cpp:53-65 | the recursion of `gen_harmonics_sample` stops only when `freq * i > 4200` | any `freq <= 0`, for example `gen_harmonics_sample(0, x, coef)`: `freq * i` is never above 4200, so every call recurses again | a sum over the harmonics up to 4200 Hz of a positive fundamental, which ends after `floor(4200 / freq)` terms | not executed; the program itself only passes 120 Hz | Waveform.HarmonicsNeverStopWithoutPositiveFrequency | Waveform.HarmonicsIsSumOfTerms |
