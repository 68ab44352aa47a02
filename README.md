# vsynth core in Dafny

This project models the sound-generating core of vsynth, a small polyphonic software
synthesizer. It covers:

- the ADSR envelope state machine;
- the phase-accumulating oscillator and its five waveforms;
- the sixteen-voice pool of the synthesizer, with its retrigger, eviction, cleanup and
  parameter broadcast rules, and the vibrato LFO;
- the delay line and the Schroeder-style reverb (four comb and two allpass filters), each over
  circular buffers, and the chain that runs them in series;
- the recorder: note-event log, audio capture, playback cursor, and the WAV, MIDI and text
  exporters, given as byte or line sequences together with their readers;
- the spectrum analyser: input framing, Hann window, decibel levels, normalisation to the
  60 dB display range, and bin frequencies;
- the audio engine: the per-block render loop into the 1024-slot spectrum ring, playback of
  recorded events, the start/stop guards, and the exporter chosen by file suffix.

Every value the C++ code holds as a `float` is a Dafny `real`. A float-to-integer cast is
truncation toward zero (`Numeric.Trunc`), and the unsigned casts of the exporters are
written out as reductions modulo 2^8, 2^16 and 2^32 (`FileFormats.Uint8/16/32`).

The C math library, FFTW and the random generator are not defined here. They are fields of a
`Platform.Host` value that callers pass in:

- `sin`, `cos`, `pow`, `log10`, `sqrt`;
- `dft`, the real-to-complex transform;
- `noise(k)`, the k-th uniform draw.

The few facts the proofs need about them are stated as preconditions where they are used:
sine and cosine lie in [-1, 1], noise draws lie in [-1, 1], and the transform of n samples has
n/2+1 bins.

The modules follow the source files:

| module | file | source |
|---|---|---|
| `Numeric` | numeric.dfy | min/max/clamp and truncating casts shared by all files |
| `Platform` | platform.dfy | the host services above |
| `NoteEvents` | events.dfy | `NoteEvent` (include/vsynth/Recorder.h) |
| `Envelope` | envelope.dfy | src/ADSREnvelope.cpp |
| `Oscillators` | oscillator.dfy | src/Oscillator.cpp |
| `Synthesis` | synthesizer.dfy | src/Synthesizer.cpp (`Voice` and `Synthesizer`) |
| `EffectsChain` | effects.dfy | src/Effects.cpp |
| `FileFormats` | formats.dfy | the byte and text layouts written by src/Recorder.cpp |
| `Recording` | recorder.dfy | src/Recorder.cpp |
| `Spectrum` | fft.dfy | src/FFTAnalyzer.cpp |
| `Engine` | engine.dfy | src/AudioEngine.cpp |

Each stateful C++ class is a Dafny `class` with the same fields, and its methods update those
fields in place. Beside each class is a value datatype (`Env`, `Osc`, `Voice`, `DelayLine`,
`Reverb`, `Chain`, `Rec`) with pure transition functions. Each method is proved to perform
exactly the transition of its function (`Value() == F(old(Value()))`). The properties the
source promises are then proved about those functions as lemmas.

Two things are held by value rather than in place:

- The voices, and the oscillators and envelope inside each voice, are owned through
  `unique_ptr` and never shared, so the pool is a sequence of `Voice` values.
- The delay line and the reverb filters keep their circular buffers in Dafny arrays.

## Model

| member | source | states |
|---|---|---|
| Numeric.Clamp | src/ADSREnvelope.cpp:75 | the clamp used throughout: the result lies in [lo, hi], equals x inside the range and the nearer bound outside it |
| Numeric.Trunc | src/Recorder.cpp:123 | a float-to-int cast truncates toward zero: n ≤ x < n+1 for x ≥ 0 and n-1 < x ≤ n for x < 0 |
| Numeric.TruncMonotone | src/Recorder.cpp:123 | truncation toward zero is monotone |
| Envelope.WithRates | src/ADSREnvelope.cpp:106-111 | the recomputed rates satisfy attackRate·attack·sr = 1, decayRate·decay·sr = 1-sustain and releaseRate·release·sr = -sustain; nothing else changes, and positive times keep the rates signed |
| Envelope.New | src/ADSREnvelope.cpp:4-17 | a new envelope is idle at level 0 with rate 0, has the defaults 0.1/0.2/0.7/0.5 s and satisfies the envelope invariant |
| Envelope.Triggered | src/ADSREnvelope.cpp:19-24 | from any state the envelope enters ATTACK with target 1 and the attack rate; the level is not reset and the invariant is kept |
| Envelope.Released | src/ADSREnvelope.cpp:26-33 | in IDLE nothing changes; otherwise the envelope enters RELEASE with target 0 and the release rate, level untouched |
| Envelope.Advanced | src/ADSREnvelope.cpp:35-73 | one sample of the state machine changes only the state, level, target and rate; the parameters and rates stay as they are |
| Envelope.Processed | src/ADSREnvelope.cpp:35-76 | process returns a value in [0, 1] whatever the state; under the invariant that value is the new level |
| Envelope.WithAttack | src/ADSREnvelope.cpp:78-82 | the attack time is floored at 0.001 s, the rates are recomputed, and the in-flight state, level, target and rate are untouched |
| Envelope.WithDecay | src/ADSREnvelope.cpp:84-88 | the decay time is floored at 0.001 s, the rates are recomputed, and the in-flight rate is untouched |
| Envelope.WithRelease | src/ADSREnvelope.cpp:95-99 | the release time is floored at 0.001 s, the rates are recomputed, and the in-flight rate is untouched |
| Envelope.WithSustain | src/ADSREnvelope.cpp:90-93 | the sustain level is clamped to [0, 1] and nothing else changes: the rates are not recomputed |
| Envelope.RunPreservesInv | src/ADSREnvelope.cpp:35-76 | any number of samples keeps the envelope invariant (level in [0, 1], target and rate consistent with the state) |
| Envelope.AttackNonDecreasing | src/ADSREnvelope.cpp:42-50 | a sample in ATTACK never lowers the level |
| Envelope.AttackReachesPeak | src/ADSREnvelope.cpp:42-50 | if n attack steps would carry the level to 1, then within n samples the envelope reaches DECAY at level exactly 1 |
| Envelope.AttackWithinAttackTime | src/ADSREnvelope.cpp:42-50 | after setAttack(a) and a trigger from level 0, the peak is reached within ⌈a·sr⌉ samples |
| Envelope.ZeroRateReleaseNeverEnds | src/ADSREnvelope.cpp:65-72 | a release entered at a positive level with rate 0 (sustain 0) never reaches IDLE: every later sample leaves the envelope unchanged |
| Envelope.ReleaseReachesIdle | src/ADSREnvelope.cpp:65-72 | with a negative release rate, once n steps would take the level to 0 the envelope is IDLE at level 0 after n samples |
| Envelope.IdleStays | src/ADSREnvelope.cpp:38-40 | an idle envelope at level 0 stays so forever |
| Envelope.ADSREnvelope.constructor | src/ADSREnvelope.cpp:4-17 | the fields hold New(sampleRate) |
| Envelope.ADSREnvelope.Trigger | src/ADSREnvelope.cpp:19-24 | the fields become Triggered of the old fields, and the invariant holds |
| Envelope.ADSREnvelope.Release | src/ADSREnvelope.cpp:26-33 | the fields become Released of the old fields |
| Envelope.ADSREnvelope.Process | src/ADSREnvelope.cpp:35-76 | the fields and the result are Processed of the old fields; the result is in [0, 1] |
| Envelope.ADSREnvelope.SetAttack | src/ADSREnvelope.cpp:78-82 | the fields become WithAttack of the old fields |
| Envelope.ADSREnvelope.SetDecay | src/ADSREnvelope.cpp:84-88 | the fields become WithDecay of the old fields |
| Envelope.ADSREnvelope.SetSustain | src/ADSREnvelope.cpp:90-93 | the fields become WithSustain of the old fields |
| Envelope.ADSREnvelope.SetRelease | src/ADSREnvelope.cpp:95-99 | the fields become WithRelease of the old fields |
| Envelope.ADSREnvelope.IsActive | src/ADSREnvelope.cpp:101-104 | active exactly when the state is not IDLE |
| Envelope.ADSREnvelope.CalculateRates | src/ADSREnvelope.cpp:106-111 | only the three rate fields change, to WithRates of the old fields |
| Oscillators.WaveformOf | include/vsynth/Oscillator.h:6-12 | the cast of an int to WaveformType: code 0 is SINE, 1 SQUARE, 2 SAWTOOTH, 3 TRIANGLE and 4 NOISE, each in both directions, and any other code is an unnamed value that keeps its number |
| Oscillators.New | src/Oscillator.cpp:4-13 | a new oscillator is a sine of amplitude 1 at phase 0, with increment 2π·f/sr |
| Oscillators.SquareWave | src/Oscillator.cpp:72-75 | the square wave is +1 exactly when the phase is below π, and -1 otherwise |
| Oscillators.NoiseStep | src/Oscillator.cpp:91-101 | the one-pole smoother keeps the noise level in [-1, 1] when the last level and the draw are in it |
| Oscillators.AdvancePhase | src/Oscillator.cpp:37-41 | the phase gains one increment and loses 2π at most once; a phase in [0, 2π) with an increment in [0, 2π) stays in [0, 2π) |
| Oscillators.Processed | src/Oscillator.cpp:15-44 | process advances the phase, updates the noise level only for the noise waveform, changes nothing else, and returns the waveform value times the amplitude |
| Oscillators.WithFrequency | src/Oscillator.cpp:46-50 | setFrequency stores the frequency and recomputes the increment as 2π·f/sr; nothing else changes |
| Oscillators.PhaseStaysInCycle | src/Oscillator.cpp:37-41 | a process call keeps the phase in [0, 2π) when the increment is in [0, 2π) |
| Oscillators.IncrementInCycle | src/Oscillator.cpp:46-50 | a frequency in [0, sr) gives an increment in [0, 2π) |
| Oscillators.SawtoothRange | src/Oscillator.cpp:77-80 | the sawtooth lies in [-1, 1) over one cycle |
| Oscillators.TriangleIsFoldedRamp | src/Oscillator.cpp:82-89 | the triangle equals 1 - 2·abs(phase/π - 1): -1 at phase 0, +1 at π, continuous at π, and in [-1, 1] over the cycle |
| Oscillators.OutputWithinAmplitude | src/Oscillator.cpp:15-44 | with sine and the draws in [-1, 1], every waveform's output is bounded by the amplitude in absolute value |
| Oscillators.NoiseStaysBounded | src/Oscillator.cpp:91-101 | any sequence of draws in [-1, 1] keeps the smoothed noise in [-1, 1] |
| Oscillators.Oscillator.constructor | src/Oscillator.cpp:4-13 | the fields hold New(frequency, sampleRate) |
| Oscillators.Oscillator.Process | src/Oscillator.cpp:15-44 | the fields and the result are Processed of the old fields |
| Oscillators.Oscillator.SetFrequency | src/Oscillator.cpp:46-50 | the fields become WithFrequency of the old fields |
| Oscillators.Oscillator.SetWaveform | src/Oscillator.cpp:52-55 | only the waveform changes |
| Oscillators.Oscillator.SetAmplitude | src/Oscillator.cpp:57-60 | only the amplitude changes |
| Oscillators.Oscillator.SetPhase | src/Oscillator.cpp:62-65 | only the phase changes |
| Synthesis.NoteToFrequency | src/Synthesizer.cpp:244-247 | the frequency of a MIDI note is positive whenever the host's power of two is |
| Synthesis.ConcertPitch | src/Synthesizer.cpp:244-247 | note 69 sounds at 440 Hz |
| Synthesis.OctaveUp | src/Synthesizer.cpp:244-247 | twelve semitones up doubles the frequency |
| Synthesis.Detune | src/Synthesizer.cpp:16-19 | oscillator 0 is not detuned; oscillator i > 0 is tuned up by 1 + i/100 |
| Synthesis.NewOscillator | src/Synthesizer.cpp:13-21 | oscillator i of a new voice is a unit sine at phase 0, tuned to the note's frequency times its detune |
| Synthesis.NewVoice | src/Synthesizer.cpp:7-25 | a new voice is active with its note and velocity, holds max(count, 0) oscillators each as NewOscillator gives, and has a fresh envelope that is already triggered |
| Synthesis.WithWaveform | src/Synthesizer.cpp:108-110 | every oscillator gets the waveform cast from the code, and nothing else changes |
| Synthesis.ConfiguredEnv | src/Synthesizer.cpp:103-106 | pushing the global ADSR parameters floors the three times at 0.001 s and clamps the sustain to [0, 1]; because setRelease runs last, all three rates fit the new parameters; the state, level, target, rate and invariant are kept |
| Synthesis.Configured | src/Synthesizer.cpp:100-110 | the note, velocity, flag and phase are kept; every oscillator gets the global waveform and nothing else; the envelope gets the floored global times and clamped sustain with rates to match, and its stage in flight is kept |
| Synthesis.FreshVoice | src/Synthesizer.cpp:100-110 | the voice noteOn adds satisfies the voice invariant, is active, and carries the note and velocity |
| Synthesis.FirstAttackAtDefaultRate | src/Synthesizer.cpp:23-24 | a new voice's envelope is in ATTACK at the rate of the default 0.1 s attack, even though its attack time is already the global setting |
| Synthesis.Released | src/Synthesizer.cpp:55-58 | Voice::release releases only the envelope and keeps the voice invariant |
| Synthesis.FirstPlaying | src/Synthesizer.cpp:82-87 | the index of the first active voice with the note (the pool size if none): no voice before it plays the note |
| Synthesis.ReleaseFirstReleasesOne | src/Synthesizer.cpp:82-87 | the retrigger releases only the first active voice with the note, because of the break, and leaves every other voice as it was |
| Synthesis.NoteOffVoices | src/Synthesizer.cpp:115-122 | noteOff releases every active voice with the note and leaves all other voices untouched |
| Synthesis.Applied | src/Synthesizer.cpp:165-195 | one ADSR setter applied to an envelope keeps its invariant, state, level and sample rate |
| Synthesis.Broadcast | src/Synthesizer.cpp:165-195 | an ADSR setter reaches every voice's envelope, changes nothing else in a voice, and keeps the voice invariant |
| Synthesis.WaveformAll | src/Synthesizer.cpp:197-205 | setWaveform sets the waveform of every oscillator of every voice and nothing else |
| Synthesis.WaveformAllKeepsOk | src/Synthesizer.cpp:197-205 | setWaveform keeps the pool invariant |
| Synthesis.BroadcastKeepsOk | src/Synthesizer.cpp:165-195 | the ADSR setters keep the pool invariant |
| Synthesis.ClampCount | src/Synthesizer.cpp:207-211 | the oscillator count is clamped to [1, 3] |
| Synthesis.Mixed | src/Synthesizer.cpp:34-36 | summing the oscillators processes each once and takes one random draw per noise oscillator |
| Synthesis.MixedPointwise | src/Synthesizer.cpp:34-36 | the i-th oscillator after the mix is that oscillator processed with the draw that follows the earlier noise oscillators' draws |
| Synthesis.VoiceStep | src/Synthesizer.cpp:27-53 | an inactive voice returns 0 and changes nothing; an active one processes its oscillators, advances its envelope, stays active exactly while the envelope is not idle, and returns the oscillators' mean times the envelope's new level times the velocity |
| Synthesis.VoiceStepKeepsOk | src/Synthesizer.cpp:27-53 | Voice::process keeps the voice invariant, so the active flag keeps matching the envelope |
| Synthesis.MixedBounded | src/Synthesizer.cpp:34-36 | the sum of n oscillators of amplitude at most 1 is at most n in absolute value |
| Synthesis.ScaledBounded | src/Synthesizer.cpp:39-45 | averaging a sum bounded by the count and scaling by an envelope value in [0, 1] and the velocity stays within the velocity |
| Synthesis.VoiceWithinVelocity | src/Synthesizer.cpp:27-53 | a voice's output never exceeds its velocity in absolute value |
| Synthesis.NextVibratoPhase | src/Synthesizer.cpp:130-133 | the vibrato phase gains 2π·rate·dt and wraps at most once, staying in [0, 2π) when it started there and the increment is below 2π |
| Synthesis.Retuned | src/Synthesizer.cpp:139-145 | every oscillator of a voice is retuned to the vibrato frequency times its detune, with the increment recomputed; nothing else changes |
| Synthesis.VoiceTick | src/Synthesizer.cpp:137-148 | an inactive voice is skipped: no output and no change |
| Synthesis.Render | src/Synthesizer.cpp:136-149 | rendering the pool keeps its size and never moves the noise source backwards |
| Synthesis.RenderPointwise | src/Synthesizer.cpp:136-149 | each rendered voice keeps its note and velocity, an inactive one is unchanged, and an active one is retuned and processed |
| Synthesis.VoiceTickKeepsOk | src/Synthesizer.cpp:137-148 | retuning and processing a voice keeps the voice invariant |
| Synthesis.RenderKeepsOk | src/Synthesizer.cpp:136-149 | rendering keeps the pool invariant |
| Synthesis.RenderWithinVelocities | src/Synthesizer.cpp:136-149 | the mixed output of the pool is bounded by the sum of its voices' velocities |
| Synthesis.ActiveOnlyMembers | src/Synthesizer.cpp:233-242 | cleanupVoices keeps exactly the active voices |
| Synthesis.ActiveOnlyAppend | src/Synthesizer.cpp:233-242 | the cleanup works voice by voice and keeps the order |
| Synthesis.ActiveOnlyKeepsActivePool | src/Synthesizer.cpp:233-242 | a pool of active voices is left as it is |
| Synthesis.ActiveOnlyIdempotent | src/Synthesizer.cpp:233-242 | a second cleanup changes nothing |
| Synthesis.NoteOnKeepsCapacity | src/Synthesizer.cpp:89-112 | a pool of at most 16 voices still holds at most 16 after noteOn |
| Synthesis.NoteOnEvictsOldest | src/Synthesizer.cpp:89-112 | with 16 active voices, noteOn erases the oldest voice, whatever its state, and appends the new voice last |
| Synthesis.NoteOnBelowCapacity | src/Synthesizer.cpp:82-112 | below capacity, noteOn only does the retrigger release and appends the new voice last |
| Synthesis.RetriggerTwice | src/Synthesizer.cpp:79-112 | noteOn twice for a note nothing plays, below capacity: the older voices are untouched, the first new voice is releasing, the second is attacking, and no older voice sounds the note |
| Synthesis.NoteOnKeepsOk | src/Synthesizer.cpp:79-113 | noteOn keeps the pool invariant |
| Synthesis.ActiveOnlyKeepsOk | src/Synthesizer.cpp:233-242 | cleanupVoices keeps the pool invariant |
| Synthesis.NoteOffKeepsOk | src/Synthesizer.cpp:115-122 | noteOff keeps the pool invariant |
| Synthesis.NoteOffSilencesNote | src/Synthesizer.cpp:115-122 | after noteOff every voice with the note is releasing or idle |
| Synthesis.CounterClimbs | src/Synthesizer.cpp:152-156 | below the threshold the static counter climbs by one per call |
| Synthesis.PurgeCadence | src/Synthesizer.cpp:152-156 | from counter c the next 1000-c calls do not purge, and the one after them purges and resets the counter to 0: every 1001st call purges |
| Synthesis.Tick | src/Synthesizer.cpp:136-156 | one process call's voice stage outputs the rendered mix and never grows the pool |
| Synthesis.MakeVoice | src/Synthesizer.cpp:7-25 | the Voice constructor's loop builds exactly NewVoice |
| Synthesis.SwitchWaveform | src/Synthesizer.cpp:108-110 | the waveform loop over a voice's oscillators computes WithWaveform |
| Synthesis.RetuneVoice | src/Synthesizer.cpp:139-145 | the retuning loop computes Retuned |
| Synthesis.ProcessVoice | src/Synthesizer.cpp:27-53 | the loop of Voice::process computes VoiceStep |
| Synthesis.SwitchAll | src/Synthesizer.cpp:197-205 | the nested loop of setWaveform computes WaveformAll |
| Synthesis.RemoveInactive | src/Synthesizer.cpp:233-242 | the erase/remove_if pass computes ActiveOnly |
| Synthesis.ReleaseRetriggered | src/Synthesizer.cpp:82-87 | the retrigger loop with its break computes ReleaseFirst |
| Synthesis.MakeRoom | src/Synthesizer.cpp:89-97 | the capacity step computes Purged |
| Synthesis.Synthesizer.constructor | src/Synthesizer.cpp:61-75 | the given sample rate and its period 1/sr, an empty pool, the default ADSR, waveform 0 and two oscillators, vibrato 5 Hz at depth 0.02 and phase 0, counter 0, no noise draws, and a fresh delay and reverb at that rate (Initial) |
| Synthesis.Synthesizer.CleanupVoices | src/Synthesizer.cpp:233-242 | the pool becomes the active voices of the old pool, in order |
| Synthesis.Synthesizer.NewVoiceFor | src/Synthesizer.cpp:100-110 | the voice built for noteOn is FreshVoice with the global parameters |
| Synthesis.Synthesizer.NoteOn | src/Synthesizer.cpp:79-113 | the pool becomes NoteOnVoices of the old pool and the new voice, and the pool invariant (at most 16 voices) holds |
| Synthesis.Synthesizer.NoteOnPool | src/Synthesizer.cpp:79-113 | the pool noteOn builds satisfies the pool invariant and is NoteOnVoices |
| Synthesis.Synthesizer.NoteOff | src/Synthesizer.cpp:115-122 | the pool becomes NoteOffVoices of the old pool |
| Synthesis.Synthesizer.RenderVoices | src/Synthesizer.cpp:136-149 | the voice loop of process updates the pool, the output and the noise position as Render gives |
| Synthesis.Synthesizer.MixVoices | src/Synthesizer.cpp:136-156 | the voice loop and the cleanup counter perform Tick and keep the pool invariant and the counter in [0, 1000] |
| Synthesis.Synthesizer.AdvanceVibrato | src/Synthesizer.cpp:130-133 | the vibrato phase becomes NextVibratoPhase of the old one |
| Synthesis.Synthesizer.RenderAll | src/Synthesizer.cpp:124-156 | process up to the effects: the vibrato from the old phase, Tick on the pool, and the phase advanced |
| Synthesis.Synthesizer.Process | src/Synthesizer.cpp:124-163 | process is Tick under the vibrato of the old phase followed by the effects chain step, the phase advances by one increment, and the output is the chain output clamped to [-1, 1] (Stepped) |
| Synthesis.Synthesizer.PushSetting | src/Synthesizer.cpp:165-195 | an ADSR setting reaches every voice as Broadcast gives |
| Synthesis.Synthesizer.SetAttack | src/Synthesizer.cpp:165-171 | the global attack is stored and pushed to every voice |
| Synthesis.Synthesizer.SetDecay | src/Synthesizer.cpp:173-179 | the global decay is stored and pushed to every voice |
| Synthesis.Synthesizer.SetSustain | src/Synthesizer.cpp:181-187 | the global sustain is stored and pushed to every voice |
| Synthesis.Synthesizer.SetRelease | src/Synthesizer.cpp:189-195 | the global release is stored and pushed to every voice |
| Synthesis.Synthesizer.SetWaveform | src/Synthesizer.cpp:197-205 | the waveform is stored and set on every oscillator of every voice |
| Synthesis.Synthesizer.SetOscillatorCount | src/Synthesizer.cpp:207-211 | the count is stored clamped to [1, 3]; the voices are untouched |
| Synthesis.Synthesizer.SetVibratoRate | src/Synthesizer.cpp:213-216 | only the vibrato rate changes |
| Synthesis.Synthesizer.SetVibratoDepth | src/Synthesizer.cpp:218-221 | only the vibrato depth changes |
| Synthesis.Synthesizer.SetReverb | src/Synthesizer.cpp:223-226 | only the reverb mix of the effects chain changes |
| Synthesis.Synthesizer.SetDelay | src/Synthesizer.cpp:228-231 | only the delay mix of the effects chain changes |
| EffectsChain.DelayFitsBuffer | src/Effects.cpp:14-25 | a delay time within the buffer's length in seconds gives a delay in samples of at most the buffer size |
| EffectsChain.ReadIndexFor | src/Effects.cpp:21-25 | the read index lies inside the buffer |
| EffectsChain.ReadIndexIsModulo | src/Effects.cpp:21-25 | the single wrap of the read index is (write - delay) mod size |
| EffectsChain.Advance | src/Effects.cpp:34 | the write index stays inside the buffer |
| EffectsChain.AdvanceIsModulo | src/Effects.cpp:34 | the write index advances by one modulo the buffer size |
| EffectsChain.NewDelay | src/Effects.cpp:6-16 | a new delay line has a zeroed buffer, write index 0 and the delay invariant; its delay time is 0.3 s when the buffer holds that much and the buffer's length otherwise, the corrected half of Findings row 3 |
| EffectsChain.OneSecondBuffer | src/Effects.cpp:14 | with the default maximum of 1 s the buffer holds one second of samples |
| EffectsChain.DelayStep | src/Effects.cpp:18-38 | one delay call writes input + delayed·feedback at the write index and no other cell, advances the write index, and outputs input·(1-mix) + delayed·mix |
| EffectsChain.DelayStepCells | src/Effects.cpp:31 | the new buffer is the old one with just the written cell replaced |
| EffectsChain.WithDelayTime | src/Effects.cpp:40-43 | setDelayTime keeps the delay within the buffer, and on a buffer of at least 1 s it clamps to [0.001, 1] as the source does |
| EffectsChain.DelayTimeAsWritten | src/Effects.cpp:40-43 | the clamp as written keeps the delay time in [0.001, 1] |
| EffectsChain.DelayTimeClamp | src/Effects.cpp:40-43 | on a half-second buffer at 44100 Hz a 0.8 s delay is allowed and the read index comes out negative |
| EffectsChain.DefaultDelayAsWritten | src/Effects.cpp:6-16 | the constructor's unconditional 0.3 s default on a 0.1 s buffer at 44100 Hz gives 4410 cells, 13230 delay samples and read index -8820 |
| EffectsChain.WithFeedback | src/Effects.cpp:45-48 | the feedback is clamped to [0, 0.95] and nothing else changes |
| EffectsChain.WithDelayMix | src/Effects.cpp:50-53 | the delay mix is clamped to [0, 1] and nothing else changes |
| EffectsChain.RunDelay | src/Effects.cpp:18-38 | a run of delay calls yields one output per input |
| EffectsChain.EchoOfImpulse | src/Effects.cpp:18-38 | after an impulse, silent input brings it back exactly once, scaled by the mix, when the delay in samples has elapsed |
| EffectsChain.EchoStep | src/Effects.cpp:18-38 | one silent call before the echo leaves the single impulse cell in place and outputs 0; on the delay it outputs the mix |
| EffectsChain.ImpulseResponse | src/Effects.cpp:18-38 | on a zeroed buffer a unit impulse passes through at 1-mix, is silent until the delay, and returns int(delayTime·sr) calls later scaled by the mix |
| EffectsChain.NewReverb | src/Effects.cpp:56-88 | four comb and two allpass buffers of int(base·sr/44100) zeroed cells for the bases 1116, 1188, 1277, 1356 and 556, 441, with all indices at 0 |
| EffectsChain.ZeroBank | src/Effects.cpp:73-87 | each filter in a bank gets a zeroed buffer of its scaled size |
| EffectsChain.NewReverbIs | src/Effects.cpp:56-88 | a new reverb has the comb feedback 0.84 and allpass feedback 0.5, room size, damping and mix at their defaults, and a last output of 0 |
| EffectsChain.ScaledSizesPositive | src/Effects.cpp:67-87 | from 100 Hz up every filter buffer has at least one cell |
| EffectsChain.Current | src/Effects.cpp:97 | the cells under each filter's index |
| EffectsChain.WriteBank | src/Effects.cpp:98 | each filter writes exactly the cell under its own index |
| EffectsChain.AdvanceBank | src/Effects.cpp:100 | every filter index advances by one modulo its own buffer length |
| EffectsChain.CombWrites | src/Effects.cpp:98 | each comb stores input + cell·feedback·roomSize |
| EffectsChain.AllpassWrites | src/Effects.cpp:107-114 | each allpass stores its stage input + cell·0.5, the stage input being the previous allpass's output |
| EffectsChain.CombStage | src/Effects.cpp:95-104 | every comb writes one cell, advances its index and leaves the other cells alone; the stage outputs the pre-write cells summed and scaled by 0.25 |
| EffectsChain.AllpassStage | src/Effects.cpp:107-114 | every allpass writes one cell, advances its index and leaves the other cells alone; the stage output is the chain of -acc + cell |
| EffectsChain.ReverbStep | src/Effects.cpp:90-123 | the reverb runs the combs, then the allpasses, then damps against its last output, and outputs input·(1-mix) + damped·mix |
| EffectsChain.ReverbStepOf | src/Effects.cpp:90-123 | the reverb step assembled from the results of its two stages |
| EffectsChain.WithRoomSize | src/Effects.cpp:125-128 | the room size is clamped to [0, 1] and nothing else changes |
| EffectsChain.WithDamping | src/Effects.cpp:130-133 | the damping is clamped to [0, 1] and nothing else changes |
| EffectsChain.WithReverbMix | src/Effects.cpp:135-138 | the reverb mix is clamped to [0, 1] and nothing else changes |
| EffectsChain.ChainStep | src/Effects.cpp:148-157 | the chain runs the delay first and feeds its output to the reverb |
| EffectsChain.ScaledBuffers | src/Effects.cpp:73-87 | the constructor loops allocate one fresh, distinct, zeroed buffer of the scaled size per filter |
| EffectsChain.CombTap | src/Effects.cpp:97-100 | one comb reads its cell, stores input + cell·feedback·roomSize there only, and advances its index |
| EffectsChain.AllpassTap | src/Effects.cpp:109-113 | one allpass reads its cell, stores stage input + cell·feedback there only, and advances its index |
| EffectsChain.DelayEffect.constructor | src/Effects.cpp:6-16 | the fields and buffer hold NewDelay, with the default delay capped at the buffer's length |
| EffectsChain.DelayEffect.Process | src/Effects.cpp:18-38 | the fields, buffer and output are DelayStep of the old ones |
| EffectsChain.DelayEffect.SetDelayTime | src/Effects.cpp:40-43 | the fields become WithDelayTime of the old ones |
| EffectsChain.DelayEffect.SetFeedback | src/Effects.cpp:45-48 | the fields become WithFeedback of the old ones |
| EffectsChain.DelayEffect.SetMix | src/Effects.cpp:50-53 | the fields become WithDelayMix of the old ones |
| EffectsChain.ReverbEffect.Value | src/Effects.cpp:56-88 | the buffers and fields form a well-shaped reverb exactly when the class's shape predicate holds |
| EffectsChain.ReverbEffect.constructor | src/Effects.cpp:56-88 | the fields and buffers hold NewReverb |
| EffectsChain.ReverbEffect.Process | src/Effects.cpp:90-123 | the fields, buffers and output are ReverbStep of the old ones |
| EffectsChain.ReverbEffect.Damp | src/Effects.cpp:117-122 | the damping and the wet/dry mix: the last output becomes the damped signal |
| EffectsChain.ReverbEffect.ProcessCombs | src/Effects.cpp:95-104 | the comb loop performs CombStage in place |
| EffectsChain.ReverbEffect.CombLoop | src/Effects.cpp:95-102 | each comb buffer gets its one write and each index advances; the loop sums the pre-write cells |
| EffectsChain.ReverbEffect.ProcessAllpasses | src/Effects.cpp:107-114 | the allpass loop performs AllpassStage in place |
| EffectsChain.ReverbEffect.AllpassLoop | src/Effects.cpp:107-114 | each allpass buffer gets its one write and each index advances; the loop returns the chained output |
| EffectsChain.ReverbEffect.SetRoomSize | src/Effects.cpp:125-128 | the fields become WithRoomSize of the old ones |
| EffectsChain.ReverbEffect.SetDamping | src/Effects.cpp:130-133 | the fields become WithDamping of the old ones |
| EffectsChain.ReverbEffect.SetMix | src/Effects.cpp:135-138 | the fields become WithReverbMix of the old ones |
| EffectsChain.Effects.constructor | src/Effects.cpp:141-146 | a fresh delay with a 1 s maximum and a fresh reverb |
| EffectsChain.Effects.Process | src/Effects.cpp:148-157 | the chain's state and output are ChainStep of the old state |
| EffectsChain.Effects.SetReverbAmount | src/Effects.cpp:159-162 | only the reverb mix changes |
| EffectsChain.Effects.SetDelayAmount | src/Effects.cpp:164-167 | only the delay mix changes |
| EffectsChain.Effects.SetDelayTime | src/Effects.cpp:169-172 | only the delay time changes, as WithDelayTime gives |
| EffectsChain.Effects.SetDelayFeedback | src/Effects.cpp:174-177 | only the delay feedback changes, as WithFeedback gives |
| FileFormats.Uint8 | src/Recorder.cpp:247-248 | a cast to uint8_t lands in [0, 256) and keeps values already in range |
| FileFormats.Uint16 | src/Recorder.cpp:173-178 | a cast to uint16_t lands in [0, 2^16) and keeps values already in range |
| FileFormats.Uint32 | src/Recorder.cpp:184-187 | a cast to uint32_t lands in [0, 2^32) and keeps values already in range |
| FileFormats.LERoundTrip | src/Recorder.cpp:164-190 | little-endian bytes read back to the number written |
| FileFormats.ReadLERoundTrip | src/Recorder.cpp:164-190 | every byte string is the little-endian encoding of what it reads as |
| FileFormats.BERoundTrip | src/Recorder.cpp:211-219 | big-endian bytes read back to the number written |
| FileFormats.BEReversesLE | src/Recorder.cpp:212-215 | the byte swap of the MIDI writer: big-endian is little-endian reversed |
| FileFormats.Int16RoundTrip | src/Recorder.cpp:123-131 | an int16_t written as two little-endian bytes reads back, sign included |
| FileFormats.PcmSample | src/Recorder.cpp:120-125 | a converted sample lies in [-32767, 32767] |
| FileFormats.PcmSampleShape | src/Recorder.cpp:120-125 | the conversion is monotone and odd, and saturates at ±32767 outside [-1, 1] |
| FileFormats.PcmSamplesAt | src/Recorder.cpp:120-125 | sample i of the PCM data is sample i of the audio converted |
| FileFormats.SampleData | src/Recorder.cpp:127-131 | the PCM data is two bytes per sample |
| FileFormats.SampleDataRoundTrip | src/Recorder.cpp:131 | the PCM data reads back to the samples written |
| FileFormats.PcmSamplesInRange | src/Recorder.cpp:120-125 | every converted sample fits an int16_t |
| FileFormats.CutConcat | src/Recorder.cpp:164-190 | cutting a byte string by the widths of the fields it was concatenated from gives the fields back |
| FileFormats.WavFields | src/Recorder.cpp:164-190 | the WAV header is the 13 fields of the canonical 44-byte RIFF/WAVE PCM layout, at their widths |
| FileFormats.WavFieldsOk | src/Recorder.cpp:164-190 | for a rate and size that fit, the header passes every reader check (tags, sizes, PCM mono 16-bit, byte rate twice the rate) and reads back the sample rate |
| FileFormats.WavSizesRead | src/Recorder.cpp:186-187 | the RIFF size reads back as 36 + dataSize and the data size as dataSize |
| FileFormats.WavFormatRead | src/Recorder.cpp:172-185 | fmt size 16, PCM format 1, mono, sample rate, byte rate 2·sr, block align 2, 16 bits |
| FileFormats.ParseWavAccepts | src/Recorder.cpp:164-190 | the reader accepts any well-formed header followed by its data |
| FileFormats.WavRoundTrip | src/Recorder.cpp:103-135 | a non-empty recording exports to a file that reads back its sample rate and its converted samples |
| FileFormats.WavFileSize | src/Recorder.cpp:164-190 | a WAV export of N samples is exactly 44 + 2·N bytes, and its RIFF size field is the file length minus 8 |
| FileFormats.DeltaTicks | src/Recorder.cpp:230-238 | the delta byte is int(Δt·480) when that is below 128 and 0 when it is not |
| FileFormats.EventBytes | src/Recorder.cpp:230-248 | every note event takes four track bytes |
| FileFormats.TrackEvents | src/Recorder.cpp:228-251 | the events take four bytes each |
| FileFormats.TrackLayout | src/Recorder.cpp:228-251 | bytes 4i..4i+3 of the track encode event i against the previous event's time |
| FileFormats.TrackData | src/Recorder.cpp:225-257 | the track is four bytes per event plus the four end-of-track bytes |
| FileFormats.MidiFields | src/Recorder.cpp:204-262 | the file is the MThd chunk, its six header bytes, the MTrk chunk, the track length and the track, at their widths |
| FileFormats.MidiRoundTrip | src/Recorder.cpp:192-266 | the file with a big-endian header length reads back as format 0, one track, 480 ticks per quarter note and the track data |
| FileFormats.MidiHeaderLengthAsWritten | src/Recorder.cpp:205-212 | the header length is written before its byte swap, as 06 00 00 00, and a reader rejects that file |
| FileFormats.MidiFilesDifferInHeaderLength | src/Recorder.cpp:205-212 | the file as written and the corrected file have the same length and differ only in bytes 4 to 7, 06 00 00 00 against 00 00 00 06 |
| FileFormats.DigitsRoundTrip | src/Recorder.cpp:155 | a note number printed in decimal reads back |
| FileFormats.DecimalRoundTrip | src/Recorder.cpp:155 | a signed note number printed in decimal reads back |
| FileFormats.EventLines | src/Recorder.cpp:153-158 | one line per note event |
| FileFormats.Find | src/Recorder.cpp:150-158 | the first occurrence of a separator, or the length if there is none |
| FileFormats.SplitJoined | src/Recorder.cpp:150-158 | lines ended by newlines split back into the same lines |
| FileFormats.FieldsSpaced | src/Recorder.cpp:154-157 | fields joined by single spaces split back into the same fields |
| FileFormats.DecimalIsOneWord | src/Recorder.cpp:155 | a printed note number contains no space and no newline |
| FileFormats.SpacedHasNoNewline | src/Recorder.cpp:154-157 | a line built from fields without newlines has none |
| FileFormats.EventLineRoundTrip | src/Recorder.cpp:154-157 | an event line splits into the timestamp, the note, the velocity and on/off, on exactly when it is a note-on |
| FileFormats.EventLinesAt | src/Recorder.cpp:153-158 | line i is event i's line, in log order |
| FileFormats.NoteEventsTextRoundTrip | src/Recorder.cpp:142-162 | the text export is the two # lines followed by one line per event in order |
| Recording.StartKeepsClock | src/Recorder.cpp:15-21 | startRecording and clear empty the log and audio and leave the clock consistent |
| Recording.NoteEventKeepsClock | src/Recorder.cpp:44-49 | recordNoteEvent appends one event stamped with the clock only while recording, so timestamps never decrease and never pass the clock |
| Recording.AudioSampleKeepsClock | src/Recorder.cpp:51-57 | recordAudioSample appends the sample only while recording, and the clock moves on by one period and never backwards |
| Recording.Due | src/Recorder.cpp:68-77 | the events taken by the playback loop: the in-order run from the cursor with timestamps at or before the playback time, stopping at the first later one |
| Recording.PlayedBack | src/Recorder.cpp:59-86 | playback never changes the log, the audio, the recording clock or the recording flag |
| Recording.DueExactly | src/Recorder.cpp:68-77 | on a log in time order, an event from the cursor on is taken exactly when its timestamp is at or before the playback time |
| Recording.PlaybackCursor | src/Recorder.cpp:59-86 | the cursor only moves forward, never passes the end of the log, and moves over exactly the events handed out |
| Recording.PlaybackStops | src/Recorder.cpp:59-86 | a stopped recorder is left alone; a playing one advances its time by delta and stops, with an empty pending list, exactly when the log is consumed and the time is more than 2 s past the recording |
| Recording.StartPlaybackRewinds | src/Recorder.cpp:28-36 | with no events nothing happens; otherwise playback starts at time 0 from the first event with nothing pending |
| Recording.PlaybackCatchesUp | src/Recorder.cpp:68-77 | after a playback step no event due at the current time is left behind |
| Recording.NoEventLostOnStop | src/Recorder.cpp:59-86 | with steps of at most 2 s, playback stops only once every due event has been handed out |
| Recording.LongStepDropsEvents | src/Recorder.cpp:68-85 | a single step longer than 2 s takes an event and stops in the same call, clearing it before it is played |
| Recording.Recorder.constructor | src/Recorder.cpp:5-13 | a new recorder is idle, empty, with every clock and the cursor at 0 |
| Recording.Recorder.StartRecording | src/Recorder.cpp:15-21 | the fields become StartedRecording of the old ones |
| Recording.Recorder.StopRecording | src/Recorder.cpp:23-26 | only the recording flag drops |
| Recording.Recorder.StartPlayback | src/Recorder.cpp:28-36 | the fields become StartedPlayback of the old ones |
| Recording.Recorder.StopPlayback | src/Recorder.cpp:38-42 | playing stops and the pending list empties |
| Recording.Recorder.RecordNoteEvent | src/Recorder.cpp:44-49 | the fields become WithNoteEvent of the old ones, and the clock invariant holds |
| Recording.Recorder.RecordAudioSample | src/Recorder.cpp:51-57 | the fields become WithAudioSample of the old ones, and the clock invariant holds |
| Recording.Recorder.ProcessPlayback | src/Recorder.cpp:59-86 | the fields become PlayedBack of the old ones |
| Recording.Recorder.DueRun | src/Recorder.cpp:68-77 | the while loop takes exactly Due and moves the cursor by that many events |
| Recording.Recorder.Clear | src/Recorder.cpp:93-101 | the fields become Cleared of the old ones; the flags stay |
| Recording.Recorder.ExportToWav | src/Recorder.cpp:103-135 | no file without audio, and otherwise the 44-byte header followed by the PCM data |
| Recording.Recorder.ExportToMidi | src/Recorder.cpp:192-266 | the corrected MIDI file of the log, with the header length big-endian; the file the program writes is this one with bytes 4 to 7 replaced by 06 00 00 00 |
| Recording.Recorder.ExportNoteEvents | src/Recorder.cpp:142-162 | the text export of the log |
| Spectrum.Hann | src/FFTAnalyzer.cpp:16-20 | the window has one coefficient per sample |
| Spectrum.HannRange | src/FFTAnalyzer.cpp:16-20 | every Hann coefficient is in [0, 1], and the first is 0 |
| Spectrum.Framed | src/FFTAnalyzer.cpp:35-42 | the transform input is exactly fftSize samples long |
| Spectrum.FramedAt | src/FFTAnalyzer.cpp:35-42 | a short buffer is copied to the front and zero-filled; a long one contributes exactly its last fftSize samples |
| Spectrum.Windowed | src/FFTAnalyzer.cpp:77-82 | windowing keeps the length |
| Spectrum.Magnitude | src/FFTAnalyzer.cpp:91-96 | each bin's magnitude is its norm, floored at 1e-10 |
| Spectrum.Levels | src/FFTAnalyzer.cpp:90-98 | one dB level per bin |
| Spectrum.MaxOf | src/FFTAnalyzer.cpp:102 | max_element: a level of the spectrum that no other level exceeds |
| Spectrum.Normalized | src/FFTAnalyzer.cpp:101-108 | normalisation keeps the number of bins |
| Spectrum.NormalizedShape | src/FFTAnalyzer.cpp:101-108 | every bin ends in [0, 1], the loudest bin maps to 1, bins 60 dB or more below it map to 0, the rest scale linearly, and the order of levels is kept |
| Spectrum.BinFrequencies | src/FFTAnalyzer.cpp:58-70 | one frequency per spectrum bin |
| Spectrum.BinFrequenciesShape | src/FFTAnalyzer.cpp:58-70 | the bin frequencies start at 0, rise in steps of sr/fftSize, and end at the Nyquist frequency for an even size |
| Spectrum.FFTAnalyzer.constructor | src/FFTAnalyzer.cpp:5-24 | the window is the Hann window of fftSize points, windowing is on, and the spectrum has fftSize/2+1 bins |
| Spectrum.FFTAnalyzer.SetWindowFunction | src/FFTAnalyzer.cpp:72-75 | stores the window flag |
| Spectrum.FFTAnalyzer.ProcessBuffer | src/FFTAnalyzer.cpp:33-51 | the input is the framed audio, windowed only when the flag is set, and the spectrum is its normalised dB levels |
| Spectrum.FFTAnalyzer.LoadInput | src/FFTAnalyzer.cpp:35-42 | the input buffer holds Framed of the audio |
| Spectrum.FFTAnalyzer.ApplyWindow | src/FFTAnalyzer.cpp:77-82 | the input is multiplied elementwise by the window |
| Spectrum.FFTAnalyzer.ComputeFFT | src/FFTAnalyzer.cpp:84-109 | the spectrum is the normalised dB levels of the transform of the input |
| Spectrum.FFTAnalyzer.MaxElement | src/FFTAnalyzer.cpp:102 | the loop finds the maximum level |
| Spectrum.FFTAnalyzer.Normalize | src/FFTAnalyzer.cpp:101-108 | the loop rescales the spectrum in place to Normalized |
| Spectrum.FFTAnalyzer.GetBinFrequencies | src/FFTAnalyzer.cpp:58-70 | the loop returns i·sr/fftSize for every bin |
| Engine.RingWrite | src/AudioEngine.cpp:323-324 | the spectrum ring keeps its 1024 slots |
| Engine.RingWriteHolds | src/AudioEngine.cpp:308-325 | after K samples the last min(K, 1024) of them sit at their slots from the old index on, and every slot not written keeps its value |
| Engine.ReplayedChunks | src/AudioEngine.cpp:298-304 | replaying two lists of events one after the other is replaying their concatenation |
| Engine.ReplayedLast | src/AudioEngine.cpp:298-304 | replaying events applies them one at a time in order |
| Engine.ReplayedUnfold | src/AudioEngine.cpp:298-304 | the last replayed event is applied to the pool the earlier events left |
| Engine.ReplayedPrefix | src/AudioEngine.cpp:298-304 | replaying one more event of the list applies it after the earlier ones |
| Engine.ExportKindBySuffix | src/AudioEngine.cpp:257-270 | .wav goes to the WAV exporter, .mid and .midi to MIDI, and anything else, .wav.bak included, to text |
| Engine.AudioEngine.constructor | src/AudioEngine.cpp:4-13 | no synthesizer, recorder or stream, 44100 Hz, 256 frames, and a zeroed 1024-slot ring at index 0 |
| Engine.AudioEngine.Initialize | src/AudioEngine.cpp:20-68 | the rates are stored; once PortAudio starts, a synthesizer in the constructor's state at that rate and a recorder are created; success exactly when PortAudio starts, a device exists and the stream opens |
| Engine.AudioEngine.CreateParts | src/AudioEngine.cpp:33-34 | a fresh synthesizer in the constructor's state at the engine's rate (Initial: rate, period, empty pool, default parameters, vibrato, effects) and a fresh recorder at that rate |
| Engine.AudioEngine.NewParts | src/AudioEngine.cpp:33-34 | the two parts are fresh, valid and share no state, and the synthesizer is in the constructor's state at the given rate (Initial) |
| Engine.AudioEngine.Shutdown | src/AudioEngine.cpp:70-85 | afterwards nothing is running, initialised or open |
| Engine.AudioEngine.Start | src/AudioEngine.cpp:87-101 | start succeeds exactly when initialised with a stream and the stream starts, and only then sets running |
| Engine.AudioEngine.Stop | src/AudioEngine.cpp:103-109 | afterwards nothing is running |
| Engine.AudioEngine.NoteOn | src/AudioEngine.cpp:111-120 | with a synthesizer, the pool gets the noteOn with the voice built from the old global parameters, everything else of the synthesizer is unchanged, and the recorder logs a note-on; without one nothing changes |
| Engine.AudioEngine.NoteOff | src/AudioEngine.cpp:122-131 | with a synthesizer, the pool gets the noteOff, everything else of the synthesizer is unchanged, and the recorder logs a note-off with velocity 0; without one nothing changes |
| Engine.AudioEngine.ExportToFile | src/AudioEngine.cpp:257-270 | without a recorder nothing is exported; otherwise the exporter chosen by the suffix produces its file, the MIDI one related to the as-written bytes as in ExportToMidi |
| Engine.AudioEngine.GetFFTData | src/AudioEngine.cpp:272-276 | a copy of the ring in storage order |
| Engine.AudioEngine.ApplyPlayback | src/AudioEngine.cpp:293-305 | while playing, playback advances by frames/sr and the handed-out events are replayed on the pool in order under the old global parameters; the rest of the synthesizer, the log and the audio are untouched |
| Engine.AudioEngine.PlayEvents | src/AudioEngine.cpp:298-304 | the loop replays the events in order: note-on to noteOn, otherwise noteOff |
| Engine.AudioEngine.ReplayEvent | src/AudioEngine.cpp:299-303 | one replayed event is a noteOn or a noteOff on the pool, and is not logged |
| Engine.AudioEngine.Pull | src/AudioEngine.cpp:311-313 | the sample is exactly one synthesizer process step (Stepped) and lies in [-1, 1] |
| Engine.AudioEngine.NextSample | src/AudioEngine.cpp:309-320 | each sample is in [-1, 1], 0 without a synthesizer, and is appended to the recording while recording |
| Engine.AudioEngine.Emit | src/AudioEngine.cpp:315-324 | the sample goes to its output slot and the next ring slot, and the index advances by one mod 1024 |
| Engine.AudioEngine.ProcessAudio | src/AudioEngine.cpp:288-328 | the first K outputs are in [-1, 1] (0 without a synthesizer), the rest untouched; the samples go to the recording and the ring in order, and the ring index advances by K mod 1024 |
| Engine.AudioEngine.RenderBlock | src/AudioEngine.cpp:308-325 | the render loop keeps the rendered-so-far relation over all K frames |
| Engine.AudioEngine.RenderFrame | src/AudioEngine.cpp:309-324 | one frame extends the rendered-so-far relation by one sample |

## Left out

- PortAudio (`Pa_Initialize`, the default device, `Pa_OpenStream`, `Pa_StartStream`) is not
  modelled. Its outcomes are boolean parameters of `Initialize` and `Start`, and
  `audioCallback` is only the bridge to `ProcessAudio`.
- The `std::mutex` in AudioEngine is not modelled: each public call is one atomic step.
- The AudioEngine parameter setters (src/AudioEngine.cpp:133-211) and recording forwards
  (src/AudioEngine.cpp:213-255) are not separate members. Each takes the lock and calls the
  Synthesizer or Recorder method of the same name, and those methods are modelled. The same
  holds for `isRecording`, `isPlaying` and `getSampleRate`.
- `sin`, `cos`, `pow`, `log10`, `sqrt` and the FFTW plan are `Host` parameters. Spectral
  accuracy is not claimed; only the transform's bin count is assumed.
- The random generator (`std::random_device` and `mt19937`) is not modelled. Noise is the
  sequence of draws `h.noise(k)`, and the synthesizer counts how many have been taken.
- IEEE float rounding is not modelled, because every float is a real. The recording clock is
  exactly the sample count over the rate.
- The float formatting of `operator<<` in the text export is the parameter `show`. The
  round-trip lemmas assume only that it never yields a space or a newline (`Plain`).
- Opening and writing files through `ofstream` is not modelled, and neither are the console
  messages. The exporters return the bytes or text they would write, and a failed open is
  not modelled.
- `getEventsToPlay` (src/Recorder.cpp:88-91) returns a copy of `eventsToPlay`; the engine
  reads the field directly.
- `getMagnitudeSpectrum` and the FFTAnalyzer destructor are plain copies and frees.
- `cleanupCounter` (src/Synthesizer.cpp:152) and the reverb's `lastOutput`
  (src/Effects.cpp:117) are function-static in the source, so all instances share them. The
  model keeps one per instance, which agrees with the program's single synthesizer.
- The `deltaTime` parameter of `Voice::process` and the voice's `phase` field are unused in
  the source, and the model carries them without effect.
- Spectrum.FFTAnalyzer.constructor: requires fftSize ≥ 2, because the window formula divides
  by fftSize - 1.
- Synthesis.Synthesizer.constructor: requires a sample rate of at least 100 Hz, below which
  the shortest reverb buffer has no cells and the source takes an index modulo 0.
- Recording.Recorder.ProcessPlayback: no invariant bounds the cursor by the log, because
  startRecording during playback empties the log without rewinding the cursor. The cursor
  bound is proved only from a cursor inside the log (Recording.PlaybackCursor).
- Engine.AudioEngine.ProcessAudio, Engine.AudioEngine.RenderBlock, Engine.AudioEngine.RenderFrame
  and Engine.AudioEngine.NextSample: the samples are stated by range and by their effect on the
  recording and the ring, not by value. Which value each sample has, and the synthesizer state
  it leaves, is stated per call by Engine.AudioEngine.Pull and Synthesis.Synthesizer.Process
  (Stepped). Carrying that relation through the frame loop next to the ring write costs the
  solver more than the resource bound allows.
- Recording.Recorder.ExportToMidi and Engine.AudioEngine.ExportToFile: return the corrected
  MIDI file (header length 00 00 00 06), not the 06 00 00 00 the program writes on a
  little-endian host (Findings row 2). Their second ensures states the as-written bytes
  exactly as these bytes with 4 to 7 replaced.
- Synthesis.Render, Synthesis.Tick and Synthesis.VoiceTick: their own ensures state size and
  skip facts; what each voice becomes is stated by Synthesis.RenderPointwise and the
  sample bound by Synthesis.RenderWithinVelocities.

## Findings

| source | as written | input that shows it | evidently intended | confidence | as-written member | corrected member |
|---|---|---|---|---|---|---|
| src/Effects.cpp:40-43 | setDelayTime clamps the delay to [0.001, 1] s whatever the buffer holds | DelayEffect(44100, 0.5) has 22050 cells; setDelayTime(0.8) gives 35280 delay samples and read index -13230 | clamp to the buffer's maxDelayTime as well | not executed | EffectsChain.DelayTimeClamp | EffectsChain.WithDelayTime |
| src/Recorder.cpp:205-212 | the MIDI header length is written before its byte swap, so it comes out in host order | any note log on a little-endian host: the header length bytes are 06 00 00 00 | 00 00 00 06, big-endian as the Standard MIDI File header requires | not executed | FileFormats.MidiHeaderLengthAsWritten | FileFormats.MidiRoundTrip |
| src/Effects.cpp:6-16 | the constructor sets the delay to 0.3 s whatever maxDelayTime is | DelayEffect(44100, 0.1) has 4410 cells and 13230 delay samples; the first process reads index -8820 | cap the default delay at maxDelayTime | not executed | EffectsChain.DefaultDelayAsWritten | EffectsChain.NewDelay |
