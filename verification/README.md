# Sine-wave oscillator of the Synth project

This project models the oscillator at the heart of the two synthesizer scripts,
`TempTesting.py` and `synth.py`. Each script defines a `SineWaveGenerator` that
holds the following state:

- a current frequency, phase and amplitude;
- a goal frequency and a goal amplitude;
- glide rates and a sample rate.

Each call to `next_data(frames)` renders one buffer of samples in five steps:

1. It builds the buffer's time grid, starting at 0.
2. It computes a frequency trajectory and an amplitude trajectory, each an exponential glide toward its goal.
3. It integrates frequency into phase with a running sum.
4. It produces `amplitude * sin(2π * phase)`.
5. It updates the oscillator, bringing the phase back into [0, 1).

`set_pitch` moves the frequency and its goal together to a pitch given in semitones
above middle C.

The two scripts differ in three ways, and the model keeps each variant:

- **What `next_data` updates.** In `TempTesting.py`, `next_data` stores the last
  frequency and the last amplitude of the buffer as well as the phase, and it clamps
  the amplitude glide at its goal. It does not clamp the frequency glide. In
  `synth.py`, `next_data` advances only the phase, and neither glide is clamped.
- **The frequency glide rate.** `TempTesting.py` glides the frequency at a literal
  12 semitones per second. It stores `pitch_per_second` but never uses it.
  `synth.py` uses `pitch_per_second`, which its constructor always sets to 12.
- **The amplitude glide rate.** The `synth.py` constructor ignores its
  `decibels_per_second` argument and always uses 1 decibel per second.

Modules:

- `Runtime` (`runtime.dfy`) holds what the scripts borrow from Python and NumPy:
  - `2 ** x` and `np.sin`, passed in as a `Primitives` value, with only the laws
    listed in `Lawful`. These laws are: `2 ** 0 == 1`, `2 ** 1 == 2`, the power is
    positive and strictly increasing, and `sin` lies in [-1, 1].
  - `% 1` on a float (`Frac`), `np.linspace` without its end point, `np.cumsum`,
    and array-scalar arithmetic.
  - The two exceptions `next_data` can raise.
- `TempTesting` (`temp_testing.dfy`) holds the helper functions and the
  `SineWaveGenerator` class of `TempTesting.py`.
- `Synth` (`synth.dfy`) holds the helper functions and the `SineWaveGenerator`
  class of `synth.py`. Its helpers are copies of those in `TempTesting.py`, and each
  is proved to agree with its copy on every input. The sample and phase arrays of
  `next_data` are computed by the same expressions in both scripts, and `Synth`
  uses `TempTesting.SineWaveArray` and `TempTesting.PhaseArray` for them.

Fields that the scripts never reassign after construction are `const` fields in
the model: `pitchPerSecond`, `decibelsPerSecond`, `goalAmplitude` and `samplerate`.
Fields that `set_pitch` or `next_data` update are `var` fields, and each method's
`modifies` clause names exactly the fields it writes.

Two behaviours of the code are worth knowing:

- **Buffers of fewer than two frames.** `next_data` reads `time_array[1]`, so it
  raises `IndexError` for 0 or 1 frames, and `np.linspace` raises `ValueError` for
  a negative count. `NextData` returns these errors and leaves the state unchanged.
- **Glides that are not clamped.** `direction` counts a tie as "down". A tone that
  is already at its goal therefore glides below it:
  - In `TempTesting.py`, a buffer that starts at the goal frequency ends below it
    (`SteadyFrequencyDriftsDown`). The next buffer starts below the goal and so
    glides back up (`FrequencyGlideIsMonotone`). The stored frequency therefore
    hovers around the goal instead of resting on it. The clamped amplitude stays
    put (`SteadyAmplitudeHolds`).
  - In `synth.py`, the frequency and the amplitude always equal their goals, so
    every buffer glides strictly downwards from them
    (`BufferFrequencyFallsFromGoal`, `BufferAmplitudeFallsFromGoal`). The next
    buffer starts again from the unchanged state.

## Model

| member | source | states |
|---|---|---|
| TempTesting.Direction | TempTesting.py:14-16 | The result is 1 or -1, and it is 1 exactly when `end > start`, so a tie gives -1; the sign points from start toward end. |
| Synth.Direction | synth.py:16-18 | 1 exactly when `end > start`, otherwise -1 (a tie included); it agrees with `TempTesting.Direction` on every input. |
| TempTesting.BoundedByEnd | TempTesting.py:18-23 | The result is the value or `end`. It never passes `end`: it is at most `end` (and at most the value) when `start < end`, and at least `end` (and at least the value) otherwise. A value that has not reached `end` is kept. |
| TempTesting.BoundedByEndMonotone | TempTesting.py:18-23 | Clamping keeps the order of the values clamped. |
| TempTesting.BoundedByEndIdempotent | TempTesting.py:18-23 | Clamping an already clamped value changes nothing. |
| TempTesting.FramesToTime | TempTesting.py:25-27 | The time, multiplied back by the frame rate, gives the frame count. |
| Synth.FramesToTime | synth.py:35-37 | Agrees with `TempTesting.FramesToTime` on every input, so the time times the frame rate gives the frame count. |
| TempTesting.FramesToTimeArray | TempTesting.py:29-37 | The grid has exactly `frames` entries, and entry i is the time of frame `startFrame + i`. |
| Synth.FramesToTimeArray | synth.py:40-49 | The grid is the one `TempTesting.FramesToTimeArray` builds: exactly `frames` entries, entry i the time of frame `startFrame + i`, so `TempTesting.FrameTimesEvenlySpaced` (spacing `1 / framerate`, end time excluded) holds for it. |
| TempTesting.LinspaceOfFrames | TempTesting.py:32-36 | `np.linspace` from the start time to the end time, without the end point, yields the time of frame `startFrame + i` at entry i. |
| TempTesting.FrameTimesEvenlySpaced | TempTesting.py:29-37 | Consecutive entries are exactly `1 / framerate` apart. With a positive frame rate, every entry lies in [start time, end time), so the end time is excluded. |
| TempTesting.TimeGridIncreases | TempTesting.py:103 | The grid `next_data` builds starts at 0, is non-negative and strictly increases. |
| TempTesting.IntervalToFrequencyRatio | TempTesting.py:39-41 | The ratio is positive. It is 1 for an interval of 0 and 2 for an octave (12 semitones). It is above 1 for a positive interval and below 1 for a negative one. |
| Synth.IntervalToFrequencyRatio | synth.py:31-32 | Agrees with `TempTesting.IntervalToFrequencyRatio` for every interval: positive, 1 at 0, 2 at an octave, increasing. |
| TempTesting.IntervalRatioIncreasing | TempTesting.py:39-41 | A wider interval gives a strictly larger ratio. |
| TempTesting.PitchToFrequency | TempTesting.py:43-45 | The frequency is middle C times the interval ratio of the pitch, and it is positive. Pitch 0 gives 261.625565 Hz and pitch 12 gives 523.25113 Hz. |
| Synth.PitchToFrequency | synth.py:21-23 | Agrees with `TempTesting.PitchToFrequency` for every pitch; the frequency is positive and pitch 0 gives `mid_c_frequency` = 261.625565 Hz. |
| TempTesting.PitchToFrequencyIncreasing | TempTesting.py:43-45 | A higher pitch gives a strictly higher frequency. |
| TempTesting.DecibelsToAmplitudeRatio | TempTesting.py:47-49 | The ratio is positive. It is 1 for 0 dB and 2 for 10 dB. It is above 1 for a positive change and below 1 for a negative one. |
| Synth.DecibelsToAmplitudeRatio | synth.py:26-28 | Agrees with `TempTesting.DecibelsToAmplitudeRatio` for every change: positive, 1 at 0 dB, 2 at 10 dB, increasing. |
| TempTesting.DecibelsRatioIncreasing | TempTesting.py:47-49 | A larger change in decibels gives a strictly larger ratio. |
| TempTesting.DecibelsRatioMonotone | TempTesting.py:47-49 | A change in decibels at least as large gives a ratio at least as large. |
| TempTesting.SineWaveArray | TempTesting.py:116 | The buffer has one sample per phase. |
| TempTesting.SamplesWithinAmplitude | TempTesting.py:116 | No sample is louder than its own, non-negative amplitude. |
| TempTesting.SineWaveGenerator.constructor | TempTesting.py:55-64 | The frequency comes from the pitch and the amplitude from the decibels. The phase is 0, the goals equal the current values, and the rates and sample rate are stored as given. The generator is valid. |
| TempTesting.SineWaveGenerator.SetPitch | TempTesting.py:69-72 | The frequency and the goal frequency both become the frequency of the new pitch. Phase and amplitude are untouched, and the generator stays valid. |
| TempTesting.SineWaveGenerator.NewFrequencyArray | TempTesting.py:74-85 | One frequency per time, and entry i is the unclamped glide from the current frequency toward the goal, read at time i. |
| TempTesting.SineWaveGenerator.NewAmplitudeArray | TempTesting.py:88-93 | One amplitude per time, and entry i is the clamped glide from the current amplitude toward the goal at `decibelsPerSecond`, read at time i. |
| TempTesting.SineWaveGenerator.NewPhaseArray | TempTesting.py:95-97 | The loop's result is the current phase plus the running sum of frequency times frame duration. |
| TempTesting.PhaseArrayEnds | TempTesting.py:97 | The phase array has one entry per frequency. It ends at the start phase plus the sum of all the frames' cycles. |
| TempTesting.PhaseArraySteps | TempTesting.py:95-97 | The first phase is the start phase plus one frame's cycles, and consecutive phases differ by exactly `frequency[i] * deltaTime`. |
| TempTesting.PhaseArrayStep | TempTesting.py:97 | Entry i is the previous entry (the start phase for i = 0) plus `frequency[i] * deltaTime`. |
| TempTesting.SineWaveGenerator.NextData | TempTesting.py:99-127 | Negative `frames` gives `ValueError`, and 0 or 1 gives `IndexError`, with the state unchanged. Otherwise the result is the buffer of `frames` samples built from the frequency, amplitude and phase arrays. The frequency and amplitude become the last entries of their arrays, and the phase becomes `% 1` of the last phase. The goals are unchanged and the generator stays valid, so 0 <= phase < 1. |
| Runtime.Frac | TempTesting.py:123 | `x % 1` lies in [0, 1) and differs from `x` by a whole number of cycles. |
| Runtime.FracDropsWholeCycles | TempTesting.py:123 | Adding whole cycles does not change `% 1`, and a value already in [0, 1) is kept. |
| Runtime.CumSumSteps | TempTesting.py:97 | `np.cumsum` starts with the first entry, adds one entry per step and ends with the sum of the whole sequence. |
| Runtime.CumSumStep | TempTesting.py:97 | Each running-sum entry is the previous one plus the next entry. |
| TempTesting.GlideInterval | TempTesting.py:76-80 | The interval reached after `time` seconds is `12 * time` upwards when the goal is above, and `-12 * time` otherwise. |
| TempTesting.FrequencyGlideStartsAndStaysPositive | TempTesting.py:79-80 | The frequency glide is at its start at time 0 and stays positive from a positive start. |
| TempTesting.FrequencyGlideIsMonotone | TempTesting.py:74-85 | Later times give strictly higher frequencies when the goal is above, and strictly lower ones otherwise (a tie included). |
| TempTesting.FrequencyFollowsRatio | TempTesting.py:79-80 | From a positive start, a larger interval ratio gives a larger frequency. |
| TempTesting.SteadyFrequencyDriftsDown | TempTesting.py:76-85 | A tone already at its goal ends any buffer of two or more frames strictly below its goal. |
| TempTesting.GlideOffset | TempTesting.py:90-92 | The offset after `time` seconds at `rate` per second is `rate * time` upwards when the goal is above, and its negation otherwise (a tie included); the decibel change of the amplitude glide here, and both glides of `synth.py`. |
| TempTesting.GlideOffsetOrder | TempTesting.py:90-92 | With a non-negative rate and time, the change is non-negative and grows upwards, and is non-positive and shrinks downwards. |
| TempTesting.GlideOffsetStrictOrder | synth.py:82-84 | With a positive rate, the offset strictly grows with time when the goal is above and strictly shrinks otherwise. |
| TempTesting.AmplitudeGlideIsMonotone | TempTesting.py:88-93 | The clamped amplitude glide moves monotonically toward the goal as time runs from 0, and stays between its start and the goal. |
| TempTesting.AmplitudeFollowsRatio | TempTesting.py:91-93 | From a positive start, ratios in order give clamped amplitudes in order. |
| TempTesting.AmplitudeLeavesStart | TempTesting.py:91-93 | A ratio of at least 1 upwards keeps the amplitude at or above its start. A ratio of at most 1 downwards keeps it at or below its start. |
| TempTesting.AmplitudeGlideBounds | TempTesting.py:88-93 | The amplitude glide is at its start at time 0 and never passes the goal. It stays positive when start and goal are. |
| TempTesting.SteadyAmplitudeHolds | TempTesting.py:88-93 | An amplitude already at its goal stays exactly at the goal for the whole buffer. |
| Synth.FrequencyGlideStartsAndStaysPositive | synth.py:83-85 | The frequency glide is at its start at time 0 and stays positive from a positive start. |
| Synth.FrequencyGlideIsMonotone | synth.py:80-86 | With a positive rate, later times give strictly higher frequencies when the goal is above, and strictly lower ones otherwise. |
| Synth.AmplitudeGlideStartsAndStaysPositive | synth.py:91-94 | The amplitude glide is at its start at time 0 and stays positive from a positive start. |
| Synth.AmplitudeGlideIsMonotone | synth.py:88-94 | With a positive rate, later times give strictly louder amplitudes when the goal is above, and strictly quieter ones otherwise. Nothing clamps them. |
| Synth.SineWaveGenerator.constructor | synth.py:55-66 | The frequency comes from the pitch and the amplitude from the decibels, and the phase is 0. The goals equal the current values. The pitch rate is 12 and the decibel rate is 1 whatever `decibelsPerSecond` is passed. The generator is valid. |
| Synth.SineWaveGenerator.SetPitch | synth.py:75-78 | The frequency and the goal frequency both become the frequency of the new pitch. Phase and amplitude are untouched. The generator stays valid, so the frequency and the amplitude still equal their goals. |
| Synth.SineWaveGenerator.NewFrequencyArray | synth.py:80-86 | One frequency per time, and entry i is the glide toward the goal at `pitchPerSecond`, read at time i. |
| Synth.SineWaveGenerator.NewAmplitudeArray | synth.py:88-94 | One amplitude per time, and entry i is the unclamped glide toward the goal at `decibelsPerSecond`, read at time i. |
| Synth.SineWaveGenerator.NewPhaseArray | synth.py:96-98 | The loop's result is the current phase plus the running sum of frequency times frame duration. |
| Synth.SineWaveGenerator.NextData | synth.py:100-119 | Negative `frames` gives `ValueError`, and 0 or 1 gives `IndexError`, with the state unchanged. Otherwise the result is the buffer of `frames` samples. Only the phase changes, to `% 1` of the last phase, so 0 <= phase < 1. Frequency, amplitude and the goals are unchanged. |
| Synth.BufferFrequencyFallsFromGoal | synth.py:80-86 | A buffer starts at the goal frequency, each entry is strictly below the one before, and a buffer of two or more frames ends below the goal. The frequency always equals its goal, and a tie glides down. |
| Synth.BufferAmplitudeFallsFromGoal | synth.py:88-94 | A buffer starts at the goal amplitude, each entry is strictly below the one before, and a buffer of two or more frames ends below the goal. Nothing clamps it. |

## Left out

- The Tkinter window, buttons and their handlers are user interface, not logic
  (TempTesting.py:146-182, synth.py:139-297).
- The sound output is I/O on a real-time audio thread and is not modelled. This
  covers the `sounddevice` output stream, `play`, `stop` and `_callback`. In
  `synth.py`, `_callback` also uses `sys` without importing it.
- Thread safety between the control thread and the audio thread is concurrency and
  is not modelled.
- Floating-point arithmetic is not modelled. Values are mathematical reals, so
  rounding in `np.linspace`, in the running sum and in `% 1` is absent, and so are
  overflow, infinities and NaN.
- `2 ** x` and `np.sin` are not computed. They are uninterpreted functions
  constrained only by the laws in `Runtime.Lawful`, so no numeric accuracy is
  claimed.
- NumPy arrays are modelled as `seq<real>`, and broadcasting is written out
  element by element.
- TempTesting.SineWaveGenerator.constructor: requires a positive sample rate,
  because the script divides by it in every `next_data` and the audio stream it
  opens needs one. A zero rate, which the script would only reject later with
  `ZeroDivisionError`, is not modelled.
- Synth.SineWaveGenerator.constructor: requires a positive sample rate, for the
  same reason.
- The unused `pitch_per_second` field of `TempTesting.py` is stored but plays no
  part in any glide, exactly as in the script.
