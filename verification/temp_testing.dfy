/** The oscillator of TempTesting.py. In this variant `next_data` carries the last
    frequency and amplitude of each buffer over to the next one, clamps the
    amplitude glide so that it stops at its goal, and glides frequency at a fixed
    12 semitones per second whatever `pitch_per_second` holds. */
module TempTesting {
  import opened Runtime

  /** Default frames per second */
  const DEFAULT_SAMPLE_RATE: real := 44100.0

  /** Frequency of middle C, in Hz */
  const MIDDLE_C_FREQUENCY: real := 261.625565

  /** The sign of a glide from `start` to `end`: up only when `end` is above `start`;
      a tie counts as down. */
  function Direction(start: real, end: real): (d: int)
    ensures d == 1 || d == -1
    ensures d == 1 <==> start < end
    ensures 0.0 <= d as real * (end - start)
  {
    if end > start then 1 else -1
  }

  /** `np.minimum(value, end)` for a glide upwards, `np.maximum(value, end)` otherwise:
      the value is kept until it would pass `end`, and stops there. */
  function BoundedByEnd(value: real, start: real, end: real): (r: real)
    ensures r == value || r == end
    ensures start < end ==> r <= end && r <= value && (value <= end ==> r == value)
    ensures end <= start ==> end <= r && value <= r && (end <= value ==> r == value)
  {
    if start < end then (if value <= end then value else end)
    else (if end <= value then value else end)
  }

  /** Clamping keeps the order of the values clamped. */
  lemma BoundedByEndMonotone(v1: real, v2: real, start: real, end: real)
    requires v1 <= v2
    ensures BoundedByEnd(v1, start, end) <= BoundedByEnd(v2, start, end)
  {
  }

  /** Clamping twice is clamping once. */
  lemma BoundedByEndIdempotent(value: real, start: real, end: real)
    ensures BoundedByEnd(BoundedByEnd(value, start, end), start, end) == BoundedByEnd(value, start, end)
  {
  }

  /** Seconds taken by `frames` frames. */
  function FramesToTime(frames: int, framerate: real): (t: real)
    requires framerate != 0.0
    ensures t * framerate == frames as real
  {
    frames as real / framerate
  }

  /** The times of `frames` consecutive frames starting at `startFrame`, as
      `np.linspace` without its end point produces them: entry i is the time of
      frame `startFrame + i`. */
  function FramesToTimeArray(startFrame: int, frames: nat, framerate: real): (t: seq<real>)
    requires framerate != 0.0
    ensures |t| == frames
    ensures forall i :: 0 <= i < frames ==> t[i] == FramesToTime(startFrame + i, framerate)
  {
    var startTime := FramesToTime(startFrame, framerate);
    var endTime := FramesToTime(startFrame + frames, framerate);
    LinspaceOfFrames(startFrame, frames, framerate);
    Linspace(startTime, endTime, frames)
  }

  lemma LinspaceOfFrames(startFrame: int, frames: nat, framerate: real)
    requires framerate != 0.0
    ensures var t := Linspace(FramesToTime(startFrame, framerate), FramesToTime(startFrame + frames, framerate), frames);
      forall i :: 0 <= i < frames ==> t[i] == FramesToTime(startFrame + i, framerate)
  {
    var s, n, r := startFrame as real, frames as real, framerate;
    var t := Linspace(s / r, (s + n) / r, frames);
    if 0 < frames {
      var step := ((s + n) / r - s / r) / n;
      assert (s + n) / r - s / r == n / r;
      assert step == 1.0 / r;
      forall i | 0 <= i < frames
        ensures t[i] == (s + i as real) / r
      {
        assert t[i] == s / r + i as real * step;
      }
    }
  }

  /** Consecutive frame times are one frame duration apart, and with a positive
      frame rate every time lies in [start time, end time). */
  lemma FrameTimesEvenlySpaced(startFrame: int, frames: nat, framerate: real)
    requires framerate != 0.0
    ensures var t := FramesToTimeArray(startFrame, frames, framerate);
      && (forall i :: 0 < i < frames ==> t[i] - t[i - 1] == 1.0 / framerate)
      && (0.0 < framerate ==> forall i :: 0 <= i < frames ==>
            FramesToTime(startFrame, framerate) <= t[i] < FramesToTime(startFrame + frames, framerate))
  {
    var s, n, r := startFrame as real, frames as real, framerate;
    var t := FramesToTimeArray(startFrame, frames, framerate);
    forall i | 0 < i < frames
      ensures t[i] - t[i - 1] == 1.0 / r
    {
      assert (s + i as real) / r - (s + (i - 1) as real) / r == 1.0 / r;
    }
    if 0.0 < r {
      forall i | 0 <= i < frames
        ensures s / r <= t[i] < (s + n) / r
      {
        DivideKeepsOrder(s, s + i as real, r);
        DivideKeepsStrictOrder(s + i as real, s + n, r);
      }
    }
  }

  /** The frequency ratio of an interval of `interval` semitones in 12-tone equal
      temperament: an octave (12 semitones) doubles the frequency. */
  function IntervalToFrequencyRatio(m: Primitives, interval: real): (r: real)
    requires Lawful(m)
    ensures 0.0 < r
    ensures interval == 0.0 ==> r == 1.0
    ensures interval == 12.0 ==> r == 2.0
    ensures 0.0 < interval ==> 1.0 < r
    ensures interval < 0.0 ==> r < 1.0
  {
    assert Below(0.0, interval / 12.0) || Below(interval / 12.0, 0.0) || interval == 0.0;
    m.pow2(interval / 12.0)
  }

  /** A wider interval gives a larger ratio. */
  lemma IntervalRatioIncreasing(m: Primitives, a: real, b: real)
    requires Lawful(m) && a < b
    ensures IntervalToFrequencyRatio(m, a) < IntervalToFrequencyRatio(m, b)
  {
    assert Below(a / 12.0, b / 12.0);
  }

  /** The frequency of `pitch` semitones above middle C. */
  function PitchToFrequency(m: Primitives, pitch: real): (f: real)
    requires Lawful(m)
    ensures f == MIDDLE_C_FREQUENCY * IntervalToFrequencyRatio(m, pitch)
    ensures 0.0 < f
    ensures pitch == 0.0 ==> f == 261.625565
    ensures pitch == 12.0 ==> f == 523.25113
  {
    MIDDLE_C_FREQUENCY * m.pow2(pitch / 12.0)
  }

  /** A higher pitch sounds at a higher frequency. */
  lemma PitchToFrequencyIncreasing(m: Primitives, p: real, q: real)
    requires Lawful(m) && p < q
    ensures PitchToFrequency(m, p) < PitchToFrequency(m, q)
  {
    IntervalRatioIncreasing(m, p, q);
  }

  /** The amplitude ratio of a change of `decibels` decibels, in the script's own
      convention that 10 dB doubles the amplitude. */
  function DecibelsToAmplitudeRatio(m: Primitives, decibels: real): (r: real)
    requires Lawful(m)
    ensures 0.0 < r
    ensures decibels == 0.0 ==> r == 1.0
    ensures decibels == 10.0 ==> r == 2.0
    ensures 0.0 < decibels ==> 1.0 < r
    ensures decibels < 0.0 ==> r < 1.0
  {
    assert Below(0.0, decibels / 10.0) || Below(decibels / 10.0, 0.0) || decibels == 0.0;
    m.pow2(decibels / 10.0)
  }

  /** A larger change in decibels gives a larger ratio. */
  lemma DecibelsRatioIncreasing(m: Primitives, a: real, b: real)
    requires Lawful(m) && a < b
    ensures DecibelsToAmplitudeRatio(m, a) < DecibelsToAmplitudeRatio(m, b)
  {
    assert Below(a / 10.0, b / 10.0);
  }

  /** The samples of one buffer: each amplitude times the sine of its phase (in
      cycles); no sample is louder than its amplitude. */
  function SineWaveArray(m: Primitives, amplitudes: seq<real>, phases: seq<real>): (s: seq<real>)
    requires Lawful(m)
    requires |amplitudes| == |phases|
    ensures |s| == |phases|
  {
    seq(|phases|, i requires 0 <= i < |phases| => amplitudes[i] * m.sin(2.0 * PI * phases[i]))
  }

  /** No sample is louder than its amplitude. */
  lemma SamplesWithinAmplitude(m: Primitives, amplitudes: seq<real>, phases: seq<real>)
    requires Lawful(m)
    requires |amplitudes| == |phases|
    ensures var s := SineWaveArray(m, amplitudes, phases);
      forall i :: 0 <= i < |s| && 0.0 <= amplitudes[i] ==> -amplitudes[i] <= s[i] <= amplitudes[i]
  {
    var s := SineWaveArray(m, amplitudes, phases);
    forall i | 0 <= i < |s| && 0.0 <= amplitudes[i]
      ensures -amplitudes[i] <= s[i] <= amplitudes[i]
    {
      var a, y := amplitudes[i], m.sin(2.0 * PI * phases[i]);
      ScaleKeepsOrder(a, -1.0, y, -a, s[i]);
      ScaleKeepsOrder(a, y, 1.0, s[i], a);
    }
  }

  /** A continuous sine-wave source whose frequency and amplitude glide toward their
      goals from one buffer to the next. */
  class SineWaveGenerator {
    var frequency: real
    var phase: real
    var amplitude: real
    const pitchPerSecond: real
    const decibelsPerSecond: real
    var goalFrequency: real
    const goalAmplitude: real
    const samplerate: real

    /** Frequencies and amplitudes are positive, the sample rate is positive and the
        phase, in cycles, is always brought back into [0, 1). */
    ghost predicate Valid()
      reads this
    {
      && 0.0 < samplerate
      && 0.0 < frequency && 0.0 < goalFrequency
      && 0.0 < amplitude && 0.0 < goalAmplitude
      && 0.0 <= phase < 1.0
    }

    constructor (m: Primitives, pitch: real := 0.0, pitchPerSecond: real := 12.0, decibels: real := 1.0,
                 decibelsPerSecond: real := 1.0, samplerate: real := DEFAULT_SAMPLE_RATE)
      requires Lawful(m)
      requires 0.0 < samplerate
      ensures Valid()
      ensures frequency == PitchToFrequency(m, pitch) && phase == 0.0
      ensures amplitude == DecibelsToAmplitudeRatio(m, decibels)
      ensures this.pitchPerSecond == pitchPerSecond && this.decibelsPerSecond == decibelsPerSecond
      ensures goalFrequency == frequency && goalAmplitude == amplitude
      ensures this.samplerate == samplerate
    {
      var f, a := PitchToFrequency(m, pitch), DecibelsToAmplitudeRatio(m, decibels);
      frequency := f;
      phase := 0.0;
      amplitude := a;
      this.pitchPerSecond := pitchPerSecond;
      this.decibelsPerSecond := decibelsPerSecond;
      goalFrequency := f;
      goalAmplitude := a;
      this.samplerate := samplerate;
    }

    /** Jumps to `value` semitones above middle C: the frequency and its goal change
        together, nothing else does. */
    method SetPitch(m: Primitives, value: real)
      requires Lawful(m) && Valid()
      modifies this`frequency, this`goalFrequency
      ensures Valid()
      ensures frequency == goalFrequency == PitchToFrequency(m, value)
      ensures phase == old(phase) && amplitude == old(amplitude)
    {
      frequency := PitchToFrequency(m, value);
      goalFrequency := frequency;
    }

    /** The frequency at each time of the buffer: the glide from the current
        frequency toward the goal, read at that time. */
    function NewFrequencyArray(m: Primitives, timeArray: seq<real>): (f: seq<real>)
      reads this
      requires Lawful(m)
      ensures |f| == |timeArray|
      ensures forall i :: 0 <= i < |f| ==> f[i] == FrequencyGlide(m, frequency, goalFrequency, timeArray[i])
    {
      var start, goal := frequency, goalFrequency;
      seq(|timeArray|, i requires 0 <= i < |timeArray| => FrequencyGlide(m, start, goal, timeArray[i]))
    }

    /** The amplitude at each time of the buffer: the clamped glide from the
        current amplitude toward the goal at `decibelsPerSecond`, read at that
        time. */
    function NewAmplitudeArray(m: Primitives, timeArray: seq<real>): (a: seq<real>)
      reads this
      requires Lawful(m)
      ensures |a| == |timeArray|
      ensures forall i :: 0 <= i < |a| ==> a[i] == AmplitudeGlide(m, amplitude, goalAmplitude, decibelsPerSecond, timeArray[i])
    {
      var start, goal, rate := amplitude, goalAmplitude, decibelsPerSecond;
      seq(|timeArray|, i requires 0 <= i < |timeArray| => AmplitudeGlide(m, start, goal, rate, timeArray[i]))
    }

    /** The phase at each frame: the current phase plus the running sum of
        frequency times the frame duration, so that consecutive phases differ by
        exactly the cycles of one frame. */
    method NewPhaseArray(newFrequencyArray: seq<real>, deltaTime: real) returns (phases: seq<real>)
      ensures phases == PhaseArray(phase, newFrequencyArray, deltaTime)
    {
      var increments := Scaled(newFrequencyArray, deltaTime);
      var total := 0.0;
      phases := [];
      while |phases| < |increments|
        invariant |phases| <= |increments|
        invariant total == Sum(increments[..|phases|])
        invariant forall k :: 0 <= k < |phases| ==> phases[k] == phase + Sum(increments[..k + 1])
      {
        var i := |phases|;
        assert increments[..i + 1][..i] == increments[..i];
        total := total + increments[i];
        phases := phases + [phase + total];
      }
      assert increments[..|increments|] == increments;
    }

    /** Renders the next `frames` samples and advances the oscillator: the last
        frequency and amplitude of the buffer become the current ones, and the last
        phase, with its whole cycles removed, becomes the current phase. Fewer than
        two frames raise before anything changes. */
    method NextData(m: Primitives, frames: int) returns (r: Result<seq<real>>)
      requires Lawful(m) && Valid()
      modifies this`frequency, this`amplitude, this`phase
      ensures Valid()
      ensures goalFrequency == old(goalFrequency)
      ensures frames < 0 ==> r == Err(ValueError)
      ensures 0 <= frames < 2 ==> r == Err(IndexError)
      ensures frames < 2 ==> frequency == old(frequency) && amplitude == old(amplitude) && phase == old(phase)
      ensures 2 <= frames ==>
        var timeArray := FramesToTimeArray(0, frames, samplerate);
        var f := old(NewFrequencyArray(m, timeArray));
        var a := old(NewAmplitudeArray(m, timeArray));
        var p := PhaseArray(old(phase), f, 1.0 / samplerate);
        && r == Ok(SineWaveArray(m, a, p))
        && |r.value| == frames
        && frequency == f[frames - 1]
        && amplitude == a[frames - 1]
        && phase == Frac(p[frames - 1])
    {
      if frames < 0 {
        return Err(ValueError);
      }
      var timeArray := FramesToTimeArray(0, frames, samplerate);
      if frames < 2 {
        return Err(IndexError);
      }
      var deltaTime := timeArray[1] - timeArray[0];
      assert timeArray[0] == 0.0 && timeArray[1] == 1.0 / samplerate;
      assert deltaTime == 1.0 / samplerate;
      var newFrequencyArray := NewFrequencyArray(m, timeArray);
      var newPhaseArray := NewPhaseArray(newFrequencyArray, deltaTime);
      var newAmplitudeArray := NewAmplitudeArray(m, timeArray);
      var sinewaveArray := SineWaveArray(m, newAmplitudeArray, newPhaseArray);
      FrequencyGlideStartsAndStaysPositive(m, frequency, goalFrequency, timeArray[frames - 1]);
      AmplitudeGlideBounds(m, amplitude, goalAmplitude, decibelsPerSecond, timeArray[frames - 1]);
      frequency := newFrequencyArray[frames - 1];
      amplitude := newAmplitudeArray[frames - 1];
      phase := Frac(newPhaseArray[frames - 1]);
      return Ok(sinewaveArray);
    }
  }

  /** The phases of a buffer, in cycles: `phase` plus the running sum of each
      frequency times the frame duration. */
  function PhaseArray(phase: real, frequencies: seq<real>, deltaTime: real): seq<real>
  {
    Offset(CumSum(Scaled(frequencies, deltaTime)), phase)
  }

  /** The phase array has one entry per frequency and ends at the start phase plus
      the cycles of the whole buffer. */
  lemma PhaseArrayEnds(phase: real, frequencies: seq<real>, deltaTime: real)
    ensures var p := PhaseArray(phase, frequencies, deltaTime);
      && |p| == |frequencies|
      && (|p| > 0 ==> p[|p| - 1] == phase + Sum(Scaled(frequencies, deltaTime)))
  {
    CumSumSteps(Scaled(frequencies, deltaTime));
  }

  /** The phase array starts one frame's cycles after `phase` and then advances by
      exactly the cycles of each frame, so the waveform has no jump inside a
      buffer. */
  lemma PhaseArraySteps(phase: real, frequencies: seq<real>, deltaTime: real)
    ensures var p := PhaseArray(phase, frequencies, deltaTime);
      && (|p| > 0 ==> p[0] == phase + frequencies[0] * deltaTime)
      && (forall i :: 0 < i < |p| ==> p[i] - p[i - 1] == frequencies[i] * deltaTime)
  {
    var p := PhaseArray(phase, frequencies, deltaTime);
    if |p| > 0 {
      PhaseArrayStep(phase, frequencies, deltaTime, 0);
    }
    forall i | 0 < i < |p|
      ensures p[i] - p[i - 1] == frequencies[i] * deltaTime
    {
      PhaseArrayStep(phase, frequencies, deltaTime, i);
    }
  }

  lemma PhaseArrayStep(phase: real, frequencies: seq<real>, deltaTime: real, i: nat)
    requires i < |frequencies|
    ensures var p := PhaseArray(phase, frequencies, deltaTime);
      p[i] == (if i == 0 then phase else p[i - 1]) + frequencies[i] * deltaTime
  {
    var s := Scaled(frequencies, deltaTime);
    var c := CumSum(s);
    assert s[i] == frequencies[i] * deltaTime;
    if i == 0 {
      assert s[..1][..0] == [];
      assert c[0] == Sum(s[..1]) == s[0];
    } else {
      CumSumStep(s, i);
    }
  }

  /** The time grid of one buffer starts at 0 and strictly increases. */
  lemma TimeGridIncreases(frames: nat, samplerate: real)
    requires 0.0 < samplerate
    ensures var t := FramesToTimeArray(0, frames, samplerate);
      && (0 < frames ==> t[0] == 0.0)
      && (forall i :: 0 <= i < frames ==> 0.0 <= t[i])
      && (forall i, j :: 0 <= i < j < frames ==> t[i] < t[j])
  {
    var t := FramesToTimeArray(0, frames, samplerate);
    forall i | 0 <= i < frames
      ensures 0.0 <= t[i]
    {
      DivideKeepsOrder(0.0, i as real, samplerate);
    }
    forall i, j | 0 <= i < j < frames
      ensures t[i] < t[j]
    {
      DivideKeepsStrictOrder(i as real, j as real, samplerate);
    }
  }

  /** The interval, in semitones, reached `time` seconds into a frequency glide
      from `start` toward `goal`: 12 semitones per second (the literal 12 of the
      script, not `pitchPerSecond`), upwards only when the goal is above. */
  function GlideInterval(start: real, goal: real, time: real): (x: real)
    ensures start < goal ==> x == 12.0 * time
    ensures goal <= start ==> x == -12.0 * time
  {
    (Direction(start, goal) * 12) as real * time
  }

  /** The frequency `time` seconds into a glide from `start` toward `goal`, with no
      clamp at the goal. */
  function FrequencyGlide(m: Primitives, start: real, goal: real, time: real): real
    requires Lawful(m)
  {
    start * IntervalToFrequencyRatio(m, GlideInterval(start, goal, time))
  }

  /** The frequency glide starts at `start` and stays positive when `start` is. */
  lemma FrequencyGlideStartsAndStaysPositive(m: Primitives, start: real, goal: real, time: real)
    requires Lawful(m)
    ensures time == 0.0 ==> FrequencyGlide(m, start, goal, time) == start
    ensures 0.0 < start ==> 0.0 < FrequencyGlide(m, start, goal, time)
  {
    var r := IntervalToFrequencyRatio(m, GlideInterval(start, goal, time));
    if 0.0 < start {
      ScaleKeepsStrictOrder(start, 0.0, r, 0.0, FrequencyGlide(m, start, goal, time));
    }
  }

  /** Later in the glide the frequency is strictly further along: higher when the
      goal is above, lower otherwise (a tie included, since a tie counts as down). */
  lemma FrequencyGlideIsMonotone(m: Primitives, start: real, goal: real, t1: real, t2: real)
    requires Lawful(m) && 0.0 < start && t1 < t2
    ensures start < goal ==> FrequencyGlide(m, start, goal, t1) < FrequencyGlide(m, start, goal, t2)
    ensures goal <= start ==> FrequencyGlide(m, start, goal, t2) < FrequencyGlide(m, start, goal, t1)
  {
    var x1, x2 := GlideInterval(start, goal, t1), GlideInterval(start, goal, t2);
    if start < goal {
      IntervalRatioIncreasing(m, x1, x2);
      FrequencyFollowsRatio(m, start, goal, t1, t2);
    } else {
      IntervalRatioIncreasing(m, x2, x1);
      FrequencyFollowsRatio(m, start, goal, t2, t1);
    }
  }

  /** From a positive start, a larger ratio gives a larger frequency. */
  lemma FrequencyFollowsRatio(m: Primitives, start: real, goal: real, t1: real, t2: real)
    requires Lawful(m) && 0.0 < start
    requires IntervalToFrequencyRatio(m, GlideInterval(start, goal, t1)) < IntervalToFrequencyRatio(m, GlideInterval(start, goal, t2))
    ensures FrequencyGlide(m, start, goal, t1) < FrequencyGlide(m, start, goal, t2)
  {
    ScaleKeepsStrictOrder(start, IntervalToFrequencyRatio(m, GlideInterval(start, goal, t1)),
                          IntervalToFrequencyRatio(m, GlideInterval(start, goal, t2)),
                          FrequencyGlide(m, start, goal, t1), FrequencyGlide(m, start, goal, t2));
  }

  /** A tone already at its goal does not stay there: `Direction` calls a tie "down"
      and this variant keeps the unclamped end of the glide, so after a buffer of two
      or more frames the frequency is below the goal. */
  lemma SteadyFrequencyDriftsDown(m: Primitives, g: SineWaveGenerator, frames: nat)
    requires Lawful(m) && 0.0 < g.frequency && 0.0 < g.samplerate
    requires g.frequency == g.goalFrequency && 2 <= frames
    ensures g.NewFrequencyArray(m, FramesToTimeArray(0, frames, g.samplerate))[frames - 1] < g.goalFrequency
  {
    var t := FramesToTimeArray(0, frames, g.samplerate);
    TimeGridIncreases(frames, g.samplerate);
    FrequencyGlideIsMonotone(m, g.frequency, g.goalFrequency, t[0], t[frames - 1]);
  }

  /** The offset reached `time` seconds into a glide from `start` toward `goal` at
      `rate` units per second (decibels for the amplitude glide), upwards only when
      the goal is above and downwards otherwise, a tie included. */
  function GlideOffset(start: real, goal: real, rate: real, time: real): (x: real)
    ensures start < goal ==> x == rate * time
    ensures goal <= start ==> x == -(rate * time)
  {
    Direction(start, goal) as real * rate * time
  }

  /** The amplitude `time` seconds into a glide from `start` toward `goal`, clamped
      so that it never passes the goal. */
  function AmplitudeGlide(m: Primitives, start: real, goal: real, rate: real, time: real): real
    requires Lawful(m)
  {
    BoundedByEnd(start * DecibelsToAmplitudeRatio(m, GlideOffset(start, goal, rate, time)), start, goal)
  }

  /** With a non-negative rate, the amplitude glide moves monotonically toward the
      goal as time goes on from 0, and stays between its start and the goal. */
  lemma AmplitudeGlideIsMonotone(m: Primitives, start: real, goal: real, rate: real, t1: real, t2: real)
    requires Lawful(m) && 0.0 < start && 0.0 <= rate && 0.0 <= t1 <= t2
    ensures start < goal ==> AmplitudeGlide(m, start, goal, rate, t1) <= AmplitudeGlide(m, start, goal, rate, t2)
    ensures goal <= start ==> AmplitudeGlide(m, start, goal, rate, t2) <= AmplitudeGlide(m, start, goal, rate, t1)
    ensures start < goal ==> start <= AmplitudeGlide(m, start, goal, rate, t1) <= goal
    ensures goal <= start ==> goal <= AmplitudeGlide(m, start, goal, rate, t1) <= start
  {
    var x1, x2 := GlideOffset(start, goal, rate, t1), GlideOffset(start, goal, rate, t2);
    GlideOffsetOrder(start, goal, rate, t1, t2);
    AmplitudeGlideBounds(m, start, goal, rate, t1);
    if start < goal {
      DecibelsRatioMonotone(m, 0.0, x1);
      DecibelsRatioMonotone(m, x1, x2);
      AmplitudeFollowsRatio(m, start, goal, rate, t1, t2);
    } else {
      DecibelsRatioMonotone(m, x1, 0.0);
      DecibelsRatioMonotone(m, x2, x1);
      AmplitudeFollowsRatio(m, start, goal, rate, t2, t1);
    }
    AmplitudeLeavesStart(m, start, goal, rate, t1);
  }

  /** The decibel change of the glide is non-negative and grows with time when the
      goal is above, and is non-positive and shrinks otherwise. */
  lemma GlideOffsetOrder(start: real, goal: real, rate: real, t1: real, t2: real)
    requires 0.0 <= rate && 0.0 <= t1 <= t2
    ensures start < goal ==> 0.0 <= GlideOffset(start, goal, rate, t1) <= GlideOffset(start, goal, rate, t2)
    ensures goal <= start ==> GlideOffset(start, goal, rate, t2) <= GlideOffset(start, goal, rate, t1) <= 0.0
  {
    ScaleKeepsOrder(rate, 0.0, t1, 0.0, rate * t1);
    ScaleKeepsOrder(rate, t1, t2, rate * t1, rate * t2);
  }

  /** With a positive rate, the offset strictly grows with time when the goal is
      above and strictly shrinks otherwise. */
  lemma GlideOffsetStrictOrder(start: real, goal: real, rate: real, t1: real, t2: real)
    requires 0.0 < rate && t1 < t2
    ensures start < goal ==> GlideOffset(start, goal, rate, t1) < GlideOffset(start, goal, rate, t2)
    ensures goal <= start ==> GlideOffset(start, goal, rate, t2) < GlideOffset(start, goal, rate, t1)
  {
    ScaleKeepsStrictOrder(rate, t1, t2, rate * t1, rate * t2);
  }

  /** From a positive start, ratios in order give clamped amplitudes in order. */
  lemma AmplitudeFollowsRatio(m: Primitives, start: real, goal: real, rate: real, t1: real, t2: real)
    requires Lawful(m) && 0.0 < start
    requires DecibelsToAmplitudeRatio(m, GlideOffset(start, goal, rate, t1)) <= DecibelsToAmplitudeRatio(m, GlideOffset(start, goal, rate, t2))
    ensures AmplitudeGlide(m, start, goal, rate, t1) <= AmplitudeGlide(m, start, goal, rate, t2)
  {
    var r1 := DecibelsToAmplitudeRatio(m, GlideOffset(start, goal, rate, t1));
    var r2 := DecibelsToAmplitudeRatio(m, GlideOffset(start, goal, rate, t2));
    var v1, v2 := start * r1, start * r2;
    ScaleKeepsOrder(start, r1, r2, v1, v2);
    BoundedByEndMonotone(v1, v2, start, goal);
  }

  /** A ratio of at least 1 on the way up keeps the amplitude at or above its start;
      one of at most 1 on the way down keeps it at or below. */
  lemma AmplitudeLeavesStart(m: Primitives, start: real, goal: real, rate: real, time: real)
    requires Lawful(m) && 0.0 < start
    ensures start < goal && 1.0 <= DecibelsToAmplitudeRatio(m, GlideOffset(start, goal, rate, time)) ==>
      start <= AmplitudeGlide(m, start, goal, rate, time)
    ensures goal <= start && DecibelsToAmplitudeRatio(m, GlideOffset(start, goal, rate, time)) <= 1.0 ==>
      AmplitudeGlide(m, start, goal, rate, time) <= start
  {
    var r := DecibelsToAmplitudeRatio(m, GlideOffset(start, goal, rate, time));
    var v := start * r;
    if 1.0 <= r {
      ScaleKeepsOrder(start, 1.0, r, start, v);
    } else {
      ScaleKeepsOrder(start, r, 1.0, v, start);
    }
  }

  /** The amplitude glide starts at `start`, never passes the goal, and stays
      positive when the start and the goal are. */
  lemma AmplitudeGlideBounds(m: Primitives, start: real, goal: real, rate: real, time: real)
    requires Lawful(m)
    ensures time == 0.0 ==> AmplitudeGlide(m, start, goal, rate, time) == start
    ensures start < goal ==> AmplitudeGlide(m, start, goal, rate, time) <= goal
    ensures goal <= start ==> goal <= AmplitudeGlide(m, start, goal, rate, time)
    ensures 0.0 < start && 0.0 < goal ==> 0.0 < AmplitudeGlide(m, start, goal, rate, time)
  {
    var r := DecibelsToAmplitudeRatio(m, GlideOffset(start, goal, rate, time));
    if 0.0 < start {
      ScaleKeepsStrictOrder(start, 0.0, r, 0.0, start * r);
    }
  }

  lemma DecibelsRatioMonotone(m: Primitives, a: real, b: real)
    requires Lawful(m) && a <= b
    ensures DecibelsToAmplitudeRatio(m, a) <= DecibelsToAmplitudeRatio(m, b)
  {
    if a < b {
      DecibelsRatioIncreasing(m, a, b);
    }
  }

  /** An amplitude already at its goal stays exactly there for the whole buffer:
      the clamp stops the downward glide a tie starts. */
  lemma SteadyAmplitudeHolds(m: Primitives, g: SineWaveGenerator, frames: nat)
    requires Lawful(m) && 0.0 < g.amplitude && 0.0 <= g.decibelsPerSecond && 0.0 < g.samplerate
    requires g.amplitude == g.goalAmplitude
    ensures forall i :: 0 <= i < frames ==>
      g.NewAmplitudeArray(m, FramesToTimeArray(0, frames, g.samplerate))[i] == g.goalAmplitude
  {
    var t := FramesToTimeArray(0, frames, g.samplerate);
    TimeGridIncreases(frames, g.samplerate);
    forall i | 0 <= i < frames
      ensures g.NewAmplitudeArray(m, t)[i] == g.goalAmplitude
    {
      AmplitudeGlideIsMonotone(m, g.amplitude, g.goalAmplitude, g.decibelsPerSecond, t[i], t[i]);
    }
  }
}
