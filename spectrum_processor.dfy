/**
 * The relay's streaming short-time Fourier transform front end
 * (SpectrumProcessor.h / SpectrumProcessor.cpp): a circular buffer of
 * FFT_SIZE samples, a write index, a hop counter that fires one transform
 * cycle every HOP_SIZE samples, and a consume-once ready flag.
 *
 * The Hann window table and the frequency-only forward transform belong to a
 * DSP library; they are fixed at construction (`window`, `transform`) and
 * nothing spectral is assumed about them.
 */
module Stft {
  import opened SpectrumConstants

  /** The transform maps a working buffer of 2 * FFT_SIZE values to one of the same size. */
  ghost predicate KeepsWorkingSize(transform: seq<real> -> seq<real>) {
    forall x: seq<real> :: |x| == 2 * FFT_SIZE ==> |transform(x)| == 2 * FFT_SIZE
  }

  /** The slot the k-th sample written from slot `start` lands in. */
  function Slot(start: nat, k: nat): (r: nat)
    ensures r < FFT_SIZE
  {
    (start + k) % FFT_SIZE
  }

  /** The circular buffer read from slot `start` on, wrapping round: oldest sample first. */
  function Rotated(s: seq<real>, start: nat): (r: seq<real>)
    requires start < |s|
    ensures |r| == |s|
  {
    s[start..] + s[..start]
  }

  /** A frame multiplied element-wise by the window table. */
  function Windowed(frame: seq<real>, window: seq<real>): (r: seq<real>)
    requires |frame| == |window|
    ensures |r| == |frame|
    ensures forall i :: 0 <= i < |frame| ==> r[i] == frame[i] * window[i]
  {
    seq(|frame|, i requires 0 <= i < |frame| => frame[i] * window[i])
  }

  /** The first NUM_BINS transform outputs scaled by 1 / FFT_SIZE. */
  function Normalised(fftOut: seq<real>): (r: seq<real>)
    requires |fftOut| >= NUM_BINS
    ensures |r| == NUM_BINS
    ensures forall i :: 0 <= i < NUM_BINS ==> r[i] * (FFT_SIZE as real) == fftOut[i]
  {
    seq(NUM_BINS, i requires 0 <= i < NUM_BINS => fftOut[i] / (FFT_SIZE as real))
  }

  /** The circular buffer after the first `n` samples of `xs` are written one by one from slot `start`. */
  function Written(buf: seq<real>, start: nat, xs: seq<real>, n: nat): (r: seq<real>)
    requires |buf| == FFT_SIZE && start < FFT_SIZE && n <= |xs|
    ensures |r| == FFT_SIZE
  {
    if n == 0 then buf
    else Written(buf, start, xs, n - 1)[Slot(start, n - 1) := xs[n - 1]]
  }

  /** The frame a transform cycle reads once the first `n` samples of `xs` have been written from slot `start`. */
  function FrameAfter(buf: seq<real>, start: nat, xs: seq<real>, n: nat): (r: seq<real>)
    requires |buf| == FFT_SIZE && start < FFT_SIZE && n <= |xs|
    ensures |r| == FFT_SIZE
  {
    Rotated(Written(buf, start, xs, n), (start + n) % FFT_SIZE)
  }

  /** `numSamples` as a loop bound: a negative count processes nothing. */
  function Count(numSamples: int): nat {
    if numSamples < 0 then 0 else numSamples
  }

  /**
   * The part of the processor's state one sample changes: the circular
   * buffer, the write index, the hop counter, the number of transform cycles
   * run, and the frame the last of them analysed.
   */
  datatype Stream = Stream(buffer: seq<real>, index: int, counter: int, ran: nat, frame: seq<real>)

  ghost predicate StreamInRange(s: Stream) {
    |s.buffer| == FFT_SIZE && 0 <= s.index < FFT_SIZE && 0 <= s.counter < HOP_SIZE
  }

  /** One sample: store it, advance the index, count it, and run a cycle on the linearised buffer at HOP_SIZE. */
  ghost function Step(s: Stream, x: real): (r: Stream)
    requires StreamInRange(s)
    ensures StreamInRange(r)
  {
    var buffer := s.buffer[s.index := x];
    var index := (s.index + 1) % FFT_SIZE;
    if s.counter + 1 >= HOP_SIZE then Stream(buffer, index, 0, s.ran + 1, Rotated(buffer, index))
    else Stream(buffer, index, s.counter + 1, s.ran, s.frame)
  }

  /** The first `n` samples of `xs`, one `Step` at a time. */
  ghost function Run(s: Stream, xs: seq<real>, n: nat): (r: Stream)
    requires StreamInRange(s) && n <= |xs|
    ensures StreamInRange(r)
  {
    if n == 0 then s else Step(Run(s, xs, n - 1), xs[n - 1])
  }

  class SpectrumProcessor {
    /** Hann window table of FFT_SIZE entries. */
    const window: seq<real>
    /** Frequency-only forward transform, in place on the working buffer. */
    const transform: seq<real> -> seq<real>

    const inputBuffer: array<real>
    var inputBufferIndex: int
    var samplesSinceLastFFT: int
    const fftData: array<real>
    const magnitudeSpectrum: array<real>
    var spectrumReady: bool
    var currentSampleRate: real

    /** Transform cycles run since construction. */
    ghost var cycles: nat
    /** The value of `cycles` at the last `GetSpectrum` or `Prepare`. */
    ghost var consumed: nat
    /** The linearised frame the last cycle analysed. */
    ghost var lastFrame: seq<real>
    /** The upper half of the working buffer as the last cycle fed it to the transform. */
    ghost var lastUpper: seq<real>

    /** Everything but the hop counter's bound, which a cycle runs without. */
    ghost predicate Buffers()
      reads this, fftData, magnitudeSpectrum
    {
      && |window| == FFT_SIZE && KeepsWorkingSize(transform)
      && inputBuffer.Length == FFT_SIZE
      && fftData.Length == 2 * FFT_SIZE
      && magnitudeSpectrum.Length == NUM_BINS
      && inputBuffer != fftData && inputBuffer != magnitudeSpectrum && fftData != magnitudeSpectrum
      && 0 <= inputBufferIndex < FFT_SIZE
      && consumed <= cycles
      && (spectrumReady <==> consumed < cycles)
      && (cycles > 0 ==> magnitudeSpectrum[..] == Normalised(fftData[..]))
      && (cycles > 0 ==> CycleOutput(lastFrame, lastUpper))
    }

    /** The spectrum one cycle computes from `frame`, with `upper` as the working buffer's upper half. */
    ghost function SpectrumOf(frame: seq<real>, upper: seq<real>): (r: seq<real>)
      requires |window| == FFT_SIZE && KeepsWorkingSize(transform)
      requires |frame| == FFT_SIZE && |upper| == FFT_SIZE
      ensures |r| == NUM_BINS
    {
      Normalised(transform(Windowed(frame, window) + upper))
    }

    /** Once a cycle has run, the spectrum is the one computed from the last frame. */
    ghost method LastSpectrum()
      requires Buffers() && cycles > 0
      ensures magnitudeSpectrum[..] == SpectrumOf(lastFrame, lastUpper)
    {
    }

    /** The working buffer holds the transform of the windowed `frame` above `upper`. */
    ghost predicate CycleOutput(frame: seq<real>, upper: seq<real>)
      reads this, fftData
    {
      |window| == FFT_SIZE && |frame| == FFT_SIZE && |upper| == FFT_SIZE
      && fftData[..] == transform(Windowed(frame, window) + upper)
    }

    /**
     * The object invariant: fixed buffer sizes, write index in range, hop
     * counter below HOP_SIZE, and the ready flag set exactly when a cycle has
     * run since the spectrum was last read or the processor last prepared.
     */
    ghost predicate Valid()
      reads this, fftData, magnitudeSpectrum
    {
      Buffers() && 0 <= samplesSinceLastFFT < HOP_SIZE
    }

    ghost function StreamOf(): Stream
      reads this, inputBuffer
    {
      Stream(inputBuffer[..], inputBufferIndex, samplesSinceLastFFT, cycles, lastFrame)
    }

    constructor (window: seq<real>, transform: seq<real> -> seq<real>)
      requires |window| == FFT_SIZE && KeepsWorkingSize(transform)
      ensures Valid()
      ensures this.window == window && this.transform == transform
      ensures fresh(inputBuffer) && fresh(fftData) && fresh(magnitudeSpectrum)
      ensures inputBufferIndex == 0 && samplesSinceLastFFT == 0 && !spectrumReady
      ensures currentSampleRate == 44100.0
      ensures forall i :: 0 <= i < FFT_SIZE ==> inputBuffer[i] == 0.0
      ensures forall i :: 0 <= i < 2 * FFT_SIZE ==> fftData[i] == 0.0
      ensures forall i :: 0 <= i < NUM_BINS ==> magnitudeSpectrum[i] == 0.0
      ensures cycles == 0 && consumed == 0
    {
      this.window := window;
      this.transform := transform;
      inputBuffer := new real[FFT_SIZE](_ => 0.0);
      fftData := new real[2 * FFT_SIZE](_ => 0.0);
      magnitudeSpectrum := new real[NUM_BINS](_ => 0.0);
      inputBufferIndex := 0;
      samplesSinceLastFFT := 0;
      spectrumReady := false;
      currentSampleRate := 44100.0;
      cycles := 0;
      consumed := 0;
      lastFrame := [];
      lastUpper := [];
    }

    /** New sample rate: empties the buffer, restarts index and counter, and drops any unread spectrum. */
    method Prepare(sampleRate: real)
      requires Valid()
      modifies this, inputBuffer
      ensures Valid()
      ensures currentSampleRate == sampleRate
      ensures inputBufferIndex == 0 && samplesSinceLastFFT == 0 && !spectrumReady
      ensures forall i :: 0 <= i < FFT_SIZE ==> inputBuffer[i] == 0.0
      ensures unchanged(fftData) && unchanged(magnitudeSpectrum)
      ensures cycles == old(cycles) && consumed == cycles && lastFrame == old(lastFrame) && lastUpper == old(lastUpper)
    {
      currentSampleRate := sampleRate;
      inputBufferIndex := 0;
      samplesSinceLastFFT := 0;
      forall i | 0 <= i < FFT_SIZE {
        inputBuffer[i] := 0.0;
      }
      spectrumReady := false;
      consumed := cycles;
    }

    /**
     * The first half of a transform cycle: linearise the circular buffer,
     * oldest sample first, into the lower half of the working buffer and
     * multiply it by the window. The upper half is not rewritten.
     */
    method LoadFrame() returns (frame: seq<real>)
      requires Buffers()
      modifies fftData
      ensures frame == Rotated(inputBuffer[..], inputBufferIndex)
      ensures fftData[..] == Windowed(frame, window) + old(fftData[..])[FFT_SIZE..]
    {
      frame := Rotated(inputBuffer[..], inputBufferIndex);
      ghost var upper := fftData[..][FFT_SIZE..];
      var firstPartSize := FFT_SIZE - inputBufferIndex;
      forall i | 0 <= i < firstPartSize {
        fftData[i] := inputBuffer[inputBufferIndex + i];
      }
      forall i | 0 <= i < inputBufferIndex {
        fftData[firstPartSize + i] := inputBuffer[i];
      }
      assert forall i :: 0 <= i < FFT_SIZE ==> fftData[i] == frame[i];
      forall i | 0 <= i < FFT_SIZE {
        fftData[i] := fftData[i] * window[i];
      }
      ghost var windowed := Windowed(frame, window);
      assert forall i :: 0 <= i < FFT_SIZE ==> fftData[i] == windowed[i];
      assert forall i :: FFT_SIZE <= i < 2 * FFT_SIZE ==> fftData[i] == upper[i - FFT_SIZE];
      assert fftData[..] == windowed + upper;
    }

    /** The frequency-only forward transform, in place on the working buffer. */
    method Transform()
      requires fftData.Length == 2 * FFT_SIZE && KeepsWorkingSize(transform)
      modifies fftData
      ensures fftData[..] == transform(old(fftData[..]))
    {
      var spectrum := transform(fftData[..]);
      forall i | 0 <= i < 2 * FFT_SIZE {
        fftData[i] := spectrum[i];
      }
    }

    /** The first NUM_BINS transform outputs, scaled by 1 / FFT_SIZE, into the spectrum buffer. */
    method Normalise()
      requires fftData.Length == 2 * FFT_SIZE && magnitudeSpectrum.Length == NUM_BINS
      requires fftData != magnitudeSpectrum
      modifies magnitudeSpectrum
      ensures magnitudeSpectrum[..] == Normalised(fftData[..])
    {
      var i := 0;
      while i < NUM_BINS
        invariant 0 <= i <= NUM_BINS
        invariant forall j :: 0 <= j < i ==> magnitudeSpectrum[j] == fftData[j] / (FFT_SIZE as real)
      {
        magnitudeSpectrum[i] := fftData[i] / (FFT_SIZE as real);
        i := i + 1;
      }
    }

    /**
     * One transform cycle: load the windowed frame, transform the working
     * buffer in place, and keep the first NUM_BINS outputs scaled by
     * 1 / FFT_SIZE. The upper half of the working buffer goes into the
     * transform as the previous cycle left it.
     */
    method ProcessFFT()
      requires Buffers()
      modifies this, fftData, magnitudeSpectrum
      ensures Buffers()
      ensures lastFrame == Rotated(inputBuffer[..], inputBufferIndex)
      ensures lastUpper == old(fftData[..])[FFT_SIZE..]
      ensures fftData[..] == transform(Windowed(lastFrame, window) + lastUpper)
      ensures magnitudeSpectrum[..] == Normalised(fftData[..])
      ensures spectrumReady && cycles == old(cycles) + 1 && consumed == old(consumed)
      ensures inputBufferIndex == old(inputBufferIndex) && samplesSinceLastFFT == old(samplesSinceLastFFT)
      ensures currentSampleRate == old(currentSampleRate)
    {
      ghost var upper := fftData[..][FFT_SIZE..];
      var frame := LoadFrame();
      Transform();
      Normalise();
      spectrumReady := true;
      cycles := cycles + 1;
      lastFrame := frame;
      lastUpper := upper;
    }

    /**
     * One iteration of the sample loop of `Process`: store the sample at the
     * write index, advance the index, count it, and run a cycle when the hop
     * counter reaches HOP_SIZE.
     */
    method PushSample(sample: real)
      requires Valid()
      modifies this, inputBuffer, fftData, magnitudeSpectrum
      ensures Valid()
      ensures StreamOf() == Step(old(StreamOf()), sample)
      ensures consumed == old(consumed) && currentSampleRate == old(currentSampleRate)
      ensures cycles == old(cycles) ==>
                && spectrumReady == old(spectrumReady) && lastUpper == old(lastUpper)
                && unchanged(fftData) && unchanged(magnitudeSpectrum)
      ensures cycles > old(cycles) ==>
                && spectrumReady && lastUpper == old(fftData[..])[FFT_SIZE..]
                && magnitudeSpectrum[..] == SpectrumOf(lastFrame, lastUpper)
    {
      ghost var before := StreamOf();
      inputBuffer[inputBufferIndex] := sample;
      inputBufferIndex := (inputBufferIndex + 1) % FFT_SIZE;
      samplesSinceLastFFT := samplesSinceLastFFT + 1;
      ghost var after := Step(before, sample);
      assert inputBuffer[..] == after.buffer && inputBufferIndex == after.index;
      if samplesSinceLastFFT >= HOP_SIZE {
        ProcessFFT();
        samplesSinceLastFFT := 0;
      }
    }

    /**
     * Appends the first `numSamples` samples to the circular buffer and runs a
     * transform cycle each time the hop counter reaches HOP_SIZE.
     */
    method Process(inputData: seq<real>, numSamples: int)
      requires Valid()
      requires numSamples <= |inputData|
      modifies this, inputBuffer, fftData, magnitudeSpectrum
      ensures Valid()
      ensures inputBuffer[..] == Written(old(inputBuffer[..]), old(inputBufferIndex), inputData, Count(numSamples))
      ensures inputBufferIndex == (old(inputBufferIndex) + Count(numSamples)) % FFT_SIZE
      ensures samplesSinceLastFFT == (old(samplesSinceLastFFT) + Count(numSamples)) % HOP_SIZE
      ensures cycles == old(cycles) + (old(samplesSinceLastFFT) + Count(numSamples)) / HOP_SIZE
      ensures consumed == old(consumed) && currentSampleRate == old(currentSampleRate)
      ensures cycles == old(cycles) ==>
                && spectrumReady == old(spectrumReady) && lastFrame == old(lastFrame) && lastUpper == old(lastUpper)
                && unchanged(fftData) && unchanged(magnitudeSpectrum)
      ensures cycles > old(cycles) ==>
                && spectrumReady
                && magnitudeSpectrum[..] == SpectrumOf(lastFrame, lastUpper)
                && lastFrame == FrameAfter(old(inputBuffer[..]), old(inputBufferIndex), inputData,
                                           Count(numSamples) - (old(samplesSinceLastFFT) + Count(numSamples)) % HOP_SIZE)
      ensures cycles == old(cycles) + 1 ==> lastUpper == old(fftData[..])[FFT_SIZE..]
    {
      ghost var start := StreamOf();
      PushSamples(inputData, numSamples);
      RunSummary(start, inputData, Count(numSamples));
      if cycles > old(cycles) {
        LastSpectrum();
      }
    }

    /** The sample loop of `Process`: one `Step` per sample, for the first `numSamples` samples. */
    method PushSamples(inputData: seq<real>, numSamples: int)
      requires Valid()
      requires numSamples <= |inputData|
      modifies this, inputBuffer, fftData, magnitudeSpectrum
      ensures Valid()
      ensures StreamOf() == Run(old(StreamOf()), inputData, Count(numSamples))
      ensures consumed == old(consumed) && currentSampleRate == old(currentSampleRate)
      ensures cycles == old(cycles) ==>
                && spectrumReady == old(spectrumReady) && lastUpper == old(lastUpper)
                && unchanged(fftData) && unchanged(magnitudeSpectrum)
      ensures cycles > old(cycles) ==> spectrumReady
      ensures cycles == old(cycles) + 1 ==> lastUpper == old(fftData[..])[FFT_SIZE..]
    {
      ghost var start := StreamOf();
      var i := 0;
      while i < numSamples
        invariant 0 <= i <= Count(numSamples)
        invariant Valid()
        invariant StreamOf() == Run(start, inputData, i)
        invariant consumed == old(consumed) && currentSampleRate == old(currentSampleRate)
        invariant cycles >= start.ran
        invariant cycles == start.ran ==>
                    && spectrumReady == old(spectrumReady) && lastUpper == old(lastUpper)
                    && unchanged(fftData) && unchanged(magnitudeSpectrum)
        invariant cycles > start.ran ==> spectrumReady
        invariant cycles == start.ran + 1 ==> lastUpper == old(fftData[..])[FFT_SIZE..]
      {
        PushSample(inputData[i]);
        i := i + 1;
      }
    }

    /** Whether a transform cycle has run since the spectrum was last read or the processor prepared. */
    method IsSpectrumReady() returns (ready: bool)
      requires Valid()
      ensures ready <==> consumed < cycles
    {
      ready := spectrumReady;
    }

    /** Copies out the magnitude spectrum and clears the ready flag. */
    method GetSpectrum() returns (output: seq<real>)
      requires Valid()
      modifies this`spectrumReady, this`consumed
      ensures Valid()
      ensures output == magnitudeSpectrum[..] && |output| == NUM_BINS
      ensures !spectrumReady && consumed == cycles
    {
      output := magnitudeSpectrum[..];
      spectrumReady := false;
      consumed := cycles;
    }

    /** The rate of the last `Prepare`, 44100 before any. */
    function GetSampleRate(): (rate: real)
      reads this
      ensures rate == currentSampleRate
    {
      currentSampleRate
    }
  }

  /** After n samples the write index has moved on n slots. */
  lemma {:induction false} RunIndex(s0: Stream, xs: seq<real>, n: nat)
    requires StreamInRange(s0) && n <= |xs|
    ensures Run(s0, xs, n).index == (s0.index + n) % FFT_SIZE
  {
    if n == 0 {
      SmallResidues(s0.index, s0.counter);
    } else {
      RunIndex(s0, xs, n - 1);
      IndexStep(s0.index + (n - 1));
    }
  }

  /** After n samples the counter and the cycles run are the remainder and quotient of `counter + n` by HOP_SIZE. */
  lemma {:induction false} RunCounter(s0: Stream, xs: seq<real>, n: nat)
    requires StreamInRange(s0) && n <= |xs|
    ensures Run(s0, xs, n).counter == (s0.counter + n) % HOP_SIZE
    ensures Run(s0, xs, n).ran == s0.ran + (s0.counter + n) / HOP_SIZE
  {
    if n == 0 {
      SmallResidues(s0.index, s0.counter);
    } else {
      RunCounter(s0, xs, n - 1);
      if Run(s0, xs, n - 1).counter + 1 >= HOP_SIZE {
        HopWraps(s0.counter + (n - 1));
      } else {
        HopCounts(s0.counter + (n - 1));
      }
    }
  }

  /** After n samples the buffer holds them written from the start index. */
  lemma {:induction false} RunBuffer(s0: Stream, xs: seq<real>, n: nat)
    requires StreamInRange(s0) && n <= |xs|
    ensures Run(s0, xs, n).buffer == Written(s0.buffer, s0.index, xs, n)
  {
    if n > 0 {
      RunBuffer(s0, xs, n - 1);
      RunIndex(s0, xs, n - 1);
    }
  }

  /** Everything `Run` leaves behind, in closed form. */
  lemma RunSummary(s0: Stream, xs: seq<real>, n: nat)
    requires StreamInRange(s0) && n <= |xs|
    ensures Run(s0, xs, n).buffer == Written(s0.buffer, s0.index, xs, n)
    ensures Run(s0, xs, n).index == (s0.index + n) % FFT_SIZE
    ensures Run(s0, xs, n).counter == (s0.counter + n) % HOP_SIZE
    ensures Run(s0, xs, n).ran == s0.ran + (s0.counter + n) / HOP_SIZE
    ensures Run(s0, xs, n).ran == s0.ran ==> Run(s0, xs, n).frame == s0.frame
    ensures Run(s0, xs, n).ran > s0.ran ==>
              Run(s0, xs, n).frame == FrameAfter(s0.buffer, s0.index, xs, n - (s0.counter + n) % HOP_SIZE)
  {
    RunIndex(s0, xs, n);
    RunCounter(s0, xs, n);
    RunBuffer(s0, xs, n);
    RunFrame(s0, xs, n);
  }

  /**
   * The frame `Run` leaves behind: unchanged when no cycle ran, otherwise the
   * linearised buffer after the sample that last brought the counter to
   * HOP_SIZE, which is `counter` samples before the end.
   */
  lemma {:induction false} RunFrame(s0: Stream, xs: seq<real>, n: nat)
    requires StreamInRange(s0) && n <= |xs|
    ensures Run(s0, xs, n).ran >= s0.ran
    ensures Run(s0, xs, n).ran == s0.ran ==> Run(s0, xs, n).frame == s0.frame
    ensures Run(s0, xs, n).ran > s0.ran ==>
              && Run(s0, xs, n).counter <= n
              && Run(s0, xs, n).frame == FrameAfter(s0.buffer, s0.index, xs, n - Run(s0, xs, n).counter)
  {
    if n > 0 {
      RunFrame(s0, xs, n - 1);
      if Run(s0, xs, n - 1).counter + 1 >= HOP_SIZE {
        RunFrameWraps(s0, xs, n);
      }
    }
  }

  /** A sample that completes a hop makes the frame the buffer written so far, and resets the counter. */
  lemma RunFrameWraps(s0: Stream, xs: seq<real>, n: nat)
    requires StreamInRange(s0) && 0 < n <= |xs|
    requires Run(s0, xs, n - 1).counter + 1 >= HOP_SIZE
    ensures Run(s0, xs, n).counter == 0
    ensures Run(s0, xs, n).frame == FrameAfter(s0.buffer, s0.index, xs, n)
  {
    var p := Run(s0, xs, n - 1);
    RunBuffer(s0, xs, n - 1);
    RunIndex(s0, xs, n - 1);
    StepWrapFrame(s0.buffer, s0.index, xs, n, p);
  }

  /** A sample that completes a hop makes the frame the whole buffer so far, read from the next slot. */
  lemma StepWrapFrame(buf: seq<real>, start: nat, xs: seq<real>, n: nat, p: Stream)
    requires |buf| == FFT_SIZE && start < FFT_SIZE && 0 < n <= |xs|
    requires StreamInRange(p) && p.counter + 1 >= HOP_SIZE
    requires p.buffer == Written(buf, start, xs, n - 1)
    requires p.index == (start + (n - 1)) % FFT_SIZE
    ensures Step(p, xs[n - 1]).frame == FrameAfter(buf, start, xs, n)
  {
    var w := Written(buf, start, xs, n);
    assert w == p.buffer[p.index := xs[n - 1]];
    var k := (p.index + 1) % FFT_SIZE;
    assert k == (start + n) % FFT_SIZE by { IndexStep(start + (n - 1)); }
    assert Step(p, xs[n - 1]).frame == Rotated(w, k);
  }

  /** An index and a counter already in range are their own residues. */
  lemma SmallResidues(index: int, counter: int)
    requires 0 <= index < FFT_SIZE && 0 <= counter < HOP_SIZE
    ensures index % FFT_SIZE == index
    ensures counter % HOP_SIZE == counter && counter / HOP_SIZE == 0
  {
  }

  /** Advancing the write index by one, modulo FFT_SIZE. */
  lemma IndexStep(a: nat)
    ensures (a % FFT_SIZE + 1) % FFT_SIZE == (a + 1) % FFT_SIZE
  {
    var q := a / FFT_SIZE;
    assert a == FFT_SIZE * q + a % FFT_SIZE;
  }

  /** The hop counter reaching HOP_SIZE wraps to 0, and one more cycle is due. */
  lemma HopWraps(a: nat)
    requires a % HOP_SIZE + 1 == HOP_SIZE
    ensures (a + 1) % HOP_SIZE == 0 && (a + 1) / HOP_SIZE == a / HOP_SIZE + 1
  {
    assert HOP_SIZE == 512;
    assert a == 512 * (a / 512) + a % 512;
    assert a + 1 == 512 * (a / 512 + 1);
  }

  /** Below HOP_SIZE the hop counter just counts, and no cycle is due. */
  lemma HopCounts(a: nat)
    requires a % HOP_SIZE + 1 < HOP_SIZE
    ensures (a + 1) % HOP_SIZE == a % HOP_SIZE + 1 && (a + 1) / HOP_SIZE == a / HOP_SIZE
  {
    assert HOP_SIZE == 512;
    assert a == 512 * (a / 512) + a % 512;
    assert a + 1 == 512 * (a / 512) + (a % 512 + 1);
  }

  /** When n samples complete a hop, the last completed hop falls within those n samples. */
  lemma LastHopWithin(counter: int, n: nat)
    requires 0 <= counter < HOP_SIZE
    ensures (counter + n) / HOP_SIZE > 0 ==> (counter + n) % HOP_SIZE <= n
  {
    assert HOP_SIZE == 512;
    var q := (counter + n) / 512;
    assert counter + n == 512 * q + (counter + n) % 512;
  }

  /** Two sample positions closer than FFT_SIZE land in different slots. */
  lemma SlotsDistinct(start: nat, a: nat, b: nat)
    requires a < b < a + FFT_SIZE
    ensures Slot(start, a) != Slot(start, b)
  {
    var x, y := start + a, start + b;
    var d := y / FFT_SIZE - x / FFT_SIZE;
    assert x == FFT_SIZE * (x / FFT_SIZE) + x % FFT_SIZE;
    assert y == FFT_SIZE * (y / FFT_SIZE) + y % FFT_SIZE;
    assert y - x == FFT_SIZE * d + (y % FFT_SIZE - x % FFT_SIZE);
  }

  /** Reading the rotated buffer at position `i` reads slot `Slot(start, i)`. */
  lemma RotatedSlot(s: seq<real>, start: nat, i: nat)
    requires |s| == FFT_SIZE && start < FFT_SIZE && i < FFT_SIZE
    ensures Rotated(s, start)[i] == s[Slot(start, i)]
  {
    if start + i < FFT_SIZE {
      assert Slot(start, i) == start + i;
    } else {
      assert Slot(start, i) == i - (FFT_SIZE - start);
    }
  }

  /**
   * Where the samples land: each of the last FFT_SIZE samples occupies its
   * own slot `(start + k) mod FFT_SIZE` (a later sample overwrites an earlier
   * one in the same slot), and while fewer than FFT_SIZE samples have been
   * written the slots not yet reached keep their old values.
   */
  lemma {:induction false} WrittenAt(buf: seq<real>, start: nat, xs: seq<real>, n: nat)
    requires |buf| == FFT_SIZE && start < FFT_SIZE && n <= |xs|
    ensures forall k :: 0 <= k < n && n <= k + FFT_SIZE ==>
              Written(buf, start, xs, n)[Slot(start, k)] == xs[k]
    ensures forall j: nat :: n <= j < FFT_SIZE ==>
              Written(buf, start, xs, n)[Slot(start, j)] == buf[Slot(start, j)]
  {
    if n > 0 {
      WrittenAt(buf, start, xs, n - 1);
      forall k | 0 <= k < n && n <= k + FFT_SIZE
        ensures Written(buf, start, xs, n)[Slot(start, k)] == xs[k]
      {
        if k < n - 1 {
          SlotsDistinct(start, k, n - 1);
        }
      }
      forall j: nat | n <= j < FFT_SIZE
        ensures Written(buf, start, xs, n)[Slot(start, j)] == buf[Slot(start, j)]
      {
        SlotsDistinct(start, n - 1, j);
      }
    }
  }

  /** The buffer depends only on the samples written, not on what follows them. */
  lemma {:induction false} WrittenAgrees(buf: seq<real>, start: nat, xs: seq<real>, ys: seq<real>, n: nat)
    requires |buf| == FFT_SIZE && start < FFT_SIZE && n <= |xs| && n <= |ys|
    requires xs[..n] == ys[..n]
    ensures Written(buf, start, xs, n) == Written(buf, start, ys, n)
  {
    if n > 0 {
      assert xs[..n - 1] == xs[..n][..n - 1] && ys[..n - 1] == ys[..n][..n - 1];
      WrittenAgrees(buf, start, xs, ys, n - 1);
      assert xs[n - 1] == xs[..n][n - 1] && ys[n - 1] == ys[..n][n - 1];
    }
  }

  /** Two sample sequences that agree on their first n samples write the same buffer and frames up to n. */
  lemma SamePrefixSameFrame(buf: seq<real>, start: nat, xs: seq<real>, ys: seq<real>, n: nat, m: nat)
    requires |buf| == FFT_SIZE && start < FFT_SIZE && m <= n <= |xs| && n <= |ys|
    requires xs[..n] == ys[..n]
    ensures Written(buf, start, xs, n) == Written(buf, start, ys, n)
    ensures FrameAfter(buf, start, xs, m) == FrameAfter(buf, start, ys, m)
  {
    WrittenAgrees(buf, start, xs, ys, n);
    assert xs[..m] == xs[..n][..m] && ys[..m] == ys[..n][..m];
    WrittenAgrees(buf, start, xs, ys, m);
  }

  /**
   * Once at least FFT_SIZE samples have been written, a cycle analyses
   * exactly the last FFT_SIZE of them, oldest first.
   */
  lemma LatestFrame(buf: seq<real>, start: nat, xs: seq<real>, n: nat)
    requires |buf| == FFT_SIZE && start < FFT_SIZE && FFT_SIZE <= n <= |xs|
    ensures FrameAfter(buf, start, xs, n) == xs[n - FFT_SIZE..n]
  {
    var w := Written(buf, start, xs, n);
    WrittenAt(buf, start, xs, n);
    var r := FrameAfter(buf, start, xs, n);
    forall i | 0 <= i < FFT_SIZE
      ensures r[i] == xs[n - FFT_SIZE + i]
    {
      LatestSlot(w, start, n, i);
    }
  }

  /** Position `i` of the frame after `n` samples reads the slot of sample `n - FFT_SIZE + i`. */
  lemma LatestSlot(w: seq<real>, start: nat, n: nat, i: nat)
    requires |w| == FFT_SIZE && start < FFT_SIZE && FFT_SIZE <= n && i < FFT_SIZE
    ensures Rotated(w, (start + n) % FFT_SIZE)[i] == w[Slot(start, n - FFT_SIZE + i)]
  {
    RotatedSlot(w, (start + n) % FFT_SIZE, i);
    ModShift(start + n, i, start + (n - FFT_SIZE + i));
  }

  /**
   * While fewer than FFT_SIZE samples have been written since `Prepare`, a
   * cycle analyses zeros followed by every sample so far, oldest first.
   */
  lemma EarlyFrame(xs: seq<real>, n: nat)
    requires n < FFT_SIZE && n <= |xs|
    ensures FrameAfter(seq(FFT_SIZE, _ => 0.0), 0, xs, n) == seq(FFT_SIZE - n, _ => 0.0) + xs[..n]
  {
    var zeros := seq(FFT_SIZE, _ => 0.0);
    var w := Written(zeros, 0, xs, n);
    WrittenAt(zeros, 0, xs, n);
    var r := FrameAfter(zeros, 0, xs, n);
    var expected := seq(FFT_SIZE - n, _ => 0.0) + xs[..n];
    forall i | 0 <= i < FFT_SIZE
      ensures r[i] == expected[i]
    {
      EarlySlot(w, n, i);
      if FFT_SIZE - n <= i {
        assert expected[i] == xs[i - (FFT_SIZE - n)];
      }
    }
  }

  /** Position `i` of the buffer read from slot `n`: untouched slots first, then the samples from slot 0. */
  lemma EarlySlot(w: seq<real>, n: nat, i: nat)
    requires |w| == FFT_SIZE && n < FFT_SIZE && i < FFT_SIZE
    ensures i < FFT_SIZE - n ==> Rotated(w, n)[i] == w[Slot(0, n + i)]
    ensures FFT_SIZE - n <= i ==> Rotated(w, n)[i] == w[Slot(0, i - (FFT_SIZE - n))]
  {
    RotatedSlot(w, n, i);
    if i < FFT_SIZE - n {
      assert Slot(n, i) == Slot(0, n + i);
    } else {
      assert Slot(n, i) == Slot(0, i - (FFT_SIZE - n));
    }
  }

  /** Going `i` slots on from the residue of `a` reaches the residue of `b` when `b` is `a + i` less one lap. */
  lemma ModShift(a: nat, i: nat, b: nat)
    requires i < FFT_SIZE && b + FFT_SIZE == a + i
    ensures (a % FFT_SIZE + i) % FFT_SIZE == b % FFT_SIZE
  {
    var q, r := a / FFT_SIZE, a % FFT_SIZE;
    assert a == FFT_SIZE * q + r;
    assert r + i == b - FFT_SIZE * (q - 1);
    ShiftByMultiple(b, q - 1);
  }

  lemma ShiftByMultiple(b: int, m: int)
    requires b - FFT_SIZE * m >= 0 && b >= 0
    ensures (b - FFT_SIZE * m) % FFT_SIZE == b % FFT_SIZE
  {
    var q, r := b / FFT_SIZE, b % FFT_SIZE;
    assert b - FFT_SIZE * m == FFT_SIZE * (q - m) + r;
  }
}
