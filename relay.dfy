/**
 * The relay plugin (SpectrumAnalyzerRelay, PluginProcessor.cpp): per-instance
 * configuration (track id, names, relay switch, port), the two outgoing
 * message layouts, state restore with its defaults and legacy migration, and
 * the audio-block gate in front of the STFT front end.
 *
 * Sending is modelled by appending to `sent`; whether the UDP socket
 * connects is a parameter; a fresh UUID is a parameter; the effective track
 * name that both senders put first is a parameter, because
 * `getEffectiveTrackName` is not part of this model.
 */
module Relay {
  import opened SpectrumConstants
  import opened Osc
  import opened Wrappers
  import Receiver
  import Stft

  /** "Track " followed by the first eight characters of the id (fewer when the id is shorter). */
  function DefaultTrackName(trackId: string): (name: string)
    ensures |name| == 6 + (if |trackId| < 8 then |trackId| else 8)
    ensures name[..6] == "Track " && name[6..] <= trackId
  {
    "Track " + (if |trackId| < 8 then trackId else trackId[..8])
  }

  /** Heartbeat: heartbeat prefix followed by the track id; payload the effective name and the sample rate. */
  function HeartbeatMessage(trackId: string, name: string, sampleRate: real): (m: Message)
    ensures StartsWith(m.address, OSC_HEARTBEAT_PREFIX) && m.address[|OSC_HEARTBEAT_PREFIX|..] == trackId
    ensures |m.args| == 2 && m.args[0] == Str(name) && m.args[1] == F32(sampleRate)
  {
    Receiver.PrefixedAddress(OSC_HEARTBEAT_PREFIX, trackId);
    Message(OSC_HEARTBEAT_PREFIX + trackId, [Str(name), F32(sampleRate)])
  }

  /**
   * Spectrum message: spectrum prefix followed by the track id; payload the
   * effective name, FFT_SIZE and the sample rate, then every bin in order.
   */
  function SpectrumMessage(trackId: string, name: string, sampleRate: real, spectrum: seq<real>): (m: Message)
    requires |spectrum| == NUM_BINS
    ensures StartsWith(m.address, OSC_ADDRESS_PREFIX) && m.address[|OSC_ADDRESS_PREFIX|..] == trackId
    ensures |m.args| == NUM_BINS + 3
    ensures m.args[0] == Str(name) && m.args[1] == F32(FFT_SIZE as real) && m.args[2] == F32(sampleRate)
    ensures forall i :: 0 <= i < NUM_BINS ==> m.args[i + 3] == F32(spectrum[i])
  {
    Receiver.PrefixedAddress(OSC_ADDRESS_PREFIX, trackId);
    Message(OSC_ADDRESS_PREFIX + trackId, [Str(name)] + ([F32(FFT_SIZE as real), F32(sampleRate)] + Floats(spectrum)))
  }

  /** The spectrum message as the sender assembles it: three header arguments, then one float per bin. */
  method BuildSpectrumMessage(trackId: string, name: string, sampleRate: real, spectrum: seq<real>)
    returns (message: Message)
    requires |spectrum| == NUM_BINS
    ensures message == SpectrumMessage(trackId, name, sampleRate, spectrum)
  {
    var header := [Str(name), F32(FFT_SIZE as real), F32(sampleRate)];
    var args := header;
    var i := 0;
    while i < NUM_BINS
      invariant 0 <= i <= NUM_BINS
      invariant args == header + Floats(spectrum[..i])
    {
      assert Floats(spectrum[..i + 1]) == Floats(spectrum[..i]) + [F32(spectrum[i])];
      args := args + [F32(spectrum[i])];
      i := i + 1;
    }
    assert spectrum[..NUM_BINS] == spectrum;
    var payload := [F32(FFT_SIZE as real), F32(sampleRate)] + Floats(spectrum);
    assert args == [Str(name)] + payload by {
      assert header == [Str(name)] + [F32(FFT_SIZE as real), F32(sampleRate)];
    }
    message := Message(OSC_ADDRESS_PREFIX + trackId, args);
  }

  /** Stereo input averaged sample by sample. */
  function MonoMix(left: seq<real>, right: seq<real>, n: nat): (mono: seq<real>)
    requires |left| >= n && |right| >= n
    ensures |mono| == n
    ensures forall i :: 0 <= i < n ==> mono[i] == (left[i] + right[i]) * 0.5
  {
    seq(n, i requires 0 <= i < n => (left[i] + right[i]) * 0.5)
  }

  /** The averaging loop of the audio callback. */
  method MixToMono(left: seq<real>, right: seq<real>, n: nat) returns (mono: seq<real>)
    requires |left| >= n && |right| >= n
    ensures mono == MonoMix(left, right, n)
  {
    mono := seq(n, _ => 0.0);
    var i := 0;
    while i < n
      invariant 0 <= i <= n && |mono| == n
      invariant forall j :: 0 <= j < i ==> mono[j] == (left[j] + right[j]) * 0.5
    {
      mono := mono[i := (left[i] + right[i]) * 0.5];
      i := i + 1;
    }
  }

  /** The samples the analyser receives from one audio block: the single channel, or the average of the first two. */
  function AnalysedSignal(input: seq<seq<real>>, numSamples: nat): (signal: seq<real>)
    requires |input| > 0
    requires forall k :: 0 <= k < |input| ==> |input[k]| >= numSamples
    ensures |signal| == numSamples
    ensures |input| == 1 ==> forall i :: 0 <= i < numSamples ==> signal[i] == input[0][i]
    ensures |input| >= 2 ==> forall i :: 0 <= i < numSamples ==> signal[i] == (input[0][i] + input[1][i]) * 0.5
  {
    if |input| == 1 then input[0][..numSamples] else MonoMix(input[0], input[1], numSamples)
  }

  /** A stereo block whose two channels are equal is analysed exactly as the mono block of that channel. */
  lemma EqualChannelsAnalysedAsMono(x: seq<real>, n: nat)
    requires |x| >= n
    ensures AnalysedSignal([x, x], n) == AnalysedSignal([x], n)
  {
    var stereo, mono := AnalysedSignal([x, x], n), AnalysedSignal([x], n);
    forall i | 0 <= i < n
      ensures stereo[i] == mono[i]
    {
      assert stereo[i] == (x[i] + x[i]) * 0.5;
    }
  }

  /** The persisted configuration of one relay instance. */
  datatype Settings = Settings(
    trackId: string,
    dawTrackName: string,
    customTrackName: string,
    useCustomTrackName: bool,
    relayEnabled: bool,
    oscPort: int)

  /**
   * The attributes of a stored state, each possibly absent. `trackName` is
   * the single name that states written by older versions carry.
   */
  datatype StoredState = StoredState(
    trackId: Option<string>,
    trackName: Option<string>,
    dawTrackName: Option<string>,
    customTrackName: Option<string>,
    useCustomTrackName: Option<bool>,
    relayEnabled: Option<bool>,
    oscPort: Option<int>)

  /** An attribute's value, or the default when it is absent. */
  function Attribute<T>(a: Option<T>, default: T): T {
    if a.Some? then a.value else default
  }

  /**
   * The configuration a stored state restores to: an empty or missing id is
   * replaced by a fresh one; a non-empty legacy name becomes both names;
   * otherwise each name falls back to the default name of the restored id;
   * the flags and the port fall back to false, true and DEFAULT_OSC_PORT. The
   * port is taken as stored, without the range check of `SetOscPort`.
   */
  function Restored(stored: StoredState, freshId: string): (s: Settings)
    ensures Attribute(stored.trackId, "") != "" ==> s.trackId == stored.trackId.value
    ensures Attribute(stored.trackId, "") == "" ==> s.trackId == freshId
    ensures Attribute(stored.trackName, "") != "" ==>
              s.dawTrackName == stored.trackName.value && s.customTrackName == stored.trackName.value
    ensures Attribute(stored.trackName, "") == "" ==>
              && s.dawTrackName == Attribute(stored.dawTrackName, DefaultTrackName(s.trackId))
              && s.customTrackName == Attribute(stored.customTrackName, DefaultTrackName(s.trackId))
    ensures s.useCustomTrackName == Attribute(stored.useCustomTrackName, false)
    ensures s.relayEnabled == Attribute(stored.relayEnabled, true)
    ensures s.oscPort == Attribute(stored.oscPort, DEFAULT_OSC_PORT)
  {
    var id := if Attribute(stored.trackId, "") == "" then freshId else stored.trackId.value;
    var legacy := Attribute(stored.trackName, "");
    Settings(
      id,
      if legacy != "" then legacy else Attribute(stored.dawTrackName, DefaultTrackName(id)),
      if legacy != "" then legacy else Attribute(stored.customTrackName, DefaultTrackName(id)),
      Attribute(stored.useCustomTrackName, false),
      Attribute(stored.relayEnabled, true),
      Attribute(stored.oscPort, DEFAULT_OSC_PORT))
  }

  /** The configuration of a freshly constructed relay with id `freshId`. */
  function InitialSettings(freshId: string): (s: Settings)
    ensures s.trackId == freshId && s.relayEnabled && !s.useCustomTrackName
    ensures s.dawTrackName == s.customTrackName == DefaultTrackName(freshId)
    ensures s.oscPort == DEFAULT_OSC_PORT
  {
    Settings(freshId, DefaultTrackName(freshId), DefaultTrackName(freshId), false, true, DEFAULT_OSC_PORT)
  }

  /** The port check of `SetOscPort`: a different port in 1..65535. */
  predicate PortChangeAccepted(current: int, port: int) {
    port != current && 0 < port <= MAX_PORT
  }

  class RelayProcessor {
    var trackId: string
    var dawTrackName: string
    var customTrackName: string
    var useCustomTrackName: bool
    var relayEnabled: bool
    var oscPort: int
    var oscConnected: bool
    /** Messages handed to the sender, oldest first. */
    var sent: seq<Message>
    const analyser: Stft.SpectrumProcessor

    ghost predicate Valid()
      reads this, analyser, analyser.fftData, analyser.magnitudeSpectrum
    {
      analyser.Valid()
    }

    function CurrentSettings(): Settings
      reads this
    {
      Settings(trackId, dawTrackName, customTrackName, useCustomTrackName, relayEnabled, oscPort)
    }

    /** A new instance: fresh id, default names, relay on, default port, not yet connected. */
    constructor (freshId: string, window: seq<real>, transform: seq<real> -> seq<real>)
      requires |window| == FFT_SIZE && Stft.KeepsWorkingSize(transform)
      ensures Valid()
      ensures CurrentSettings() == InitialSettings(freshId)
      ensures !oscConnected && sent == []
      ensures fresh(analyser) && fresh(analyser.inputBuffer) && fresh(analyser.fftData) && fresh(analyser.magnitudeSpectrum)
      ensures analyser.currentSampleRate == 44100.0 && !analyser.spectrumReady
      ensures analyser.inputBufferIndex == 0 && analyser.samplesSinceLastFFT == 0
      ensures forall i :: 0 <= i < FFT_SIZE ==> analyser.inputBuffer[i] == 0.0
      ensures forall i :: 0 <= i < 2 * FFT_SIZE ==> analyser.fftData[i] == 0.0
      ensures forall i :: 0 <= i < NUM_BINS ==> analyser.magnitudeSpectrum[i] == 0.0
      ensures analyser.cycles == 0 && analyser.consumed == 0
    {
      trackId := freshId;
      dawTrackName := DefaultTrackName(freshId);
      customTrackName := DefaultTrackName(freshId);
      useCustomTrackName := false;
      relayEnabled := true;
      oscPort := DEFAULT_OSC_PORT;
      oscConnected := false;
      sent := [];
      analyser := new Stft.SpectrumProcessor(window, transform);
    }

    /** New sample rate: prepare the analyser and reconnect; `connectOk` is the outcome of connecting. */
    method PrepareToPlay(sampleRate: real, connectOk: bool)
      requires Valid()
      modifies analyser, analyser.inputBuffer, this`oscConnected
      ensures Valid()
      ensures analyser.currentSampleRate == sampleRate && !analyser.spectrumReady
      ensures analyser.inputBufferIndex == 0 && analyser.samplesSinceLastFFT == 0
      ensures forall i :: 0 <= i < FFT_SIZE ==> analyser.inputBuffer[i] == 0.0
      ensures unchanged(analyser.fftData) && unchanged(analyser.magnitudeSpectrum)
      ensures analyser.cycles == old(analyser.cycles) && analyser.consumed == analyser.cycles
      ensures analyser.lastFrame == old(analyser.lastFrame) && analyser.lastUpper == old(analyser.lastUpper)
      ensures oscConnected == connectOk
    {
      analyser.Prepare(sampleRate);
      oscConnected := connectOk;
    }

    /** A new port is taken, and the sender reconnected, only when it differs and lies in 1..65535. */
    method SetOscPort(port: int, connectOk: bool)
      modifies this`oscPort, this`oscConnected
      ensures PortChangeAccepted(old(oscPort), port) ==> oscPort == port && oscConnected == connectOk
      ensures !PortChangeAccepted(old(oscPort), port) ==>
                oscPort == old(oscPort) && oscConnected == old(oscConnected)
    {
      if port != oscPort && port > 0 && port <= 65535 {
        oscPort := port;
        oscConnected := connectOk;
      }
    }

    /**
     * Restore from a stored state; `None` stands for data that does not parse
     * or carries another tag, and changes nothing. The sender is not
     * reconnected to a restored port.
     */
    method SetStateInformation(stored: Option<StoredState>, freshId: string)
      modifies this`trackId, this`dawTrackName, this`customTrackName,
               this`useCustomTrackName, this`relayEnabled, this`oscPort
      ensures stored.Some? ==> CurrentSettings() == Restored(stored.value, freshId)
      ensures stored.None? ==> CurrentSettings() == old(CurrentSettings())
    {
      if stored.Some? {
        var xml := stored.value;
        trackId := Attribute(xml.trackId, "");
        if trackId == "" {
          trackId := freshId;
        }
        var legacyTrackName := Attribute(xml.trackName, "");
        if legacyTrackName != "" {
          dawTrackName := legacyTrackName;
          customTrackName := legacyTrackName;
        } else {
          dawTrackName := Attribute(xml.dawTrackName, DefaultTrackName(trackId));
          customTrackName := Attribute(xml.customTrackName, DefaultTrackName(trackId));
        }
        useCustomTrackName := Attribute(xml.useCustomTrackName, false);
        relayEnabled := Attribute(xml.relayEnabled, true);
        oscPort := Attribute(xml.oscPort, DEFAULT_OSC_PORT);
      }
    }

    /** The host's track name, when it reports one, becomes the DAW track name. */
    method UpdateTrackProperties(name: Option<string>)
      modifies this`dawTrackName
      ensures name.Some? ==> dawTrackName == name.value
      ensures name.None? ==> dawTrackName == old(dawTrackName)
    {
      if name.Some? {
        dawTrackName := name.value;
      }
    }

    /** Send a heartbeat under the effective name `name`; nothing is built when not connected. */
    method SendHeartbeat(name: string)
      modifies this`sent
      ensures oscConnected ==> sent == old(sent) + [HeartbeatMessage(trackId, name, analyser.currentSampleRate)]
      ensures !oscConnected ==> sent == old(sent)
    {
      if !oscConnected {
        return;
      }
      var message := HeartbeatMessage(trackId, name, analyser.GetSampleRate());
      sent := sent + [message];
    }

    /**
     * Read the spectrum (clearing the ready flag) and send it under the
     * effective name `name`; when not connected nothing is read, so the ready
     * flag stays as it was.
     */
    method SendSpectrumViaOsc(name: string)
      requires Valid()
      modifies this`sent, analyser`spectrumReady, analyser`consumed
      ensures Valid()
      ensures oscConnected ==>
                && sent == old(sent) + [SpectrumMessage(trackId, name, analyser.currentSampleRate, analyser.magnitudeSpectrum[..])]
                && !analyser.spectrumReady && analyser.consumed == analyser.cycles
      ensures !oscConnected ==>
                && sent == old(sent)
                && analyser.spectrumReady == old(analyser.spectrumReady) && analyser.consumed == old(analyser.consumed)
    {
      if !oscConnected {
        return;
      }
      var spectrum := analyser.GetSpectrum();
      var message := BuildSpectrumMessage(trackId, name, analyser.GetSampleRate(), spectrum);
      sent := sent + [message];
    }

    /** The samples handed to the analyser: the single channel as it is, or the two channels mixed. */
    static method BlockSignal(input: seq<seq<real>>, numSamples: nat) returns (signal: seq<real>)
      requires |input| > 0
      requires forall k :: 0 <= k < |input| ==> |input[k]| >= numSamples
      ensures numSamples <= |signal| && signal[..numSamples] == AnalysedSignal(input, numSamples)
    {
      if |input| == 1 {
        signal := input[0];
      } else {
        signal := MixToMono(input[0], input[1], numSamples);
      }
    }

    /** The first `numSamples` samples of `signal` go through the analyser. */
    method AnalyseSignal(signal: seq<real>, numSamples: nat)
      requires Valid() && numSamples <= |signal|
      modifies analyser, analyser.inputBuffer, analyser.fftData, analyser.magnitudeSpectrum
      ensures Valid()
      ensures analyser.inputBuffer[..] == Stft.Written(old(analyser.inputBuffer[..]), old(analyser.inputBufferIndex),
                                                       signal, numSamples)
      ensures analyser.inputBufferIndex == (old(analyser.inputBufferIndex) + numSamples) % FFT_SIZE
      ensures analyser.samplesSinceLastFFT == (old(analyser.samplesSinceLastFFT) + numSamples) % HOP_SIZE
      ensures analyser.cycles == old(analyser.cycles) + (old(analyser.samplesSinceLastFFT) + numSamples) / HOP_SIZE
      ensures analyser.consumed == old(analyser.consumed) && analyser.currentSampleRate == old(analyser.currentSampleRate)
      ensures analyser.cycles == old(analyser.cycles) ==>
                && analyser.lastFrame == old(analyser.lastFrame) && analyser.lastUpper == old(analyser.lastUpper)
                && unchanged(analyser.fftData) && unchanged(analyser.magnitudeSpectrum)
      ensures analyser.cycles > old(analyser.cycles) ==>
                && analyser.lastFrame == Stft.FrameAfter(old(analyser.inputBuffer[..]), old(analyser.inputBufferIndex),
                                                         signal,
                                                         numSamples - (old(analyser.samplesSinceLastFFT) + numSamples) % HOP_SIZE)
                && analyser.magnitudeSpectrum[..] == analyser.SpectrumOf(analyser.lastFrame, analyser.lastUpper)
      ensures analyser.cycles == old(analyser.cycles) + 1 ==> analyser.lastUpper == old(analyser.fftData[..])[FFT_SIZE..]
    {
      assert Stft.Count(numSamples) == numSamples;
      analyser.Process(signal, numSamples);
    }

    /**
     * The analysis half of one audio block: the single channel, or the
     * average of the first two, goes through the analyser.
     */
    method AnalyseBlock(input: seq<seq<real>>, numSamples: nat)
      requires Valid() && |input| > 0
      requires forall k :: 0 <= k < |input| ==> |input[k]| >= numSamples
      modifies analyser, analyser.inputBuffer, analyser.fftData, analyser.magnitudeSpectrum
      ensures Valid()
      ensures analyser.inputBuffer[..] == Stft.Written(old(analyser.inputBuffer[..]), old(analyser.inputBufferIndex),
                                                       AnalysedSignal(input, numSamples), numSamples)
      ensures analyser.inputBufferIndex == (old(analyser.inputBufferIndex) + numSamples) % FFT_SIZE
      ensures analyser.samplesSinceLastFFT == (old(analyser.samplesSinceLastFFT) + numSamples) % HOP_SIZE
      ensures analyser.cycles == old(analyser.cycles) + (old(analyser.samplesSinceLastFFT) + numSamples) / HOP_SIZE
      ensures analyser.consumed == old(analyser.consumed) && analyser.currentSampleRate == old(analyser.currentSampleRate)
      ensures analyser.cycles == old(analyser.cycles) ==>
                && analyser.lastFrame == old(analyser.lastFrame) && analyser.lastUpper == old(analyser.lastUpper)
                && unchanged(analyser.fftData) && unchanged(analyser.magnitudeSpectrum)
      ensures analyser.cycles > old(analyser.cycles) ==>
                && analyser.lastFrame == Stft.FrameAfter(old(analyser.inputBuffer[..]), old(analyser.inputBufferIndex),
                                                         AnalysedSignal(input, numSamples),
                                                         numSamples - (old(analyser.samplesSinceLastFFT) + numSamples) % HOP_SIZE)
                && analyser.magnitudeSpectrum[..] == analyser.SpectrumOf(analyser.lastFrame, analyser.lastUpper)
      ensures analyser.cycles == old(analyser.cycles) + 1 ==> analyser.lastUpper == old(analyser.fftData[..])[FFT_SIZE..]
    {
      var signal := BlockSignal(input, numSamples);
      ghost var counter := analyser.samplesSinceLastFFT;
      Stft.LastHopWithin(counter, numSamples);
      ghost var lastHop: nat := if (counter + numSamples) % HOP_SIZE <= numSamples
                                then numSamples - (counter + numSamples) % HOP_SIZE else 0;
      Stft.SamePrefixSameFrame(analyser.inputBuffer[..], analyser.inputBufferIndex,
                               signal, AnalysedSignal(input, numSamples), numSamples, lastHop);
      AnalyseSignal(signal, numSamples);
    }

    /**
     * One audio block of `numSamples` samples per input channel. Only with the
     * relay on and at least one input channel do samples reach the analyser;
     * then a spectrum is sent when a transform cycle has run since the last
     * one was read.
     */
    method ProcessBlock(input: seq<seq<real>>, numSamples: nat, name: string)
      requires Valid()
      requires forall k :: 0 <= k < |input| ==> |input[k]| >= numSamples
      modifies this`sent, analyser, analyser.inputBuffer, analyser.fftData, analyser.magnitudeSpectrum
      ensures Valid()
      ensures !(relayEnabled && |input| > 0) ==>
                && sent == old(sent) && unchanged(analyser)
                && unchanged(analyser.inputBuffer) && unchanged(analyser.fftData) && unchanged(analyser.magnitudeSpectrum)
      ensures relayEnabled && |input| > 0 ==>
                && analyser.inputBuffer[..] == Stft.Written(old(analyser.inputBuffer[..]), old(analyser.inputBufferIndex),
                                                            AnalysedSignal(input, numSamples), numSamples)
                && analyser.inputBufferIndex == (old(analyser.inputBufferIndex) + numSamples) % FFT_SIZE
                && analyser.samplesSinceLastFFT == (old(analyser.samplesSinceLastFFT) + numSamples) % HOP_SIZE
                && analyser.cycles == old(analyser.cycles) + (old(analyser.samplesSinceLastFFT) + numSamples) / HOP_SIZE
                && analyser.currentSampleRate == old(analyser.currentSampleRate)
      ensures relayEnabled && |input| > 0 && analyser.cycles == old(analyser.cycles) ==>
                && analyser.lastFrame == old(analyser.lastFrame) && analyser.lastUpper == old(analyser.lastUpper)
                && unchanged(analyser.fftData) && unchanged(analyser.magnitudeSpectrum)
      ensures relayEnabled && |input| > 0 && analyser.cycles > old(analyser.cycles) ==>
                && analyser.lastFrame == Stft.FrameAfter(old(analyser.inputBuffer[..]), old(analyser.inputBufferIndex),
                                                         AnalysedSignal(input, numSamples),
                                                         numSamples - (old(analyser.samplesSinceLastFFT) + numSamples) % HOP_SIZE)
                && analyser.magnitudeSpectrum[..] == analyser.SpectrumOf(analyser.lastFrame, analyser.lastUpper)
      ensures relayEnabled && |input| > 0 && analyser.cycles == old(analyser.cycles) + 1 ==>
                analyser.lastUpper == old(analyser.fftData[..])[FFT_SIZE..]
      ensures relayEnabled && |input| > 0 ==>
                analyser.consumed == (if oscConnected then analyser.cycles else old(analyser.consumed))
      ensures |sent| != |old(sent)| <==>
                relayEnabled && |input| > 0 && oscConnected && old(analyser.consumed) < analyser.cycles
      ensures |sent| == |old(sent)| ==> sent == old(sent)
      ensures |sent| != |old(sent)| ==>
                sent == old(sent) + [SpectrumMessage(trackId, name, analyser.currentSampleRate, analyser.magnitudeSpectrum[..])]
    {
      if relayEnabled && |input| > 0 {
        AnalyseBlock(input, numSamples);
        var ready := analyser.IsSpectrumReady();
        if ready {
          SendSpectrumViaOsc(name);
        }
      }
    }
  }

  /** The relay's heartbeat carries its name first, so the viewer's intake drops it. */
  lemma RelayHeartbeatRejected(trackId: string, name: string, sampleRate: real)
    ensures Receiver.Decode(HeartbeatMessage(trackId, name, sampleRate)).None?
  {
    var m := HeartbeatMessage(trackId, name, sampleRate);
    assert !Receiver.HeartbeatAccepted(m);
  }

  /** The relay's spectrum message carries its name first, so the viewer's intake drops it. */
  lemma RelaySpectrumRejected(trackId: string, name: string, sampleRate: real, spectrum: seq<real>)
    requires |spectrum| == NUM_BINS
    ensures Receiver.Decode(SpectrumMessage(trackId, name, sampleRate, spectrum)).None?
  {
    var m := SpectrumMessage(trackId, name, sampleRate, spectrum);
    Receiver.PrefixesExclusive(m.address);
    assert !Receiver.SpectrumAccepted(m);
  }

  /**
   * Without its leading name, the relay's spectrum message is the layout
   * the viewer documents, and decodes to the track id, the rate and all bins.
   */
  lemma NamelessSpectrumDecodes(trackId: string, name: string, sampleRate: real, spectrum: seq<real>)
    requires trackId != [] && |spectrum| == NUM_BINS
    ensures var m := SpectrumMessage(trackId, name, sampleRate, spectrum);
            Receiver.Decode(Message(m.address, m.args[1..])) == Some(Receiver.Spectrum(trackId, sampleRate, spectrum))
  {
    NamelessSpectrumMessage(trackId, name, sampleRate, spectrum);
    Receiver.DocumentedSpectrumRoundTrip(trackId, FFT_SIZE as real, sampleRate, spectrum);
  }

  /** The relay's spectrum message with its leading name dropped is the documented layout. */
  lemma NamelessSpectrumMessage(trackId: string, name: string, sampleRate: real, spectrum: seq<real>)
    requires |spectrum| == NUM_BINS
    ensures var m := SpectrumMessage(trackId, name, sampleRate, spectrum);
            Message(m.address, m.args[1..])
            == Message(OSC_ADDRESS_PREFIX + trackId, [F32(FFT_SIZE as real), F32(sampleRate)] + Floats(spectrum))
  {
    var payload := [F32(FFT_SIZE as real), F32(sampleRate)] + Floats(spectrum);
    assert ([Str(name)] + payload)[1..] == payload;
  }

  /** Without its leading name, the relay's heartbeat decodes to its track id and rate. */
  lemma NamelessHeartbeatDecodes(trackId: string, name: string, sampleRate: real)
    requires trackId != []
    ensures var m := HeartbeatMessage(trackId, name, sampleRate);
            Receiver.Decode(Message(m.address, m.args[1..])) == Some(Receiver.Heartbeat(trackId, sampleRate))
  {
    var m := HeartbeatMessage(trackId, name, sampleRate);
    assert m.args[1..] == [F32(sampleRate)];
    Receiver.DocumentedHeartbeatRoundTrip(trackId, sampleRate);
  }

  /** Restoring a state with no attributes gives the settings of a fresh instance. */
  lemma EmptyStateRestoresDefaults(freshId: string)
    ensures Restored(StoredState(None, None, None, None, None, None, None), freshId) == InitialSettings(freshId)
  {
  }

  /** Restoring never leaves the id empty, given a non-empty fresh id. */
  lemma RestoredIdNonEmpty(stored: StoredState, freshId: string)
    requires freshId != ""
    ensures Restored(stored, freshId).trackId != ""
  {
  }

  /** A stored port outside 1..65535 is restored as it is, although `SetOscPort` would refuse it. */
  lemma RestoredPortUnchecked(stored: StoredState, freshId: string, current: int)
    requires stored.oscPort.Some? && !(0 < stored.oscPort.value <= MAX_PORT)
    ensures Restored(stored, freshId).oscPort == stored.oscPort.value
    ensures !PortChangeAccepted(current, Restored(stored, freshId).oscPort)
  {
  }

  /** The default port is accepted by `SetOscPort` from any other current port. */
  lemma DefaultPortAccepted(current: int)
    requires current != DEFAULT_OSC_PORT
    ensures PortChangeAccepted(current, DEFAULT_OSC_PORT)
  {
  }
}
