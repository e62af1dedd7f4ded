/**
 * The viewer's message intake (MainComponent::oscMessageReceived): address
 * prefix dispatch, argument validation and payload extraction. A message that
 * passes becomes one tagged registry update; any other message is dropped
 * without a trace.
 */
module Receiver {
  import opened SpectrumConstants
  import opened Osc
  import opened Wrappers

  /** What an accepted message asks of the track registry. */
  datatype Update =
    | Heartbeat(trackId: string, sampleRate: real)
    | Spectrum(trackId: string, sampleRate: real, magnitudes: seq<real>)

  /** A magnitude argument read as a bin value: non-float arguments read as 0. */
  function MagnitudeOf(a: Arg): real {
    if a.F32? then a.value else 0.0
  }

  /** Heartbeat layout as the viewer checks it: non-empty id after the prefix, argument 0 a float32. */
  predicate HeartbeatAccepted(m: Message) {
    && StartsWith(m.address, OSC_HEARTBEAT_PREFIX)
    && |m.address| > |OSC_HEARTBEAT_PREFIX|
    && |m.args| >= 1
    && m.args[0].F32?
  }

  /** Spectrum layout as the viewer checks it: non-empty id, at least 3 arguments, arguments 0 and 1 float32. */
  predicate SpectrumAccepted(m: Message) {
    && StartsWith(m.address, OSC_ADDRESS_PREFIX)
    && |m.address| > |OSC_ADDRESS_PREFIX|
    && |m.args| >= 3
    && m.args[0].F32?
    && m.args[1].F32?
  }

  /**
   * The registry update a message stands for. The heartbeat prefix is tried
   * first and a heartbeat-prefixed message never reaches the spectrum branch;
   * argument 0 of a spectrum message (the sender's transform size) is ignored.
   */
  function Decode(m: Message): (r: Option<Update>)
    ensures (r.Some? && r.value.Heartbeat?) <==> HeartbeatAccepted(m)
    ensures (r.Some? && r.value.Spectrum?) <==>
              !StartsWith(m.address, OSC_HEARTBEAT_PREFIX) && SpectrumAccepted(m)
    ensures r.Some? && r.value.Heartbeat? ==>
              && r.value.trackId == m.address[|OSC_HEARTBEAT_PREFIX|..]
              && r.value.trackId != []
              && r.value.sampleRate == m.args[0].value
    ensures r.Some? && r.value.Spectrum? ==>
              && r.value.trackId == m.address[|OSC_ADDRESS_PREFIX|..]
              && r.value.trackId != []
              && r.value.sampleRate == m.args[1].value
              && |r.value.magnitudes| == |m.args| - 2 >= 1
              && forall i :: 0 <= i < |r.value.magnitudes| ==>
                   r.value.magnitudes[i] == MagnitudeOf(m.args[i + 2])
  {
    if StartsWith(m.address, OSC_HEARTBEAT_PREFIX) then
      if HeartbeatAccepted(m) then
        Some(Heartbeat(m.address[|OSC_HEARTBEAT_PREFIX|..], m.args[0].value))
      else None
    else if SpectrumAccepted(m) then
      var payload := m.args[2..];
      Some(Spectrum(m.address[|OSC_ADDRESS_PREFIX|..], m.args[1].value,
                    seq(|payload|, i requires 0 <= i < |payload| => MagnitudeOf(payload[i]))))
    else None
  }

  /**
   * The intake as the viewer runs it: early returns on every failed check,
   * then a zero-filled vector of `size - 2` bins into which each float32
   * argument is copied.
   */
  method OscMessageReceived(message: Message) returns (call: Option<Update>)
    ensures call == Decode(message)
  {
    var address := message.address;
    if StartsWith(address, OSC_HEARTBEAT_PREFIX) {
      var trackName := address[|OSC_HEARTBEAT_PREFIX|..];
      if |trackName| == 0 || |message.args| < 1 {
        return None;
      }
      if !message.args[0].F32? {
        return None;
      }
      return Some(Heartbeat(trackName, message.args[0].value));
    }
    if StartsWith(address, OSC_ADDRESS_PREFIX) {
      var trackName := address[|OSC_ADDRESS_PREFIX|..];
      if |trackName| == 0 {
        return None;
      }
      if |message.args| < 3 {
        return None;
      }
      if !message.args[0].F32? || !message.args[1].F32? {
        return None;
      }
      var sampleRate := message.args[1].value;
      var numBins := |message.args| - 2;
      var spectrumData := seq(numBins, _ => 0.0);
      var i := 0;
      while i < numBins
        invariant 0 <= i <= numBins && |spectrumData| == numBins
        invariant forall j :: 0 <= j < i ==> spectrumData[j] == MagnitudeOf(message.args[j + 2])
        invariant forall j :: i <= j < numBins ==> spectrumData[j] == 0.0
      {
        if message.args[i + 2].F32? {
          spectrumData := spectrumData[i := message.args[i + 2].value];
        }
        i := i + 1;
      }
      ghost var expected := Decode(message);
      assert expected.Some? && expected.value.Spectrum?;
      assert spectrumData == expected.value.magnitudes;
      return Some(Spectrum(trackName, sampleRate, spectrumData));
    }
    return None;
  }

  /** Neither message prefix is a prefix of the other, so dispatch by prefix is unambiguous. */
  lemma PrefixesExclusive(address: string)
    ensures StartsWith(address, OSC_ADDRESS_PREFIX) ==> !StartsWith(address, OSC_HEARTBEAT_PREFIX)
    ensures StartsWith(address, OSC_HEARTBEAT_PREFIX) ==> !StartsWith(address, OSC_ADDRESS_PREFIX)
  {
    assert OSC_ADDRESS_PREFIX[11] == 's' && OSC_HEARTBEAT_PREFIX[11] == 'h';
    if StartsWith(address, OSC_ADDRESS_PREFIX) {
      DistinctPrefixes(address, OSC_ADDRESS_PREFIX, OSC_HEARTBEAT_PREFIX, 11);
    }
    if StartsWith(address, OSC_HEARTBEAT_PREFIX) {
      DistinctPrefixes(address, OSC_HEARTBEAT_PREFIX, OSC_ADDRESS_PREFIX, 11);
    }
  }

  lemma PrefixedAddress(prefix: string, id: string)
    ensures StartsWith(prefix + id, prefix)
    ensures (prefix + id)[|prefix|..] == id
  {
    assert (prefix + id)[..|prefix|] == prefix;
  }

  /**
   * Round trip of the layout the viewer documents for spectra:
   * `[fftSize, sampleRate, m0, ..., m(n-1)]`, all float32, decodes to the id,
   * the rate and exactly the n magnitudes.
   */
  lemma DocumentedSpectrumRoundTrip(trackId: string, fftSize: real, sampleRate: real, mags: seq<real>)
    requires trackId != [] && |mags| >= 1
    ensures Decode(Message(OSC_ADDRESS_PREFIX + trackId, [F32(fftSize), F32(sampleRate)] + Floats(mags)))
            == Some(Spectrum(trackId, sampleRate, mags))
  {
    var m := Message(OSC_ADDRESS_PREFIX + trackId, [F32(fftSize), F32(sampleRate)] + Floats(mags));
    PrefixedAddress(OSC_ADDRESS_PREFIX, trackId);
    PrefixesExclusive(m.address);
    var r := Decode(m);
    assert SpectrumAccepted(m);
    assert r.Some? && r.value.Spectrum?;
    assert |r.value.magnitudes| == |mags|;
    forall i | 0 <= i < |mags|
      ensures r.value.magnitudes[i] == mags[i]
    {
      assert m.args[i + 2] == F32(mags[i]);
    }
    assert r.value.magnitudes == mags;
  }

  /** Round trip of the heartbeat layout the viewer checks: `[sampleRate]`, float32. */
  lemma DocumentedHeartbeatRoundTrip(trackId: string, sampleRate: real)
    requires trackId != []
    ensures Decode(Message(OSC_HEARTBEAT_PREFIX + trackId, [F32(sampleRate)]))
            == Some(Heartbeat(trackId, sampleRate))
  {
    PrefixedAddress(OSC_HEARTBEAT_PREFIX, trackId);
  }

  /** A spectrum message without magnitudes is dropped. */
  lemma MissingMagnitudesDropped(trackId: string, fftSize: real, sampleRate: real)
    ensures Decode(Message(OSC_ADDRESS_PREFIX + trackId, [F32(fftSize), F32(sampleRate)])) == None
  {
    var m := Message(OSC_ADDRESS_PREFIX + trackId, [F32(fftSize), F32(sampleRate)]);
    PrefixedAddress(OSC_ADDRESS_PREFIX, trackId);
    PrefixesExclusive(m.address);
  }
}
