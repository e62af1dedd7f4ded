# Multitrack spectrum analyser, modelled in Dafny

The system has two programs that talk Open Sound Control 1.0 over UDP.

- **The relay** is a plugin instance on one DAW track. It feeds the audio
  into a streaming short-time Fourier transform front end, the
  `SpectrumProcessor`, which runs a transform cycle every `HOP_SIZE`
  samples. After each audio block in which at least one cycle ran, it
  sends the newest magnitude spectrum (at most one per block), and from a
  timer it sends a heartbeat.
- **The viewer** decodes the incoming messages and keeps a registry of
  tracks, the `TrackManager`. The registry creates tracks on first contact,
  smooths their spectra with an exponential moving average, takes them
  Offline when spectra stop arriving, and lets their smoothed spectra decay
  while they are Offline.

The model has one module per part:

| file | module | models |
|---|---|---|
| `constants.dfy` | `SpectrumConstants` | the shared constants and their relations |
| `osc.dfy` | `Osc` | an OSC message as a value: address and typed arguments |
| `wrappers.dfy` | `Wrappers` | `Option` |
| `spectrum_processor.dfy` | `Stft` | the class `SpectrumProcessor` over arrays. This covers the circular buffer, write index, hop counter, linearisation, normalisation and the consume-once ready flag, plus a value-level specification (`Step`, `Run`, `Written`, `FrameAfter`) that `Process` is proved against. |
| `track_manager.dfy` | `Tracks` | the class `TrackManager`: a `map` from id to `TrackData`, the display order `seq`, and the colour counter. Specification functions (`CreatedByPresence`, `Ingested`, `Aged`, `Reordered`, `OrderedSnapshot`, ...) and lemmas cover several calls in a row. |
| `receiver.dfy` | `Receiver` | the viewer's message intake: a pure `Decode` to an `Option<Update>`, and the early-return method that fills the magnitude vector |
| `relay.dfy` | `Relay` | the two outgoing message layouts, state restore, the port setter, and the audio-block gate (class `RelayProcessor`) |

Some inputs are parameters of the model:

- Clock readings are a parameter `now`, and a fresh UUID is a parameter `freshId`.
- Whether the UDP sender connects is a parameter `connectOk`.
- Sent messages are appended to the field `sent`.
- The Hann window table and the frequency-only forward transform are fixed
  at construction. Nothing spectral is assumed about them.
- Spectrum values, sample rates and the smoothing arithmetic are `real`, so
  0.25 / 0.75 arithmetic is exact.

Behaviour of the code that the model makes explicit:

- `TRACK_TIMEOUT_MS` is 3000 (`Common/SpectrumData.h:19`), so a track
  1600 ms past its last spectrum stays Active at a sweep
  (`Tracks.TimeoutBoundary`).
- A heartbeat creates the track with zeroed smoothed bins, so after a
  heartbeat a first spectrum with reading 0.5 is averaged in and leaves
  `smoothedSpectrum[0]` at 0.125 (`Tracks.FirstSpectrumAfterHeartbeat`).
  A track created by the spectrum itself starts at the reading
  (`Tracks.CreatedBySpectrumFacts`).
- The relay puts the effective track name first in both messages
  (`PluginProcessor.cpp:204`, `:233`). The viewer requires argument 0 to be
  a float32 (`MainComponent.cpp:83`, `:103`). So the viewer drops every
  message the relay sends (`Relay.RelayHeartbeatRejected`,
  `Relay.RelaySpectrumRejected`). With the leading name removed, both
  decode as intended (`Relay.NamelessSpectrumDecodes`,
  `Relay.NamelessHeartbeatDecodes`).
- `reorderTrack` does not check that the id is listed. A reorder of an
  unlisted id inserts it and grows the list by one
  (`Tracks.ReorderedShape`). If that id later gets a track, creation appends
  it a second time, and the ordered snapshot then shows that track twice
  (`Tracks.ReorderUnlistedThenCreated`).
- `TrackManager.h` does not declare `reorderTrack`,
  `getActiveTracksOrdered`, `setTrackColour` or `customTrackOrder`. The
  model follows `TrackManager.cpp`.
- `MainComponent.cpp` calls `updateTrackPresence` and `updateTrack` without
  a name, and calls `removeStaleTrack`. These signatures do not exist in
  `TrackManager.cpp`. So the decoder returns the update it stands for, and
  the registry methods take the `.cpp` signatures.
- `OSC_HEARTBEAT_PREFIX` is used by both programs but not defined in
  `Common/SpectrumData.h`. The model uses `"/wxc-tools/heartbeat/"`, the
  address given in the comments at `PluginProcessor.cpp:199` and
  `MainComponent.cpp:75`.

## Model

| member | source | states |
|---|---|---|
| SpectrumConstants.FftSizeIsPowerOfOrder | Common/SpectrumData.h:7-8 | FFT_SIZE is 2 to the power FFT_ORDER |
| SpectrumConstants.SizesAreConsistent | Common/SpectrumData.h:8-10 | twice NUM_BINS is FFT_SIZE; HOP_SIZE is a quarter of FFT_SIZE, positive, below it and dividing it; 1024 bins, hop 512 |
| SpectrumConstants.DefaultPortInRange | Common/SpectrumData.h:13 | the default port lies in 1..65535 |
| SpectrumConstants.DisplayConstantsOrdered | Common/SpectrumData.h:17-19 | MIN_DB is below MAX_DB and the timeout is positive |
| Receiver.Decode | MultitrackSpectrumAnalyzer/Source/MainComponent.cpp:71-121 | a heartbeat is accepted iff it has the heartbeat prefix, a non-empty id suffix, at least one argument and a float32 argument 0; it then yields that id and argument 0 as the rate. A spectrum is accepted iff it lacks the heartbeat prefix, has the spectrum prefix, a non-empty id, at least 3 arguments and float32 arguments 0 and 1; it then yields that id, argument 1 as the rate, and size − 2 ≥ 1 magnitudes, each the float value of argument i + 2 or 0. Any other message yields no update |
| Receiver.OscMessageReceived | MultitrackSpectrumAnalyzer/Source/MainComponent.cpp:71-121 | the early-return intake with its zero-filled copy loop yields exactly `Decode`'s update |
| Receiver.PrefixesExclusive | MultitrackSpectrumAnalyzer/Source/MainComponent.cpp:76-93 | no address starts with both prefixes, so the dispatch is unambiguous |
| Receiver.DocumentedSpectrumRoundTrip | MultitrackSpectrumAnalyzer/Source/MainComponent.cpp:99-119 | the documented layout `[fftSize, sampleRate, m0..m(n-1)]`, all float32, with n ≥ 1, decodes to the id, the rate and exactly the n magnitudes |
| Receiver.DocumentedHeartbeatRoundTrip | MultitrackSpectrumAnalyzer/Source/MainComponent.cpp:77-88 | `[sampleRate]` under the heartbeat prefix decodes to the id and the rate |
| Receiver.MissingMagnitudesDropped | MultitrackSpectrumAnalyzer/Source/MainComponent.cpp:100-101 | a spectrum message with only fftSize and rate is dropped |
| Relay.DefaultTrackName | SpectrumAnalyzerRelay/Source/PluginProcessor.cpp:20-21 | "Track " followed by the first eight characters of the id (all of it when shorter) |
| Relay.InitialSettings | SpectrumAnalyzerRelay/Source/PluginProcessor.cpp:15-21 | a new instance has the fresh id, both names the default name, custom name off, relay on, default port |
| Relay.HeartbeatMessage | SpectrumAnalyzerRelay/Source/PluginProcessor.cpp:199-205 | address heartbeat prefix ++ id; arguments exactly `[Str name, F32 sampleRate]` |
| Relay.SpectrumMessage | SpectrumAnalyzerRelay/Source/PluginProcessor.cpp:227-238 | address spectrum prefix ++ id; NUM_BINS + 3 arguments: `Str name`, `F32 FFT_SIZE`, `F32 sampleRate`, then bin i at position i + 3 |
| Relay.BuildSpectrumMessage | SpectrumAnalyzerRelay/Source/PluginProcessor.cpp:232-238 | the header-then-loop construction builds exactly `SpectrumMessage` |
| Relay.MonoMix | SpectrumAnalyzerRelay/Source/PluginProcessor.cpp:157-160 | sample i of the mono signal is the mean of the two channels' samples i |
| Relay.MixToMono | SpectrumAnalyzerRelay/Source/PluginProcessor.cpp:153-160 | the averaging loop computes `MonoMix` |
| Relay.AnalysedSignal | SpectrumAnalyzerRelay/Source/PluginProcessor.cpp:144-163 | one sample per sample of the block: with one input channel, that channel's samples; with two or more, the mean of the first two channels' samples |
| Relay.EqualChannelsAnalysedAsMono | SpectrumAnalyzerRelay/Source/PluginProcessor.cpp:144-163 | a stereo block whose two channels are equal is analysed exactly as the mono block of that channel |
| Relay.Restored | SpectrumAnalyzerRelay/Source/PluginProcessor.cpp:259-283 | an empty or missing id becomes the fresh id; a non-empty legacy name becomes both names; otherwise each name is its attribute or the default name of the restored id; the switches default to false and true and the port to DEFAULT_OSC_PORT |
| Relay.EmptyStateRestoresDefaults | SpectrumAnalyzerRelay/Source/PluginProcessor.cpp:262-282 | a state with no attributes restores the settings of a fresh instance |
| Relay.RestoredIdNonEmpty | SpectrumAnalyzerRelay/Source/PluginProcessor.cpp:262-264 | a restored id is never empty |
| Relay.RestoredPortUnchecked | SpectrumAnalyzerRelay/Source/PluginProcessor.cpp:282 | any stored port outside 1..65535 is restored as it is, although the setter refuses it |
| Relay.DefaultPortAccepted | SpectrumAnalyzerRelay/Source/PluginProcessor.cpp:210-217 | the setter accepts the default port from any other port |
| Relay.RelayProcessor.constructor | SpectrumAnalyzerRelay/Source/PluginProcessor.cpp:15-25 | settings are `InitialSettings(freshId)`, nothing sent, not connected; the analyser is freshly allocated at 44100, index and counter 0, every buffer zeroed, no cycle run and not ready |
| Relay.RelayProcessor.PrepareToPlay | SpectrumAnalyzerRelay/Source/PluginProcessor.cpp:95-100 | the analyser takes the new rate, its input buffer is all zeros, index and counter restart, ready is cleared; the working buffer, spectrum, cycle count and last frame are unchanged; the connected flag is the outcome of reconnecting |
| Relay.RelayProcessor.SetOscPort | SpectrumAnalyzerRelay/Source/PluginProcessor.cpp:210-217 | port and connection change iff the port differs and lies in 1..65535; otherwise both are unchanged |
| Relay.RelayProcessor.SetStateInformation | SpectrumAnalyzerRelay/Source/PluginProcessor.cpp:256-284 | a readable state sets the settings to `Restored`; an unreadable one changes nothing |
| Relay.RelayProcessor.UpdateTrackProperties | SpectrumAnalyzerRelay/Source/PluginProcessor.cpp:286-291 | the DAW name takes the host's name only when one is present |
| Relay.RelayProcessor.SendHeartbeat | SpectrumAnalyzerRelay/Source/PluginProcessor.cpp:194-208 | when connected exactly one heartbeat with the id, name and current rate is sent; otherwise nothing |
| Relay.RelayProcessor.SendSpectrumViaOsc | SpectrumAnalyzerRelay/Source/PluginProcessor.cpp:219-241 | when connected the spectrum is read (ready cleared) and sent as `SpectrumMessage`; otherwise nothing is sent and the ready flag is not consumed |
| Relay.RelayProcessor.BlockSignal | SpectrumAnalyzerRelay/Source/PluginProcessor.cpp:144-163 | the branch on the channel count hands the analyser exactly `AnalysedSignal` for the block's samples |
| Relay.RelayProcessor.AnalyseSignal | SpectrumAnalyzerRelay/Source/PluginProcessor.cpp:148-162 | the signal handed to the analyser is written into the circular buffer from the old index, index and counter advance, (old + n) div HOP_SIZE cycles run; with no cycle the frame, the old upper half and the spectrum are unchanged, otherwise the frame is the buffer at the last completed hop and the spectrum is `SpectrumOf(lastFrame, lastUpper)`, the windowed frame over the upper half of the working buffer as it stood before the last cycle (when exactly one cycle ran, the upper half at the start of the call); the rate and the ready flag's consumed count are unchanged |
| Relay.RelayProcessor.AnalyseBlock | SpectrumAnalyzerRelay/Source/PluginProcessor.cpp:144-163 | the block's `AnalysedSignal` goes through the analyser: it is written into the circular buffer from the old index, index and counter advance, (old + n) div HOP_SIZE cycles run; with no cycle the frame, the old upper half and the spectrum are unchanged, otherwise the frame is the buffer at the last completed hop and the spectrum is `SpectrumOf(lastFrame, lastUpper)`, the windowed frame over the upper half of the working buffer as it stood before the last cycle (when exactly one cycle ran, the upper half at the start of the call); the rate is unchanged |
| Relay.RelayProcessor.ProcessBlock | SpectrumAnalyzerRelay/Source/PluginProcessor.cpp:127-171 | with the relay off or no input channel nothing reaches the analyser and nothing is sent. Otherwise the single channel, or the mean of the first two, is written into the circular buffer from the old index; index and counter advance, cycles run, the last frame, the upper half behind the spectrum and the spectrum are as in `AnalyseBlock`, the rate is unchanged. A message is sent iff a cycle ran since the spectrum was last read and the sender is connected, and it is then the spectrum message appended to the log; otherwise the log is unchanged; the ready flag is consumed exactly when connected, otherwise it keeps its old state |
| Relay.RelayHeartbeatRejected | SpectrumAnalyzerRelay/Source/PluginProcessor.cpp:203-205 | the viewer's intake drops every heartbeat the relay sends |
| Relay.RelaySpectrumRejected | SpectrumAnalyzerRelay/Source/PluginProcessor.cpp:232-235 | the viewer's intake drops every spectrum message the relay sends |
| Relay.NamelessSpectrumMessage | SpectrumAnalyzerRelay/Source/PluginProcessor.cpp:231-238 | the relay's spectrum message without its leading name is the viewer's documented layout |
| Relay.NamelessSpectrumDecodes | SpectrumAnalyzerRelay/Source/PluginProcessor.cpp:228-238 | without its leading name the relay's spectrum message decodes to its id, rate and all NUM_BINS bins |
| Relay.NamelessHeartbeatDecodes | SpectrumAnalyzerRelay/Source/PluginProcessor.cpp:200-205 | without its leading name the relay's heartbeat decodes to its id and rate |
| Stft.Normalised | SpectrumAnalyzerRelay/Source/SpectrumProcessor.cpp:55-61 | NUM_BINS values, each of which times FFT_SIZE gives back transform output i |
| Stft.Step | SpectrumAnalyzerRelay/Source/SpectrumProcessor.cpp:23-33 | one sample keeps the index in [0, FFT_SIZE) and the counter in [0, HOP_SIZE) |
| Stft.RotatedSlot | SpectrumAnalyzerRelay/Source/SpectrumProcessor.cpp:40-46 | position i of the linearised buffer is slot (index + i) mod FFT_SIZE |
| Stft.SlotsDistinct | SpectrumAnalyzerRelay/Source/SpectrumProcessor.cpp:24-25 | samples fewer than FFT_SIZE apart land in different slots |
| Stft.WrittenAt | SpectrumAnalyzerRelay/Source/SpectrumProcessor.cpp:24-25 | each of the last FFT_SIZE samples of a block sits in slot (start + k) mod FFT_SIZE, later samples overwriting earlier ones there; while fewer than FFT_SIZE were written, the slots not reached keep their old values |
| Stft.WrittenAgrees | SpectrumAnalyzerRelay/Source/SpectrumProcessor.cpp:21-24 | the buffer depends only on the samples written, not on the input beyond them |
| Stft.SamePrefixSameFrame | SpectrumAnalyzerRelay/Source/SpectrumProcessor.cpp:21-46 | inputs that agree on their first n samples give the same buffer and the same frames up to n |
| Stft.RunIndex | SpectrumAnalyzerRelay/Source/SpectrumProcessor.cpp:25 | after n samples the index is (old + n) mod FFT_SIZE |
| Stft.RunCounter | SpectrumAnalyzerRelay/Source/SpectrumProcessor.cpp:26-33 | after n samples the counter is (old + n) mod HOP_SIZE and exactly (old + n) div HOP_SIZE cycles ran |
| Stft.RunBuffer | SpectrumAnalyzerRelay/Source/SpectrumProcessor.cpp:24 | after n samples the buffer is the old one with them written from the old index |
| Stft.StepWrapFrame | SpectrumAnalyzerRelay/Source/SpectrumProcessor.cpp:29-31 | a sample that completes a hop makes the analysed frame the buffer so far, read from the next slot |
| Stft.RunFrame | SpectrumAnalyzerRelay/Source/SpectrumProcessor.cpp:29-33 | with no cycle the last frame is unchanged; otherwise it is the buffer as it stood when the counter last reached HOP_SIZE, `counter` samples before the end |
| Stft.RunSummary | SpectrumAnalyzerRelay/Source/SpectrumProcessor.cpp:21-33 | buffer, index, counter, cycles and last frame after n samples, in closed form |
| Stft.LatestFrame | SpectrumAnalyzerRelay/Source/SpectrumProcessor.cpp:40-46 | once at least FFT_SIZE samples have been written, a cycle analyses exactly the last FFT_SIZE of them, oldest first |
| Stft.EarlyFrame | SpectrumAnalyzerRelay/Source/SpectrumProcessor.cpp:40-46 | after `prepare`, while fewer than FFT_SIZE samples have been written, a cycle analyses zeros followed by every sample so far |
| Stft.SpectrumProcessor.constructor | SpectrumAnalyzerRelay/Source/SpectrumProcessor.h:38-51 | buffers of FFT_SIZE, 2·FFT_SIZE and NUM_BINS zeros; index 0, counter 0, not ready, rate 44100 |
| Stft.SpectrumProcessor.Prepare | SpectrumAnalyzerRelay/Source/SpectrumProcessor.cpp:10-17 | rate set, index and counter 0, input buffer zero, not ready; working buffer and spectrum untouched |
| Stft.SpectrumProcessor.LoadFrame | SpectrumAnalyzerRelay/Source/SpectrumProcessor.cpp:40-49 | the lower half of the working buffer is the input buffer rotated to oldest-first, times the window; the upper half is left as it was |
| Stft.SpectrumProcessor.Transform | SpectrumAnalyzerRelay/Source/SpectrumProcessor.cpp:52 | the working buffer becomes the transform of its old contents |
| Stft.SpectrumProcessor.Normalise | SpectrumAnalyzerRelay/Source/SpectrumProcessor.cpp:55-61 | the spectrum is `Normalised` of the working buffer |
| Stft.SpectrumProcessor.ProcessFFT | SpectrumAnalyzerRelay/Source/SpectrumProcessor.cpp:37-64 | the analysed frame is the linearised buffer; the working buffer is the transform of the windowed frame over the stale upper half, which is recorded; the spectrum is its normalised first half; ready is set; index, counter and rate are unchanged |
| Stft.SpectrumProcessor.PushSample | SpectrumAnalyzerRelay/Source/SpectrumProcessor.cpp:23-33 | one loop iteration is one `Step` of the stream; with no cycle, ready, the working buffer and the spectrum are unchanged; after a cycle, ready is set and the spectrum is `SpectrumOf` the new frame over the old upper half of the working buffer |
| Stft.SpectrumProcessor.PushSamples | SpectrumAnalyzerRelay/Source/SpectrumProcessor.cpp:21-34 | the sample loop is `Run` of the stream over the first n samples; with no cycle, ready, the working buffer and the spectrum are unchanged; after a cycle ready is set, and when exactly one cycle ran the upper half behind the spectrum is the working buffer's upper half at the start of the loop |
| Stft.SpectrumProcessor.Process | SpectrumAnalyzerRelay/Source/SpectrumProcessor.cpp:19-35 | the buffer is the old one with the block written from the old index; index (old + n) mod FFT_SIZE; counter (old + n) mod HOP_SIZE; (old + n) div HOP_SIZE cycles; with no cycle ready and spectrum unchanged, otherwise ready, the last frame the buffer as it stood at the last completed hop, and the spectrum `SpectrumOf(lastFrame, lastUpper)`: the normalised transform of that frame, windowed, over the upper half of the working buffer as it stood before the last cycle (when exactly one cycle ran, the upper half at the start of the call) |
| Stft.SpectrumProcessor.IsSpectrumReady | SpectrumAnalyzerRelay/Source/SpectrumProcessor.cpp:66-69 | ready iff a cycle ran since the last read or prepare; nothing changes |
| Stft.SpectrumProcessor.GetSampleRate | SpectrumAnalyzerRelay/Source/SpectrumProcessor.h:25 | the rate the last `Prepare` set, 44100 before any (by the constructor's and `Prepare`'s contracts) |
| Stft.SpectrumProcessor.GetSpectrum | SpectrumAnalyzerRelay/Source/SpectrumProcessor.cpp:71-75 | returns the NUM_BINS magnitudes and clears ready; the magnitudes are unchanged, so a second read returns the same data |
| Tracks.CopySize | MultitrackSpectrumAnalyzer/Source/TrackManager.cpp:80 | the copy size is 0 for `numBins` ≤ 0, `numBins` when that is in range, and NUM_BINS from NUM_BINS on |
| Tracks.CopiedIn | MultitrackSpectrumAnalyzer/Source/TrackManager.cpp:107-109 | bins below the copy size take the readings, the rest are unchanged |
| Tracks.Blended | MultitrackSpectrumAnalyzer/Source/TrackManager.cpp:113-118 | each averaged bin lies between its old value and its reading; bins from the copy size on are unchanged |
| Tracks.Aged | MultitrackSpectrumAnalyzer/Source/TrackManager.cpp:138-157 | ageing keeps the id and the spectrum sizes |
| Tracks.UpdateSpectra | MultitrackSpectrumAnalyzer/Source/TrackManager.cpp:107-119 | the copy loop produces `CopiedIn` for raw bins and `CopiedIn` or `Blended` for smoothed bins |
| Tracks.AgeTrack | MultitrackSpectrumAnalyzer/Source/TrackManager.cpp:135-157 | one track of the sweep is aged as `Aged` |
| Tracks.DecaySmoothed | MultitrackSpectrumAnalyzer/Source/TrackManager.cpp:153-156 | the decay loop multiplies every smoothed bin by 0.75 |
| Tracks.SortedKeys | MultitrackSpectrumAnalyzer/Source/TrackManager.h:56 | the map's keys once each, strictly ascending, as the map iterates |
| Tracks.Clamp | MultitrackSpectrumAnalyzer/Source/TrackManager.cpp:242 | the result is in [lo, hi]: v when v is, lo below it and hi above it |
| Tracks.EraseFirst | MultitrackSpectrumAnalyzer/Source/TrackManager.cpp:237-239 | removes one occurrence of x if there is one, and nothing otherwise |
| Tracks.FindFirst | MultitrackSpectrumAnalyzer/Source/TrackManager.cpp:237 | the index of the first occurrence, or the length when absent |
| Tracks.EraseFirstAt | MultitrackSpectrumAnalyzer/Source/TrackManager.cpp:237-239 | erasing at the found index is `EraseFirst` |
| Tracks.PresentIds | MultitrackSpectrumAnalyzer/Source/TrackManager.cpp:182-187 | the listed ids with a track, and only those |
| Tracks.TrackManager.constructor | MultitrackSpectrumAnalyzer/Source/TrackManager.h:56-58 | no tracks, empty order, colour counter 0 |
| Tracks.TrackManager.GetNextColour | MultitrackSpectrumAnalyzer/Source/TrackManager.cpp:246-251 | palette entry counter mod 8; the counter moves on by exactly 1 |
| Tracks.TrackManager.UpdateTrackPresence | MultitrackSpectrumAnalyzer/Source/TrackManager.cpp:18-51 | a new id gets `CreatedByPresence` with palette colour counter mod 8, the counter moves on by 1 and the id is appended to the order; a known id gets only name, rate and update time refreshed, with order and counter unchanged; no track is removed |
| Tracks.TrackManager.UpdateTrack | MultitrackSpectrumAnalyzer/Source/TrackManager.cpp:53-121 | a new id gets `CreatedBySpectrum` with the next palette colour, counter + 1, id appended; a known id gets `Ingested`, order and counter unchanged; no track is removed |
| Tracks.TrackManager.UpdateStaleTrack | MultitrackSpectrumAnalyzer/Source/TrackManager.cpp:123-159 | the same ids remain and each track is aged once from its state at the start of the sweep |
| Tracks.TrackManager.GetActiveTracks | MultitrackSpectrumAnalyzer/Source/TrackManager.cpp:161-172 | every track exactly once, as stored, in ascending id order |
| Tracks.TrackManager.GetActiveTracksOrdered | MultitrackSpectrumAnalyzer/Source/TrackManager.cpp:174-190 | the tracks of the listed ids that have one, in list order |
| Tracks.TrackManager.GetEnabledTracks | MultitrackSpectrumAnalyzer/Source/TrackManager.cpp:192-206 | exactly the enabled tracks, as stored, in ascending id order |
| Tracks.TrackManager.GetTrackCount | MultitrackSpectrumAnalyzer/Source/TrackManager.cpp:208-212 | the number of tracks, which is the number of colours drawn |
| Tracks.TrackManager.SetTrackEnabled | MultitrackSpectrumAnalyzer/Source/TrackManager.cpp:214-221 | only that track's switch changes; unknown ids change nothing |
| Tracks.TrackManager.SetTrackColour | MultitrackSpectrumAnalyzer/Source/TrackManager.cpp:223-230 | only that track's colour changes; unknown ids change nothing |
| Tracks.TrackManager.ReorderTrack | MultitrackSpectrumAnalyzer/Source/TrackManager.cpp:232-244 | the order becomes `Reordered`: first occurrence erased, index clamped to [0, len], id inserted there |
| Tracks.ReorderedMultiset | MultitrackSpectrumAnalyzer/Source/TrackManager.cpp:236-243 | a reorder removes at most one occurrence of the id and adds exactly one |
| Tracks.ReorderedKeeps | MultitrackSpectrumAnalyzer/Source/TrackManager.cpp:236-243 | a reorder drops no id |
| Tracks.ReorderedMembers | MultitrackSpectrumAnalyzer/Source/TrackManager.cpp:236-243 | after a reorder the list holds exactly the old ids plus the id |
| Tracks.ReorderedShape | MultitrackSpectrumAnalyzer/Source/TrackManager.cpp:236-243 | the length is kept when the id was listed and grows by one otherwise; the id sits at the clamped index |
| Tracks.LookupFacts | MultitrackSpectrumAnalyzer/Source/TrackManager.cpp:168-169 | looking up the keys in ascending order gives every track once, as stored, ascending by id |
| Tracks.EnabledFacts | MultitrackSpectrumAnalyzer/Source/TrackManager.cpp:199-203 | filtering ascending ids by the switch gives exactly the enabled tracks, ascending |
| Tracks.SnapshotAppend | MultitrackSpectrumAnalyzer/Source/TrackManager.cpp:182-187 | one more listed id adds its track at the end, if it has one |
| Tracks.SnapshotOfCompleteOrder | MultitrackSpectrumAnalyzer/Source/TrackManager.cpp:182-187 | when every listed id has a track, the ordered snapshot is the list's tracks, position by position |
| Tracks.ReorderUnlistedThenCreated | MultitrackSpectrumAnalyzer/Source/TrackManager.cpp:232-244 | reordering an unlisted id and then creating its track (which appends the id) shows that track twice in the ordered snapshot: at the clamped index and at the end |
| Tracks.ReorderPlacesTrack | MultitrackSpectrumAnalyzer/Source/TrackManager.cpp:232-244 | reordering a listed id shows its track at clamp(k, 0, count − 1) in the ordered snapshot |
| Tracks.CreatedByPresenceFacts | MultitrackSpectrumAnalyzer/Source/TrackManager.cpp:25-42 | a track created by a heartbeat is Active, enabled, has no spectrum time and all-zero spectra of NUM_BINS bins |
| Tracks.CreatedBySpectrumFacts | MultitrackSpectrumAnalyzer/Source/TrackManager.cpp:66-91 | a track created by a spectrum is Active and enabled; both spectra equal the readings below the copy size and are zero beyond |
| Tracks.RefreshedKeeps | MultitrackSpectrumAnalyzer/Source/TrackManager.cpp:43-50 | a heartbeat for a known track keeps its status (an Offline track stays Offline), spectra, switch, colour and spectrum time |
| Tracks.IngestedFacts | MultitrackSpectrumAnalyzer/Source/TrackManager.cpp:92-120 | a spectrum for a known track makes it Active. Below the copy size, raw bins take the readings, and smoothed bins take them too after Offline or become 0.25·reading + 0.75·old otherwise. From the copy size on, both spectra are unchanged |
| Tracks.EmaLaw | MultitrackSpectrumAnalyzer/Source/TrackManager.cpp:113-118 | after a run of spectra with no Offline transition, each smoothed bin is the moving average of that bin's readings |
| Tracks.EmaStaysInRange | MultitrackSpectrumAnalyzer/Source/TrackManager.cpp:116-118 | the moving average of readings in [lo, hi] from a start in [lo, hi] stays in it |
| Tracks.EmaConverges | MultitrackSpectrumAnalyzer/Source/TrackManager.cpp:116-118 | under a constant reading the gap to it after n steps is 0.75^n times the initial gap |
| Tracks.DecayedTimesPower | MultitrackSpectrumAnalyzer/Source/TrackManager.cpp:153-156 | n decays multiply a bin by 0.75^n |
| Tracks.OfflineDecay | MultitrackSpectrumAnalyzer/Source/TrackManager.cpp:150-157 | an Offline track stays Offline under sweeps, everything but its smoothed bins is unchanged, and each sweep multiplies every smoothed bin by 0.75 once, whatever the sweep times |
| Tracks.NeverSeenNeverOffline | MultitrackSpectrumAnalyzer/Source/TrackManager.cpp:138-143 | a track that never received a spectrum is never changed by sweeps |
| Tracks.OfflineThenRecover | MultitrackSpectrumAnalyzer/Source/TrackManager.cpp:143-148 | a timed-out track goes Offline with zero raw bins and unchanged smoothed bins, and the next spectrum makes it Active with smoothed bins reset to the readings |
| Tracks.TimeoutBoundary | MultitrackSpectrumAnalyzer/Source/TrackManager.cpp:143 | an Active track with spectra is untouched up to exactly TRACK_TIMEOUT_MS after its last spectrum and Offline after that |
| Tracks.FirstSpectrumAfterHeartbeat | MultitrackSpectrumAnalyzer/Source/TrackManager.cpp:113-118 | after a heartbeat created the track, the first spectrum leaves each smoothed bin at a quarter of its reading |

## Left out

- Float rounding: spectra, sample rates, the stereo average and the
  smoothing and decay arithmetic are `real`. The single-precision casts of
  the sample rate in both messages are not modelled.
- The Hann window and the forward transform are library calls. They are
  constructor parameters (`window`, `transform`), and nothing spectral is
  proved about them.
- Network I/O: connecting, sending and receiving UDP datagrams. The outcome
  of connecting is the parameter `connectOk`, and sending appends to `sent`.
- Locks, the atomic flags and the timers: each call is one atomic step. The
  heartbeat timer (`HEARTBEAT_INTERVAL_MS`, not defined in the shared
  constants) and the viewer's timer callback are not modelled.
- XML: `getXmlFromBinary` becomes an optional `StoredState` of optional
  attributes. `None` stands for data that does not parse or carries another
  tag. `getStateInformation`, which only writes the attributes out through
  the XML library, is not modelled.
- `getEffectiveTrackName` is not part of this model. Both senders take the
  effective name as a parameter.
- Audio passthrough and the clearing of unused output channels in
  `processBlock` do not affect the analysis and are not modelled.
- The viewer does not feed decoded updates into the registry, because the
  call signatures do not match. `Receiver.Decode` returns the update, and
  the registry methods are modelled on their own.
- Tracks.TrackManager.GetNextColour: the counter is a `nat`, so the `int`
  overflow after 2^31 tracks is not modelled.
- Stft.SpectrumProcessor.GetSpectrum: does not state that the magnitudes
  lie in 0..1, as the header comment says, because the transform is a
  parameter about which nothing spectral is assumed.
- Relay.RelayProcessor.ProcessBlock: the sample count is a `nat`, because
  an audio buffer never reports a negative count; `Stft.SpectrumProcessor.Process`
  itself treats a negative count as an empty block.
- Stft.SpectrumProcessor.Process: in a block that runs two or more cycles,
  the contract gives the spectrum as `SpectrumOf(lastFrame, lastUpper)` but
  does not spell out `lastUpper` in terms of the working buffer at the start
  of the call: it is the previous cycle's transform output, and stating it
  would need the whole chain of transforms. With exactly one cycle it is
  stated. `PushSamples`, `Relay.RelayProcessor.AnalyseSignal`,
  `Relay.RelayProcessor.AnalyseBlock` and `Relay.RelayProcessor.ProcessBlock`
  have the same gap.
- Relay.InitialSettings: the constructor sets only the id and the two
  names (`PluginProcessor.cpp:15-21`); relay on comes from
  `relayEnabled { true }` (`PluginProcessor.h:51`). The initial port
  `DEFAULT_OSC_PORT` and custom name off are assumed, because the field
  declarations that would give those defaults are not part of this model.
- Relay.RelayProcessor.constructor: starts from `InitialSettings`, so the
  same assumed port and custom-name defaults apply; not connected is assumed
  as well, for the same reason.
- `juce::String` is a sequence of code points. Map iteration order is
  lexicographic order on code points (`Tracks.StrLess`).
