/**
 * The viewer's track registry (TrackManager.h / TrackManager.cpp): a
 * create-or-update map from track id to per-track state, an ordered id list
 * for display, and a colour counter. Each public operation runs under one
 * lock in the source; here each method is one atomic step, and the clock
 * reading is the parameter `now`.
 */
module Tracks {
  import opened SpectrumConstants

  datatype TrackStatus = Active | Offline

  /** A 32-bit ARGB colour (`juce::Colour`). */
  newtype Colour = x: int | 0 <= x < 0x1_0000_0000

  /** The fixed palette new tracks draw from, in order. */
  const Palette: seq<Colour> :=
    [0xff4fc3f7, 0xffef5350, 0xff66bb6a, 0xffffca28,
     0xffab47bc, 0xffff7043, 0xff26c6da, 0xffec407a]

  /** Per-track state; the two spectra are value arrays of `NUM_BINS` bins. */
  datatype TrackData = TrackData(
    trackId: string,
    trackName: string,
    sampleRate: real,
    colour: Colour,
    lastUpdateTime: int,
    lastSpectrumTime: int,
    status: TrackStatus,
    spectrum: seq<real>,
    smoothedSpectrum: seq<real>,
    enabled: bool)

  /** Weight of a new reading in the moving average. */
  const SMOOTHING_FACTOR: real := 0.25
  /** Factor applied to the smoothed bins of an Offline track on every sweep. */
  const DECAY_FACTOR: real := 0.75

  function Zeros(n: nat): (r: seq<real>)
    ensures |r| == n && forall i :: 0 <= i < n ==> r[i] == 0.0
  {
    seq(n, _ => 0.0)
  }

  /** A value-initialised `TrackData`: the defaults of its field initialisers. */
  const DefaultTrack: TrackData :=
    TrackData("", "", 0.0, 0, 0, 0, Active, Zeros(NUM_BINS), Zeros(NUM_BINS), true)

  predicate WellFormed(t: TrackData) {
    |t.spectrum| == NUM_BINS && |t.smoothedSpectrum| == NUM_BINS
  }

  /** `jmin(numBins, NUM_BINS)` as a loop bound: a negative count copies nothing. */
  function CopySize(numBins: int): (c: nat)
    ensures c <= NUM_BINS
    ensures 0 <= numBins ==> c <= numBins
    ensures c < NUM_BINS ==> c == numBins || (c == 0 && numBins < 0)
    ensures numBins <= 0 ==> c == 0
    ensures NUM_BINS <= numBins ==> c == NUM_BINS
  {
    if numBins <= 0 then 0 else if numBins < NUM_BINS then numBins else NUM_BINS
  }

  /** Bins after the first `copySize` readings of `data` are written over them. */
  function CopiedIn(bins: seq<real>, data: seq<real>, copySize: nat): (r: seq<real>)
    requires copySize <= |bins| && copySize <= |data|
    ensures |r| == |bins|
    ensures forall i :: 0 <= i < copySize ==> r[i] == data[i]
    ensures forall i :: copySize <= i < |bins| ==> r[i] == bins[i]
  {
    data[..copySize] + bins[copySize..]
  }

  /** One step of the exponential moving average. */
  function Ema(previous: real, reading: real): real {
    SMOOTHING_FACTOR * reading + (1.0 - SMOOTHING_FACTOR) * previous
  }

  /**
   * Smoothed bins after the readings in `data` are averaged into the first
   * `copySize` of them. Each such bin moves towards its reading and stays
   * between its old value and the reading; the others are untouched.
   */
  function Blended(smoothed: seq<real>, data: seq<real>, copySize: nat): (r: seq<real>)
    requires copySize <= |smoothed| && copySize <= |data|
    ensures |r| == |smoothed|
    ensures forall i :: 0 <= i < copySize ==>
              (smoothed[i] <= data[i] ==> smoothed[i] <= r[i] <= data[i]) &&
              (data[i] <= smoothed[i] ==> data[i] <= r[i] <= smoothed[i])
    ensures forall i :: copySize <= i < |smoothed| ==> r[i] == smoothed[i]
  {
    seq(|smoothed|, i requires 0 <= i < |smoothed| =>
      if i < copySize then Ema(smoothed[i], data[i]) else smoothed[i])
  }

  /** Every smoothed bin multiplied by the decay factor. */
  function Decayed(smoothed: seq<real>): (r: seq<real>)
    ensures |r| == |smoothed|
  {
    seq(|smoothed|, i requires 0 <= i < |smoothed| => DECAY_FACTOR * smoothed[i])
  }

  /** A track first seen through a heartbeat: no spectrum yet. */
  function CreatedByPresence(id: string, name: string, sampleRate: real, colour: Colour, now: int): TrackData {
    DefaultTrack.(trackId := id, trackName := name, sampleRate := sampleRate, colour := colour,
                  lastUpdateTime := now, lastSpectrumTime := 0, status := Active, enabled := true)
  }

  /** A track first seen through a spectrum: both spectra start equal to the readings. */
  function CreatedBySpectrum(id: string, name: string, data: seq<real>, numBins: int, sampleRate: real,
                             colour: Colour, now: int): TrackData
    requires CopySize(numBins) <= |data|
  {
    var c := CopySize(numBins);
    DefaultTrack.(trackId := id, trackName := name, sampleRate := sampleRate, colour := colour,
                  lastUpdateTime := now, lastSpectrumTime := now, status := Active, enabled := true,
                  spectrum := CopiedIn(Zeros(NUM_BINS), data, c),
                  smoothedSpectrum := CopiedIn(Zeros(NUM_BINS), data, c))
  }

  /** A heartbeat for a known track refreshes name, rate and update time, and nothing else. */
  function Refreshed(t: TrackData, name: string, sampleRate: real, now: int): TrackData {
    t.(trackName := name, sampleRate := sampleRate, lastUpdateTime := now)
  }

  /**
   * A spectrum for a known track: it becomes Active, the raw bins take the
   * readings, and the smoothed bins are reset to the readings when the track
   * was Offline and averaged with them otherwise.
   */
  function Ingested(t: TrackData, name: string, data: seq<real>, numBins: int, sampleRate: real, now: int): TrackData
    requires WellFormed(t) && CopySize(numBins) <= |data|
  {
    var c := CopySize(numBins);
    t.(trackName := name, sampleRate := sampleRate, lastUpdateTime := now, lastSpectrumTime := now,
       status := Active,
       spectrum := CopiedIn(t.spectrum, data, c),
       smoothedSpectrum := if t.status == Offline then CopiedIn(t.smoothedSpectrum, data, c)
                           else Blended(t.smoothedSpectrum, data, c))
  }

  /** Spectrum data has been received and none for more than the timeout. */
  predicate TimedOut(t: TrackData, now: int) {
    t.lastSpectrumTime > 0 && now - t.lastSpectrumTime > TRACK_TIMEOUT_MS
  }

  /**
   * One track in one ageing sweep: an Active track that timed out goes
   * Offline with its raw bins zeroed and its smoothed bins kept; a track that
   * was already Offline has its smoothed bins decayed.
   */
  function Aged(t: TrackData, now: int): (r: TrackData)
    ensures r.trackId == t.trackId && (WellFormed(t) ==> WellFormed(r))
  {
    if t.status == Active then
      if TimedOut(t, now) then t.(status := Offline, spectrum := Zeros(NUM_BINS)) else t
    else
      t.(smoothedSpectrum := Decayed(t.smoothedSpectrum))
  }

  // ---------------------------------------------------------------------
  // The element-wise loops over spectrum arrays.

  /**
   * The copy loop of a spectrum update: raw bins take the readings, smoothed
   * bins take them too when `reset`, and are averaged with them otherwise.
   * A new track runs the same loop on zeroed arrays with `reset`.
   */
  method UpdateSpectra(raw: seq<real>, smoothed: seq<real>, data: seq<real>, copySize: nat, reset: bool)
    returns (raw': seq<real>, smoothed': seq<real>)
    requires |raw| == NUM_BINS && |smoothed| == NUM_BINS
    requires copySize <= NUM_BINS && copySize <= |data|
    ensures raw' == CopiedIn(raw, data, copySize)
    ensures smoothed' == if reset then CopiedIn(smoothed, data, copySize) else Blended(smoothed, data, copySize)
  {
    raw', smoothed' := raw, smoothed;
    var i := 0;
    while i < copySize
      invariant 0 <= i <= copySize
      invariant |raw'| == NUM_BINS && |smoothed'| == NUM_BINS
      invariant forall j :: 0 <= j < i ==> raw'[j] == data[j]
      invariant forall j :: i <= j < NUM_BINS ==> raw'[j] == raw[j]
      invariant forall j :: 0 <= j < i ==> smoothed'[j] == if reset then data[j] else Ema(smoothed[j], data[j])
      invariant forall j :: i <= j < NUM_BINS ==> smoothed'[j] == smoothed[j]
    {
      raw' := raw'[i := data[i]];
      if reset {
        smoothed' := smoothed'[i := data[i]];
      } else {
        smoothed' := smoothed'[i := SMOOTHING_FACTOR * data[i] + (1.0 - SMOOTHING_FACTOR) * smoothed'[i]];
      }
      i := i + 1;
    }
    assert raw' == CopiedIn(raw, data, copySize);
    if reset {
      assert smoothed' == CopiedIn(smoothed, data, copySize);
    } else {
      assert smoothed' == Blended(smoothed, data, copySize);
    }
  }

  /** One track of the ageing sweep: time out an Active track, or decay an Offline one. */
  method AgeTrack(track: TrackData, now: int) returns (aged: TrackData)
    ensures aged == Aged(track, now)
  {
    aged := track;
    if aged.status == Active {
      if aged.lastSpectrumTime > 0 && now - aged.lastSpectrumTime > TRACK_TIMEOUT_MS {
        aged := aged.(status := Offline, spectrum := Zeros(NUM_BINS));
      }
    } else if aged.status == Offline {
      var decayed := DecaySmoothed(aged.smoothedSpectrum);
      aged := aged.(smoothedSpectrum := decayed);
    }
  }

  /** The decay loop of the sweep for an Offline track. */
  method DecaySmoothed(smoothed: seq<real>) returns (r: seq<real>)
    ensures r == Decayed(smoothed)
  {
    r := smoothed;
    var i := 0;
    while i < |r|
      invariant 0 <= i <= |r| == |smoothed|
      invariant forall j :: 0 <= j < i ==> r[j] == DECAY_FACTOR * smoothed[j]
      invariant forall j :: i <= j < |r| ==> r[j] == smoothed[j]
    {
      r := r[i := r[i] * DECAY_FACTOR];
      i := i + 1;
    }
  }

  // ---------------------------------------------------------------------
  // Order of ids: `juce::String` comparison, by which `std::map` iterates.

  /** Lexicographic order on code points; a proper prefix comes first. */
  predicate StrLess(a: string, b: string)
    decreases |a|
  {
    if a == [] then b != []
    else b != [] && (a[0] < b[0] || (a[0] == b[0] && StrLess(a[1..], b[1..])))
  }

  lemma {:induction false} StrLessIrreflexive(a: string)
    ensures !StrLess(a, a)
    decreases |a|
  {
    if a != [] {
      StrLessIrreflexive(a[1..]);
    }
  }

  lemma {:induction false} StrLessTransitive(a: string, b: string, c: string)
    requires StrLess(a, b) && StrLess(b, c)
    ensures StrLess(a, c)
    decreases |a|
  {
    if a != [] && a[0] == b[0] && b[0] == c[0] {
      StrLessTransitive(a[1..], b[1..], c[1..]);
    }
  }

  lemma {:induction false} StrLessTotal(a: string, b: string)
    requires a != b
    ensures StrLess(a, b) || StrLess(b, a)
    decreases |a|
  {
    if a != [] && b != [] && a[0] == b[0] {
      assert a == [a[0]] + a[1..] && b == [b[0]] + b[1..];
      StrLessTotal(a[1..], b[1..]);
    }
  }

  /** `m` is the least id of `s`. */
  predicate IsLeast(m: string, s: set<string>) {
    m in s && forall x :: x in s && x != m ==> StrLess(m, x)
  }

  /** A non-empty finite set of ids has a least element. */
  lemma {:induction false} LeastExists(s: set<string>)
    requires s != {}
    ensures exists m :: IsLeast(m, s)
    decreases |s|
  {
    var x :| x in s;
    if s == {x} {
      assert IsLeast(x, s);
    } else {
      var rest := s - {x};
      LeastExists(rest);
      var m :| IsLeast(m, rest);
      StrLessTotal(x, m);
      if StrLess(x, m) {
        forall y | y in s && y != x
          ensures StrLess(x, y)
        {
          if y != m {
            StrLessTransitive(x, m, y);
          }
        }
        assert IsLeast(x, s);
      } else {
        assert IsLeast(m, s);
      }
    }
  }

  /** The keys of a map in the order `std::map` visits them: ascending, each once. */
  method SortedKeys(keys: set<string>) returns (ks: seq<string>)
    ensures forall k :: k in keys <==> k in ks
    ensures forall i, j :: 0 <= i < j < |ks| ==> StrLess(ks[i], ks[j])
    ensures |ks| == |keys|
  {
    ks := [];
    var rest := keys;
    while rest != {}
      invariant rest <= keys
      invariant forall k :: k in keys <==> k in ks || k in rest
      invariant forall k :: k in ks ==> k !in rest
      invariant forall i, j :: 0 <= i < j < |ks| ==> StrLess(ks[i], ks[j])
      invariant forall i, k :: 0 <= i < |ks| && k in rest ==> StrLess(ks[i], k)
      invariant |ks| + |rest| == |keys|
      decreases |rest|
    {
      LeastExists(rest);
      var m :| IsLeast(m, rest);
      ks := ks + [m];
      rest := rest - {m};
    }
  }

  // ---------------------------------------------------------------------
  // The display order list.

  /** `jlimit(lo, hi, v)`. */
  function Clamp(v: int, lo: int, hi: int): (r: int)
    requires lo <= hi
    ensures lo <= r <= hi
    ensures lo <= v <= hi ==> r == v
    ensures v < lo ==> r == lo
    ensures hi < v ==> r == hi
  {
    if v < lo then lo else if v > hi then hi else v
  }

  /** The list with the first occurrence of `x` removed, if any. */
  function EraseFirst(s: seq<string>, x: string): (r: seq<string>)
    ensures x !in s ==> r == s
    ensures x in s ==> |r| == |s| - 1
    ensures multiset(r) == multiset(s) - multiset{x}
  {
    if s == [] then []
    else
      assert s == [s[0]] + s[1..];
      if s[0] == x then s[1..]
      else [s[0]] + EraseFirst(s[1..], x)
  }

  /** `reorderTrack`: erase the first occurrence, clamp the index, insert there. */
  function Reordered(order: seq<string>, id: string, newIndex: int): seq<string> {
    var rest := EraseFirst(order, id);
    var k := Clamp(newIndex, 0, |rest|);
    rest[..k] + [id] + rest[k..]
  }

  /** The ids of the list that have a track, in list order. */
  function PresentIds(order: seq<string>, tracks: map<string, TrackData>): (r: seq<string>)
    ensures |r| <= |order|
    ensures forall id :: id in r <==> id in order && id in tracks
  {
    if order == [] then []
    else if order[0] in tracks then [order[0]] + PresentIds(order[1..], tracks)
    else PresentIds(order[1..], tracks)
  }

  /** The tracks of the ids, in the order of the ids. */
  function Lookup(ids: seq<string>, tracks: map<string, TrackData>): (r: seq<TrackData>)
    requires forall id :: id in ids ==> id in tracks
  {
    seq(|ids|, i requires 0 <= i < |ids| => tracks[ids[i]])
  }

  /** The enabled tracks of the ids, in the order of the ids. */
  function EnabledOf(ids: seq<string>, tracks: map<string, TrackData>): (r: seq<TrackData>)
    requires forall id :: id in ids ==> id in tracks
  {
    if ids == [] then []
    else
      var last := ids[|ids| - 1];
      EnabledOf(ids[..|ids| - 1], tracks) + (if tracks[last].enabled then [tracks[last]] else [])
  }

  /** Every entry is keyed by its own id. */
  predicate Keyed(tracks: map<string, TrackData>) {
    forall id :: id in tracks ==> tracks[id].trackId == id
  }

  /** Ids in strictly ascending order. */
  predicate Ascending(ids: seq<string>) {
    forall i, j :: 0 <= i < j < |ids| ==> StrLess(ids[i], ids[j])
  }

  /** `getActiveTracksOrdered`: the tracks of the list's ids, in list order. */
  function OrderedSnapshot(order: seq<string>, tracks: map<string, TrackData>): (r: seq<TrackData>) {
    var ids := PresentIds(order, tracks);
    seq(|ids|, i requires 0 <= i < |ids| => tracks[ids[i]])
  }

  // ---------------------------------------------------------------------
  // The registry.

  class TrackManager {
    var tracks: map<string, TrackData>
    var customTrackOrder: seq<string>
    var colourIndex: nat

    /**
     * Every entry is keyed by its own id and has full-size spectra; one colour
     * has been drawn per track ever created and none is ever removed; every
     * track's id is in the display order list.
     */
    ghost predicate Valid()
      reads this
    {
      && (forall id :: id in tracks ==> tracks[id].trackId == id && WellFormed(tracks[id]))
      && colourIndex == |tracks|
      && (forall id :: id in tracks ==> id in customTrackOrder)
    }

    constructor ()
      ensures Valid()
      ensures tracks == map[] && customTrackOrder == [] && colourIndex == 0
    {
      tracks := map[];
      customTrackOrder := [];
      colourIndex := 0;
    }

    /** The palette entry of the counter, wrapping after 8; the counter moves on by one. */
    method GetNextColour() returns (colour: Colour)
      modifies this`colourIndex
      ensures colour == Palette[old(colourIndex) % |Palette|]
      ensures colourIndex == old(colourIndex) + 1
    {
      colour := Palette[colourIndex % |Palette|];
      colourIndex := colourIndex + 1;
    }

    /** Heartbeat intake: create the track, or refresh name, rate and update time. */
    method UpdateTrackPresence(trackId: string, trackName: string, sampleRate: real, now: int)
      requires Valid()
      modifies this
      ensures Valid()
      ensures trackId in old(tracks) ==>
                && tracks == old(tracks)[trackId := Refreshed(old(tracks)[trackId], trackName, sampleRate, now)]
                && customTrackOrder == old(customTrackOrder)
                && colourIndex == old(colourIndex)
      ensures trackId !in old(tracks) ==>
                && tracks == old(tracks)[trackId := CreatedByPresence(trackId, trackName, sampleRate,
                                                                      Palette[old(colourIndex) % |Palette|], now)]
                && customTrackOrder == old(customTrackOrder) + [trackId]
                && colourIndex == old(colourIndex) + 1
    {
      if trackId !in tracks {
        var colour := GetNextColour();
        var newTrack := DefaultTrack.(trackId := trackId, trackName := trackName, sampleRate := sampleRate,
                                      colour := colour, lastUpdateTime := now, lastSpectrumTime := 0,
                                      status := Active, enabled := true);
        tracks := tracks[trackId := newTrack];
        customTrackOrder := customTrackOrder + [trackId];
      } else {
        var track := tracks[trackId];
        track := track.(trackName := trackName, sampleRate := sampleRate, lastUpdateTime := now);
        tracks := tracks[trackId := track];
      }
    }

    /** Spectrum intake: create the track from the readings, or ingest them into it. */
    method UpdateTrack(trackId: string, trackName: string, spectrumData: seq<real>, numBins: int,
                       sampleRate: real, now: int)
      requires Valid()
      requires CopySize(numBins) <= |spectrumData|
      modifies this
      ensures Valid()
      ensures trackId in old(tracks) ==>
                && tracks == old(tracks)[trackId := Ingested(old(tracks)[trackId], trackName, spectrumData,
                                                              numBins, sampleRate, now)]
                && customTrackOrder == old(customTrackOrder)
                && colourIndex == old(colourIndex)
      ensures trackId !in old(tracks) ==>
                && tracks == old(tracks)[trackId := CreatedBySpectrum(trackId, trackName, spectrumData, numBins,
                                                                      sampleRate, Palette[old(colourIndex) % |Palette|], now)]
                && customTrackOrder == old(customTrackOrder) + [trackId]
                && colourIndex == old(colourIndex) + 1
    {
      var copySize := CopySize(numBins);
      if trackId !in tracks {
        var colour := GetNextColour();
        var raw, smoothed := UpdateSpectra(Zeros(NUM_BINS), Zeros(NUM_BINS), spectrumData, copySize, true);
        var newTrack := DefaultTrack.(trackId := trackId, trackName := trackName, sampleRate := sampleRate,
                                      colour := colour, lastUpdateTime := now, lastSpectrumTime := now,
                                      status := Active, enabled := true,
                                      spectrum := raw, smoothedSpectrum := smoothed);
        tracks := tracks[trackId := newTrack];
        customTrackOrder := customTrackOrder + [trackId];
      } else {
        var track := tracks[trackId];
        track := track.(trackName := trackName, sampleRate := sampleRate,
                        lastUpdateTime := now, lastSpectrumTime := now);
        var wasOffline := track.status == Offline;
        if wasOffline {
          track := track.(status := Active);
        }
        var raw, smoothed := UpdateSpectra(track.spectrum, track.smoothedSpectrum, spectrumData, copySize, wasOffline);
        track := track.(spectrum := raw, smoothedSpectrum := smoothed);
        tracks := tracks[trackId := track];
      }
    }

    /** The ageing sweep at time `now`: every track aged once, none removed. */
    method UpdateStaleTrack(now: int)
      requires Valid()
      modifies this`tracks
      ensures Valid()
      ensures tracks.Keys == old(tracks).Keys
      ensures forall id :: id in tracks ==> tracks[id] == Aged(old(tracks)[id], now)
    {
      ghost var before := tracks;
      var remaining := tracks.Keys;
      while remaining != {}
        invariant remaining <= before.Keys && tracks.Keys == before.Keys
        invariant forall id :: id in tracks ==>
                    tracks[id] == if id in remaining then before[id] else Aged(before[id], now)
        decreases |remaining|
      {
        var id :| id in remaining;
        var track := AgeTrack(tracks[id], now);
        tracks := tracks[id := track];
        remaining := remaining - {id};
      }
      assert |tracks| == |tracks.Keys| == |before.Keys| == |before|;
    }

    /** Snapshot of every track, in ascending id order (the map's order). */
    method GetActiveTracks() returns (result: seq<TrackData>)
      requires Valid()
      ensures |result| == |tracks|
      ensures forall id :: id in tracks ==> tracks[id] in result
      ensures forall t :: t in result ==> t.trackId in tracks && tracks[t.trackId] == t
      ensures forall i, j :: 0 <= i < j < |result| ==> StrLess(result[i].trackId, result[j].trackId)
    {
      var ids := SortedKeys(tracks.Keys);
      result := [];
      var i := 0;
      while i < |ids|
        invariant 0 <= i <= |ids| && |result| == i
        invariant forall j :: 0 <= j < i ==> result[j] == tracks[ids[j]]
      {
        result := result + [tracks[ids[i]]];
        i := i + 1;
      }
      assert result == Lookup(ids, tracks);
      LookupFacts(ids, tracks);
    }

    /** Snapshot of the tracks in display order: listed ids that have a track, in list order. */
    method GetActiveTracksOrdered() returns (result: seq<TrackData>)
      requires Valid()
      ensures result == OrderedSnapshot(customTrackOrder, tracks)
    {
      result := [];
      var i := 0;
      while i < |customTrackOrder|
        invariant 0 <= i <= |customTrackOrder|
        invariant result == OrderedSnapshot(customTrackOrder[..i], tracks)
      {
        var id := customTrackOrder[i];
        SnapshotAppend(customTrackOrder[..i], id, tracks);
        assert customTrackOrder[..i + 1] == customTrackOrder[..i] + [id];
        if id in tracks {
          result := result + [tracks[id]];
        }
        i := i + 1;
      }
      assert customTrackOrder[..i] == customTrackOrder;
    }

    /** Snapshot of the enabled tracks, in ascending id order. */
    method GetEnabledTracks() returns (result: seq<TrackData>)
      requires Valid()
      ensures forall id :: id in tracks && tracks[id].enabled ==> tracks[id] in result
      ensures forall t :: t in result ==> t.enabled && t.trackId in tracks && tracks[t.trackId] == t
      ensures forall i, j :: 0 <= i < j < |result| ==> StrLess(result[i].trackId, result[j].trackId)
    {
      var ids := SortedKeys(tracks.Keys);
      result := [];
      var i := 0;
      while i < |ids|
        invariant 0 <= i <= |ids|
        invariant result == EnabledOf(ids[..i], tracks)
      {
        assert ids[..i + 1][..i] == ids[..i];
        var track := tracks[ids[i]];
        if track.enabled {
          result := result + [track];
        }
        i := i + 1;
      }
      assert ids[..i] == ids;
      EnabledFacts(ids, tracks);
    }

    method GetTrackCount() returns (count: int)
      requires Valid()
      ensures count == |tracks| == colourIndex
    {
      count := |tracks|;
    }

    /** Display toggle of one track; unknown ids are ignored. */
    method SetTrackEnabled(trackId: string, enabled: bool)
      requires Valid()
      modifies this`tracks
      ensures Valid()
      ensures tracks == if trackId in old(tracks) then old(tracks)[trackId := old(tracks)[trackId].(enabled := enabled)]
                        else old(tracks)
    {
      if trackId in tracks {
        tracks := tracks[trackId := tracks[trackId].(enabled := enabled)];
      }
    }

    /** Colour of one track; unknown ids are ignored. */
    method SetTrackColour(trackId: string, colour: Colour)
      requires Valid()
      modifies this`tracks
      ensures Valid()
      ensures tracks == if trackId in old(tracks) then old(tracks)[trackId := old(tracks)[trackId].(colour := colour)]
                        else old(tracks)
    {
      if trackId in tracks {
        tracks := tracks[trackId := tracks[trackId].(colour := colour)];
      }
    }

    /** Moves an id in the display order; an id not in the list is inserted. */
    method ReorderTrack(trackId: string, newIndex: int)
      requires Valid()
      modifies this`customTrackOrder
      ensures Valid()
      ensures customTrackOrder == Reordered(old(customTrackOrder), trackId, newIndex)
    {
      var order := customTrackOrder;
      var at := FindFirst(order, trackId);
      if at < |order| {
        EraseFirstAt(order, trackId, at);
        order := order[..at] + order[at + 1..];
      }
      assert order == EraseFirst(old(customTrackOrder), trackId);
      var k := Clamp(newIndex, 0, |order|);
      customTrackOrder := order[..k] + [trackId] + order[k..];
      ReorderedKeeps(old(customTrackOrder), trackId, newIndex);
    }
  }

  /** `std::find`: index of the first occurrence, or the length when absent. */
  method FindFirst(s: seq<string>, x: string) returns (i: nat)
    ensures i <= |s| && x !in s[..i]
    ensures i < |s| ==> s[i] == x
    ensures i == |s| ==> x !in s
  {
    i := 0;
    while i < |s| && s[i] != x
      invariant 0 <= i <= |s| && x !in s[..i]
    {
      assert s[..i + 1] == s[..i] + [s[i]];
      i := i + 1;
    }
    assert i == |s| ==> s[..i] == s;
  }

  // ---------------------------------------------------------------------
  // Properties of the display order.

  lemma {:induction false} EraseFirstAt(s: seq<string>, x: string, i: nat)
    requires i < |s| && s[i] == x && x !in s[..i]
    ensures EraseFirst(s, x) == s[..i] + s[i + 1..]
    decreases i
  {
    if i > 0 {
      assert s[0] != x by { assert s[0] == s[..i][0]; }
      assert x !in s[1..][..i - 1] by { assert s[1..][..i - 1] == s[..i][1..]; }
      EraseFirstAt(s[1..], x, i - 1);
      assert s[..i] == [s[0]] + s[1..][..i - 1];
    }
  }

  /** Inserting `x` at index `k` adds one `x` to the multiset of the list. */
  lemma InsertedMultiset(s: seq<string>, x: string, k: nat)
    requires k <= |s|
    ensures multiset(s[..k] + [x] + s[k..]) == multiset(s) + multiset{x}
  {
    assert s == s[..k] + s[k..];
  }

  /** A reorder takes out one occurrence of `id`, if any, and puts one back. */
  lemma ReorderedMultiset(order: seq<string>, id: string, newIndex: int)
    ensures multiset(Reordered(order, id, newIndex)) == multiset(order) - multiset{id} + multiset{id}
  {
    var rest := EraseFirst(order, id);
    InsertedMultiset(rest, id, Clamp(newIndex, 0, |rest|));
  }

  /** A reorder drops no id from the list. */
  lemma ReorderedKeeps(order: seq<string>, id: string, newIndex: int)
    ensures forall x :: x in order ==> x in Reordered(order, id, newIndex)
  {
    var r := Reordered(order, id, newIndex);
    ReorderedMultiset(order, id, newIndex);
    forall x | x in order
      ensures x in r
    {
      assert x in multiset(order);
      assert x in multiset(r);
    }
  }

  /** After a reorder the list holds the same ids plus `id`. */
  lemma ReorderedMembers(order: seq<string>, id: string, newIndex: int)
    ensures forall x :: x in Reordered(order, id, newIndex) <==> x in order || x == id
  {
    var r := Reordered(order, id, newIndex);
    ReorderedKeeps(order, id, newIndex);
    ReorderedMultiset(order, id, newIndex);
    forall x | x in r
      ensures x in order || x == id
    {
      assert x in multiset(r);
    }
  }

  /** A reorder keeps the length of a list that holds `id`, grows it by one otherwise, and puts `id` at the clamped index. */
  lemma ReorderedShape(order: seq<string>, id: string, newIndex: int)
    ensures |Reordered(order, id, newIndex)| == (if id in order then |order| else |order| + 1)
    ensures Reordered(order, id, newIndex)[Clamp(newIndex, 0, |EraseFirst(order, id)|)] == id
  {
    var rest := EraseFirst(order, id);
    var k := Clamp(newIndex, 0, |rest|);
    var r := rest[..k] + [id] + rest[k..];
    assert |r| == |rest| + 1 && r[k] == id;
    assert Reordered(order, id, newIndex) == r;
  }

  /** Looking up every key, in ascending order, gives each track once, ascending by id. */
  lemma LookupFacts(ids: seq<string>, tracks: map<string, TrackData>)
    requires Keyed(tracks) && Ascending(ids) && |ids| == |tracks.Keys|
    requires forall id :: id in tracks <==> id in ids
    ensures |Lookup(ids, tracks)| == |tracks|
    ensures forall id :: id in tracks ==> tracks[id] in Lookup(ids, tracks)
    ensures forall t :: t in Lookup(ids, tracks) ==> t.trackId in tracks && tracks[t.trackId] == t
    ensures forall i, j :: 0 <= i < j < |Lookup(ids, tracks)| ==>
              StrLess(Lookup(ids, tracks)[i].trackId, Lookup(ids, tracks)[j].trackId)
  {
    var r := Lookup(ids, tracks);
    assert |r| == |ids| && |tracks| == |tracks.Keys|;
    forall id | id in tracks
      ensures tracks[id] in r
    {
      var j :| 0 <= j < |ids| && ids[j] == id;
      assert r[j] == tracks[id];
    }
  }

  /** The enabled tracks of ascending ids: each enabled one once, ascending by id. */
  lemma {:induction false} EnabledFacts(ids: seq<string>, tracks: map<string, TrackData>)
    requires Keyed(tracks) && Ascending(ids)
    requires forall id :: id in ids ==> id in tracks
    ensures forall id :: id in ids && tracks[id].enabled ==> tracks[id] in EnabledOf(ids, tracks)
    ensures forall t :: t in EnabledOf(ids, tracks) ==> t.enabled && t.trackId in ids && tracks[t.trackId] == t
    ensures forall i, j :: 0 <= i < j < |EnabledOf(ids, tracks)| ==>
              StrLess(EnabledOf(ids, tracks)[i].trackId, EnabledOf(ids, tracks)[j].trackId)
    decreases |ids|
  {
    if ids != [] {
      var init := ids[..|ids| - 1];
      var last := ids[|ids| - 1];
      assert forall id :: id in ids <==> id in init || id == last;
      EnabledFacts(init, tracks);
      var prefix := EnabledOf(init, tracks);
      forall t | t in prefix
        ensures StrLess(t.trackId, last)
      {
        var j :| 0 <= j < |init| && init[j] == t.trackId;
        assert ids[j] == t.trackId;
      }
    }
  }

  lemma {:induction false} SnapshotAppend(order: seq<string>, id: string, tracks: map<string, TrackData>)
    ensures PresentIds(order + [id], tracks) == PresentIds(order, tracks) + (if id in tracks then [id] else [])
    ensures OrderedSnapshot(order + [id], tracks) ==
              OrderedSnapshot(order, tracks) + (if id in tracks then [tracks[id]] else [])
    decreases |order|
  {
    if order != [] {
      assert (order + [id])[1..] == order[1..] + [id];
      SnapshotAppend(order[1..], id, tracks);
    } else {
      assert order + [id] == [id];
    }
  }

  /** When every listed id has a track, the ordered snapshot follows the list exactly. */
  lemma {:induction false} SnapshotOfCompleteOrder(order: seq<string>, tracks: map<string, TrackData>)
    requires forall id :: id in order ==> id in tracks
    ensures PresentIds(order, tracks) == order
    ensures |OrderedSnapshot(order, tracks)| == |order|
    ensures forall i :: 0 <= i < |order| ==> OrderedSnapshot(order, tracks)[i] == tracks[order[i]]
  {
    if order != [] {
      SnapshotOfCompleteOrder(order[1..], tracks);
      assert order == [order[0]] + order[1..];
    }
  }

  /**
   * Reordering a track whose id is listed, in a list whose ids all have
   * tracks, shows that track at the requested index clamped to
   * `[0, count - 1]` in the ordered snapshot.
   */
  lemma ReorderPlacesTrack(order: seq<string>, tracks: map<string, TrackData>, id: string, newIndex: int)
    requires forall x :: x in order ==> x in tracks
    requires id in order
    ensures var snapshot := OrderedSnapshot(Reordered(order, id, newIndex), tracks);
            |snapshot| == |order| && snapshot[Clamp(newIndex, 0, |order| - 1)] == tracks[id]
  {
    var r := Reordered(order, id, newIndex);
    ReorderedMembers(order, id, newIndex);
    ReorderedShape(order, id, newIndex);
    SnapshotOfCompleteOrder(r, tracks);
  }

  /**
   * Reordering an id that is not listed yet inserts it; when its track is
   * then created, creation appends the id again, and the ordered snapshot
   * shows the new track twice: at the clamped index and at the end.
   */
  lemma ReorderUnlistedThenCreated(order: seq<string>, tracks: map<string, TrackData>, id: string,
                                   newIndex: int, created: TrackData)
    requires forall x :: x in order ==> x in tracks
    requires id !in order
    ensures var snapshot := OrderedSnapshot(Reordered(order, id, newIndex) + [id], tracks[id := created]);
            && |snapshot| == |order| + 2
            && snapshot[Clamp(newIndex, 0, |order|)] == created
            && snapshot[|order| + 1] == created
  {
    var reordered := Reordered(order, id, newIndex);
    var after := reordered + [id];
    var tracks' := tracks[id := created];
    var k := Clamp(newIndex, 0, |order|);
    assert EraseFirst(order, id) == order;
    ReorderedShape(order, id, newIndex);
    assert |after| == |order| + 2 && after[k] == id && after[|order| + 1] == id;
    ReorderedMembers(order, id, newIndex);
    assert forall x :: x in after ==> x in tracks' by {
      forall x | x in after
        ensures x in tracks'
      {
        assert x in reordered || x == id;
      }
    }
    SnapshotOfCompleteOrder(after, tracks');
  }

  // ---------------------------------------------------------------------
  // Properties of smoothing and ageing over several calls.

  /** The smoothed value of one bin after the readings `xs`, from `start`, with no Offline transition. */
  function EmaSeries(start: real, xs: seq<real>): real
    decreases |xs|
  {
    if xs == [] then start else Ema(EmaSeries(start, xs[..|xs| - 1]), xs[|xs| - 1])
  }

  /** The readings of bin `i` across a run of spectra. */
  function Column(frames: seq<seq<real>>, i: nat): (r: seq<real>)
    requires forall f :: f in frames ==> i < |f|
    ensures |r| == |frames| && forall k :: 0 <= k < |frames| ==> r[k] == frames[k][i]
  {
    seq(|frames|, k requires 0 <= k < |frames| => frames[k][i])
  }

  /** A track after a run of full spectra, keeping its name and rate, all at time `now`. */
  function IngestAll(t: TrackData, frames: seq<seq<real>>, now: int): (r: TrackData)
    requires WellFormed(t)
    requires forall f :: f in frames ==> |f| == NUM_BINS
    ensures WellFormed(r)
    decreases |frames|
  {
    if frames == [] then t
    else
      var last := frames[|frames| - 1];
      assert last in frames;
      Ingested(IngestAll(t, frames[..|frames| - 1], now), t.trackName, last, |last|, t.sampleRate, now)
  }

  /**
   * The moving-average law: for a track that is not Offline, every smoothed
   * bin after a run of spectra is the moving average of that bin's readings,
   * and the track is Active.
   */
  lemma {:induction false} EmaLaw(t: TrackData, frames: seq<seq<real>>, now: int, i: nat)
    requires WellFormed(t) && t.status == Active && i < NUM_BINS
    requires forall f :: f in frames ==> |f| == NUM_BINS
    ensures IngestAll(t, frames, now).status == Active
    ensures IngestAll(t, frames, now).smoothedSpectrum[i] == EmaSeries(t.smoothedSpectrum[i], Column(frames, i))
    decreases |frames|
  {
    if frames != [] {
      var init := frames[..|frames| - 1];
      assert forall f :: f in init ==> f in frames;
      EmaLaw(t, init, now, i);
      assert Column(frames, i)[..|frames| - 1] == Column(init, i);
    }
  }

  /** The moving average of readings that all lie in `[lo, hi]`, from a start in it, stays in it. */
  lemma {:induction false} EmaStaysInRange(start: real, xs: seq<real>, lo: real, hi: real)
    requires lo <= start <= hi
    requires forall k :: 0 <= k < |xs| ==> lo <= xs[k] <= hi
    ensures lo <= EmaSeries(start, xs) <= hi
    decreases |xs|
  {
    if xs != [] {
      EmaStaysInRange(start, xs[..|xs| - 1], lo, hi);
    }
  }

  function Power(b: real, n: nat): real {
    if n == 0 then 1.0 else b * Power(b, n - 1)
  }

  /** Under a constant reading the gap to that reading shrinks by the decay factor per step. */
  lemma {:induction false} EmaConverges(start: real, x: real, n: nat)
    ensures EmaSeries(start, seq(n, _ => x)) - x == Power(DECAY_FACTOR, n) * (start - x)
  {
    if n > 0 {
      EmaConverges(start, x, n - 1);
      assert seq(n, _ => x)[..n - 1] == seq(n - 1, _ => x);
      var p := Power(DECAY_FACTOR, n - 1);
      calc {
        EmaSeries(start, seq(n, _ => x)) - x;
        0.25 * x + 0.75 * EmaSeries(start, seq(n - 1, _ => x)) - x;
        0.75 * (EmaSeries(start, seq(n - 1, _ => x)) - x);
        0.75 * (p * (start - x));
        (0.75 * p) * (start - x);
      }
    }
  }

  /** A track after one sweep per time in `nows`. */
  function SweepAll(t: TrackData, nows: seq<int>): TrackData
    decreases |nows|
  {
    if nows == [] then t else Aged(SweepAll(t, nows[..|nows| - 1]), nows[|nows| - 1])
  }

  /** A smoothed bin of value `x` after `n` sweeps of an Offline track. */
  function DecayedTimes(x: real, n: nat): real {
    if n == 0 then x else DECAY_FACTOR * DecayedTimes(x, n - 1)
  }

  /** `n` decays scale a bin by the decay factor to the power `n`. */
  lemma {:induction false} DecayedTimesPower(x: real, n: nat)
    ensures DecayedTimes(x, n) == Power(DECAY_FACTOR, n) * x
  {
    if n > 0 {
      DecayedTimesPower(x, n - 1);
      assert DecayedTimes(x, n) == DECAY_FACTOR * (Power(DECAY_FACTOR, n - 1) * x);
    }
  }

  /**
   * An Offline track stays Offline under sweeps, keeps its raw bins, and each
   * sweep multiplies every smoothed bin by the decay factor once, whatever the
   * times of the sweeps.
   */
  lemma {:induction false} OfflineDecay(t: TrackData, nows: seq<int>)
    requires t.status == Offline
    ensures SweepAll(t, nows).status == Offline
    ensures SweepAll(t, nows) == t.(smoothedSpectrum := SweepAll(t, nows).smoothedSpectrum)
    ensures |SweepAll(t, nows).smoothedSpectrum| == |t.smoothedSpectrum|
    ensures forall i :: 0 <= i < |t.smoothedSpectrum| ==>
              SweepAll(t, nows).smoothedSpectrum[i] == DecayedTimes(t.smoothedSpectrum[i], |nows|)
    decreases |nows|
  {
    if nows != [] {
      var init := nows[..|nows| - 1];
      OfflineDecay(t, init);
      var prev := SweepAll(t, init);
      assert SweepAll(t, nows) == prev.(smoothedSpectrum := Decayed(prev.smoothedSpectrum));
      assert |init| + 1 == |nows|;
    }
  }

  /** A track that never received a spectrum is never taken Offline by sweeps. */
  lemma {:induction false} NeverSeenNeverOffline(t: TrackData, nows: seq<int>)
    requires t.status == Active && t.lastSpectrumTime == 0
    ensures SweepAll(t, nows) == t
    decreases |nows|
  {
    if nows != [] {
      NeverSeenNeverOffline(t, nows[..|nows| - 1]);
    }
  }

  /**
   * Timing out and recovering: a timed-out Active track goes Offline with
   * zeroed raw bins and unchanged smoothed bins, and the next spectrum makes
   * it Active with smoothed bins equal to the raw bins it copied.
   */
  lemma OfflineThenRecover(t: TrackData, now: int, data: seq<real>, numBins: int, later: int)
    requires WellFormed(t) && t.status == Active && TimedOut(t, now)
    requires CopySize(numBins) <= |data|
    ensures var off := Aged(t, now);
            && off.status == Offline
            && off.spectrum == Zeros(NUM_BINS)
            && off.smoothedSpectrum == t.smoothedSpectrum
            && var back := Ingested(off, t.trackName, data, numBins, t.sampleRate, later);
               && back.status == Active
               && forall i :: 0 <= i < CopySize(numBins) ==> back.smoothedSpectrum[i] == back.spectrum[i] == data[i]
  {
  }

  /**
   * A heartbeat before the first spectrum: the track already exists, so the
   * first spectrum is averaged into zeroed smoothed bins (a quarter of each
   * reading) instead of being copied.
   */
  lemma FirstSpectrumAfterHeartbeat(id: string, name: string, sampleRate: real, colour: Colour,
                                    seen: int, data: seq<real>, numBins: int, now: int)
    requires CopySize(numBins) <= |data|
    ensures var t := Ingested(CreatedByPresence(id, name, sampleRate, colour, seen), name, data, numBins, sampleRate, now);
            && t.status == Active
            && forall i :: 0 <= i < CopySize(numBins) ==>
                 t.spectrum[i] == data[i] && t.smoothedSpectrum[i] == SMOOTHING_FACTOR * data[i]
  {
    var created := CreatedByPresence(id, name, sampleRate, colour, seen);
    assert created.status == Active && created.smoothedSpectrum == Zeros(NUM_BINS);
  }

  /** A track created by a heartbeat is Active and enabled, has seen no spectrum, and has all-zero spectra. */
  lemma CreatedByPresenceFacts(id: string, name: string, sampleRate: real, colour: Colour, now: int)
    ensures var t := CreatedByPresence(id, name, sampleRate, colour, now);
            && t.trackId == id && t.status == Active && t.enabled && t.lastSpectrumTime == 0
            && WellFormed(t)
            && forall i :: 0 <= i < NUM_BINS ==> t.spectrum[i] == 0.0 && t.smoothedSpectrum[i] == 0.0
  {
  }

  /**
   * A track created by a spectrum is Active and enabled, and both its spectra
   * hold the readings below the copy size and zero from there on.
   */
  lemma CreatedBySpectrumFacts(id: string, name: string, data: seq<real>, numBins: int, sampleRate: real,
                               colour: Colour, now: int)
    requires CopySize(numBins) <= |data|
    ensures var t := CreatedBySpectrum(id, name, data, numBins, sampleRate, colour, now);
            && t.trackId == id && t.status == Active && t.enabled && t.lastSpectrumTime == now
            && WellFormed(t)
            && (forall i :: 0 <= i < CopySize(numBins) ==> t.spectrum[i] == data[i] && t.smoothedSpectrum[i] == data[i])
            && (forall i :: CopySize(numBins) <= i < NUM_BINS ==> t.spectrum[i] == 0.0 && t.smoothedSpectrum[i] == 0.0)
  {
  }

  /** A heartbeat for a known track never changes its status (an Offline track stays Offline), spectra, switch or colour. */
  lemma RefreshedKeeps(t: TrackData, name: string, sampleRate: real, now: int)
    ensures var r := Refreshed(t, name, sampleRate, now);
            && r.status == t.status && r.spectrum == t.spectrum && r.smoothedSpectrum == t.smoothedSpectrum
            && r.enabled == t.enabled && r.colour == t.colour && r.lastSpectrumTime == t.lastSpectrumTime
            && r.trackName == name && r.sampleRate == sampleRate && r.lastUpdateTime == now
  {
  }

  /**
   * A spectrum for a known track: it is Active afterwards; below the copy
   * size the raw bins take the readings and the smoothed bins take them too
   * (after Offline) or become `0.25 * reading + 0.75 * old` (otherwise); from
   * the copy size on, both spectra are unchanged.
   */
  lemma IngestedFacts(t: TrackData, name: string, data: seq<real>, numBins: int, sampleRate: real, now: int)
    requires WellFormed(t) && CopySize(numBins) <= |data|
    ensures var r := Ingested(t, name, data, numBins, sampleRate, now);
            && r.status == Active && WellFormed(r)
            && r.trackId == t.trackId && r.colour == t.colour && r.enabled == t.enabled
            && r.lastSpectrumTime == now && r.lastUpdateTime == now
            && (forall i :: 0 <= i < CopySize(numBins) ==> r.spectrum[i] == data[i])
            && (forall i :: 0 <= i < CopySize(numBins) ==>
                  r.smoothedSpectrum[i] == if t.status == Offline then data[i]
                                           else 0.25 * data[i] + 0.75 * t.smoothedSpectrum[i])
            && (forall i :: CopySize(numBins) <= i < NUM_BINS ==>
                  r.spectrum[i] == t.spectrum[i] && r.smoothedSpectrum[i] == t.smoothedSpectrum[i])
  {
  }

  /** A track that received spectra goes Offline only once strictly more than the timeout has passed. */
  lemma TimeoutBoundary(t: TrackData, now: int)
    requires t.status == Active && t.lastSpectrumTime > 0
    ensures now <= t.lastSpectrumTime + TRACK_TIMEOUT_MS ==> Aged(t, now) == t
    ensures now > t.lastSpectrumTime + TRACK_TIMEOUT_MS ==> Aged(t, now).status == Offline
  {
  }
}
