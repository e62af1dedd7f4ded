/** Shared constants of the relay plugin and the viewer (Common/SpectrumData.h). */
module SpectrumConstants {

  /** log2 of the transform length. */
  const FFT_ORDER: nat := 11
  /** Transform length, `1 << FFT_ORDER`. */
  const FFT_SIZE: nat := 2048
  /** Number of magnitude bins kept from one transform. */
  const NUM_BINS: nat := FFT_SIZE / 2
  /** New samples between two transforms (75% overlap). */
  const HOP_SIZE: nat := FFT_SIZE / 4

  const DEFAULT_OSC_PORT: int := 58964
  /** Address prefix of spectrum messages. */
  const OSC_ADDRESS_PREFIX: string := "/wxc-tools/spectrum/"
  /** Address prefix of heartbeat messages (used, but not defined, by both programs). */
  const OSC_HEARTBEAT_PREFIX: string := "/wxc-tools/heartbeat/"

  const MIN_DB: real := -100.0
  const MAX_DB: real := 0.0
  /** A track whose last spectrum is older than this goes Offline. */
  const TRACK_TIMEOUT_MS: int := 3000

  /** Largest port number a UDP socket accepts. */
  const MAX_PORT: int := 65535

  /** 2 to the power n, the meaning of `1 << n`. */
  function Pow2(n: nat): (r: nat)
    ensures r >= 1
  {
    if n == 0 then 1 else 2 * Pow2(n - 1)
  }

  lemma FftSizeIsPowerOfOrder()
    ensures FFT_SIZE == Pow2(FFT_ORDER)
  {
  }

  /** The bins cover half the transform, and a hop is a quarter of it. */
  lemma SizesAreConsistent()
    ensures 2 * NUM_BINS == FFT_SIZE
    ensures 0 < HOP_SIZE < FFT_SIZE && FFT_SIZE % HOP_SIZE == 0
    ensures FFT_SIZE / HOP_SIZE == 4
    ensures NUM_BINS == 1024 && HOP_SIZE == 512
  {
  }

  /** The default port passes the range check of the port setter. */
  lemma DefaultPortInRange()
    ensures 1 <= DEFAULT_OSC_PORT <= MAX_PORT
  {
  }

  lemma DisplayConstantsOrdered()
    ensures MIN_DB < MAX_DB
    ensures TRACK_TIMEOUT_MS > 0
  {
  }
}
