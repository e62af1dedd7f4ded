/**
 * Open Sound Control 1.0 messages as values: an address pattern and a list of
 * typed arguments. Only the two argument types the programs produce are told
 * apart; everything else (int32, blob, ...) is `Other`. A float32 argument
 * carries its value as a real number, so rounding to single precision is not
 * modelled.
 */
module Osc {

  datatype Arg = Str(text: string) | F32(value: real) | Other

  datatype Message = Message(address: string, args: seq<Arg>)

  /** `juce::String::startsWith`. */
  predicate StartsWith(s: string, prefix: string) {
    |prefix| <= |s| && s[..|prefix|] == prefix
  }

  /** Every magnitude as a float32 argument, in order. */
  function Floats(xs: seq<real>): (r: seq<Arg>)
    ensures |r| == |xs|
    ensures forall i :: 0 <= i < |xs| ==> r[i] == F32(xs[i])
  {
    seq(|xs|, i requires 0 <= i < |xs| => F32(xs[i]))
  }

  /** A string that starts with `p` and a string that starts with `q` differ when `p` and `q` differ at an index inside both. */
  lemma DistinctPrefixes(s: string, p: string, q: string, k: nat)
    requires k < |p| && k < |q| && p[k] != q[k]
    requires StartsWith(s, p)
    ensures !StartsWith(s, q)
  {
    assert s[k] == p[k];
  }
}
