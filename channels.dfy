/** interleave: two equal-length channels merged into one stereo stream,
    L0, R0, L1, R1, ... */
module Channels {

  /** The stereo stream of two channels, frame by frame. */
  function Interleaved(left: seq<real>, right: seq<real>): (stream: seq<real>)
    requires |left| == |right|
    ensures |stream| == |left| + |right|
  {
    if left == [] then [] else [left[0], right[0]] + Interleaved(left[1..], right[1..])
  }

  /** Frame k of the stream is left[k] followed by right[k]. */
  lemma {:induction false} InterleavedFrame(left: seq<real>, right: seq<real>, k: nat)
    requires |left| == |right| && k < |left|
    ensures Interleaved(left, right)[2 * k] == left[k]
    ensures Interleaved(left, right)[2 * k + 1] == right[k]
  {
    if k > 0 {
      InterleavedFrame(left[1..], right[1..], k - 1);
    }
  }

  /** Even positions of the stream come from the left channel, odd ones from
      the right, both at half the position. */
  lemma InterleavedAt(left: seq<real>, right: seq<real>, p: nat)
    requires |left| == |right| && p < |left| + |right|
    ensures Interleaved(left, right)[p] == if p % 2 == 0 then left[p / 2] else right[p / 2]
  {
    InterleavedFrame(left, right, p / 2);
  }

  /** Channel c (0 left, 1 right) of a stereo stream. */
  function Deinterleave(stream: seq<real>, c: nat): (channel: seq<real>)
    requires c < 2 && |stream| % 2 == 0
    ensures |channel| == |stream| / 2
  {
    seq(|stream| / 2, k requires 0 <= k < |stream| / 2 => stream[2 * k + c])
  }

  /** Splitting an interleaved stream gives back both channels. */
  lemma DeinterleaveInterleaved(left: seq<real>, right: seq<real>)
    requires |left| == |right|
    ensures Deinterleave(Interleaved(left, right), 0) == left
    ensures Deinterleave(Interleaved(left, right), 1) == right
  {
    var stream := Interleaved(left, right);
    var l, r := Deinterleave(stream, 0), Deinterleave(stream, 1);
    forall k | 0 <= k < |left|
      ensures l[k] == left[k] && r[k] == right[k]
    {
      InterleavedFrame(left, right, k);
    }
  }

  /** The loop of interleave: a zeroed Float32Array of the combined length,
      filled two slots at a time while inputIndex walks both channels. */
  method Interleave(leftChannel: seq<real>, rightChannel: seq<real>) returns (result: seq<real>)
    requires |leftChannel| == |rightChannel|
    ensures |result| == |leftChannel| + |rightChannel|
    ensures forall p :: 0 <= p < |result| ==>
              result[p] == if p % 2 == 0 then leftChannel[p / 2] else rightChannel[p / 2]
    ensures result == Interleaved(leftChannel, rightChannel)
  {
    var length := |leftChannel| + |rightChannel|;
    var out := new real[length](_ => 0.0);
    var inputIndex := 0;
    var i := 0;
    while i < length
      invariant i == 2 * inputIndex && inputIndex <= |leftChannel|
      invariant forall p :: 0 <= p < i ==>
                  out[p] == if p % 2 == 0 then leftChannel[p / 2] else rightChannel[p / 2]
    {
      out[i] := leftChannel[inputIndex];
      i := i + 1;
      out[i] := rightChannel[inputIndex];
      i := i + 1;
      inputIndex := inputIndex + 1;
    }
    result := out[..];
    forall p | 0 <= p < length
      ensures result[p] == Interleaved(leftChannel, rightChannel)[p]
    {
      InterleavedAt(leftChannel, rightChannel, p);
    }
  }
}
