/**
 * Byte strings and the chunked write loop every player uses to push raw
 * audio frames to an output stream: slices of at most 4096 bytes, starting
 * at offset 0 and stepping by 4096.
 */
module Bytes {
  import opened Wrappers

  newtype byte = x: int | 0 <= x < 256

  type Bytes = seq<byte>

  /** The chunk size of every `stream.write`. */
  const Chunk := 4096

  function Min(a: int, b: int): int {
    if a <= b then a else b
  }

  /** The bytes of `parts`, one after the other. */
  function Concat(parts: seq<Bytes>): Bytes {
    if parts == [] then [] else Concat(parts[..|parts| - 1]) + parts[|parts| - 1]
  }

  /** Whether the write of chunk `failAt` raises: the device fails on that chunk and the loop reaches it. */
  predicate WriteFails(raw: Bytes, failAt: Option<nat>) {
    failAt.Some? && failAt.value * Chunk < |raw|
  }

  /**
   * `for i in range(0, len(raw), chunk): stream.write(raw[i : i + chunk])`:
   * `writes` lists the slices in the order they are written.  The device
   * may raise on the write of chunk `failAt`; the loop then ends with that
   * chunk unwritten and `raised` set, and the chunks before it stay written.
   */
  method WriteChunks(raw: Bytes, failAt: Option<nat>) returns (writes: seq<Bytes>, raised: bool)
    ensures raised == WriteFails(raw, failAt)
    ensures forall k :: 0 <= k < |writes| ==> 0 < |writes[k]| <= Chunk
    ensures forall k :: 0 <= k < |writes| ==> k * Chunk < |raw| && writes[k] == raw[k * Chunk .. Min(k * Chunk + Chunk, |raw|)]
    ensures !raised ==> Concat(writes) == raw && |writes| * Chunk - Chunk < |raw| <= |writes| * Chunk
    ensures raised ==> |writes| == failAt.value && Concat(writes) == raw[..failAt.value * Chunk]
  {
    writes := [];
    var i := 0;
    while i < |raw| && !(failAt.Some? && failAt.value == |writes|)
      invariant Written(raw, writes, i)
      invariant failAt.Some? ==> |writes| <= failAt.value
    {
      var piece := raw[i .. Min(i + Chunk, |raw|)];
      WrittenStep(raw, writes, i);
      writes := writes + [piece];
      i := i + Chunk;
    }
    raised := i < |raw|;
    WrittenDone(raw, writes, i, failAt);
  }

  /** When the loop ends, it ended on the failing write exactly when that write exists. */
  lemma WrittenDone(raw: Bytes, writes: seq<Bytes>, i: int, failAt: Option<nat>)
    requires Written(raw, writes, i) && (failAt.Some? ==> |writes| <= failAt.value)
    requires i < |raw| ==> failAt.Some? && failAt.value == |writes|
    ensures i < |raw| <==> WriteFails(raw, failAt)
    ensures i >= |raw| ==> Concat(writes) == raw && |writes| * Chunk - Chunk < |raw| <= |writes| * Chunk
    ensures i < |raw| ==> Concat(writes) == raw[..failAt.value * Chunk]
  {
    if i >= |raw| {
      assert raw[..Min(i, |raw|)] == raw;
    }
  }

  /** The loop state after the slices in `writes`, with `i` the next offset. */
  predicate Written(raw: Bytes, writes: seq<Bytes>, i: int) {
    i == |writes| * Chunk &&
    (|writes| > 0 ==> i - Chunk < |raw|) &&
    Concat(writes) == raw[..Min(i, |raw|)] &&
    (forall k :: 0 <= k < |writes| ==> 0 < |writes[k]| <= Chunk) &&
    (forall k :: 0 <= k < |writes| ==> k * Chunk < |raw| && writes[k] == raw[k * Chunk .. Min(k * Chunk + Chunk, |raw|)])
  }

  /** Writing the next slice keeps the loop state. */
  lemma WrittenStep(raw: Bytes, writes: seq<Bytes>, i: int)
    requires Written(raw, writes, i) && 0 <= i < |raw|
    ensures Written(raw, writes + [raw[i .. Min(i + Chunk, |raw|)]], i + Chunk)
  {
    var piece := raw[i .. Min(i + Chunk, |raw|)];
    var next := writes + [piece];
    assert next[..|writes|] == writes;
    assert raw[..Min(i + Chunk, |raw|)] == raw[..i] + piece;
    assert Concat(next) == Concat(writes) + piece;
    assert forall k :: 0 <= k < |writes| ==> next[k] == writes[k];
  }
}
