/**
 * The byte rewrite applied to the serialised payload of binary packets:
 * every 0xda byte becomes 0xd8 and every 0xdb byte becomes 0xd9, done as two
 * successive whole-buffer replacements.
 */
module BinaryPatch {

  /** One whole-buffer replacement of the byte `from` by the byte `to`. */
  function ReplaceByte(s: seq<bv8>, from: bv8, to: bv8): (r: seq<bv8>)
    ensures |r| == |s|
    ensures forall i :: 0 <= i < |s| && s[i] == from ==> r[i] == to
    ensures forall i :: 0 <= i < |s| && s[i] != from ==> r[i] == s[i]
    decreases |s|
  {
    if |s| == 0 then []
    else [if s[0] == from then to else s[0]] + ReplaceByte(s[1..], from, to)
  }

  /** The per-byte effect of the patch. */
  function MapTag(b: bv8): bv8
  {
    if b == 0xda then 0xd8 else if b == 0xdb then 0xd9 else b
  }

  /** The patch as `emit` performs it: first 0xda to 0xd8, then 0xdb to 0xd9. */
  function Patch(s: seq<bv8>): (r: seq<bv8>)
    ensures |r| == |s|
    ensures forall i :: 0 <= i < |s| ==> r[i] == MapTag(s[i])
    ensures forall i :: 0 <= i < |r| ==> r[i] != 0xda && r[i] != 0xdb
  {
    ReplaceByte(ReplaceByte(s, 0xda, 0xd8), 0xdb, 0xd9)
  }

  /** Patching an already patched buffer changes nothing. */
  lemma PatchIdempotent(s: seq<bv8>)
    ensures Patch(Patch(s)) == Patch(s)
  {
  }

  /** A buffer without 0xda and 0xdb bytes is left exactly as it was. */
  lemma PatchFixesCleanBuffers(s: seq<bv8>)
    requires forall i :: 0 <= i < |s| ==> s[i] != 0xda && s[i] != 0xdb
    ensures Patch(s) == s
  {
  }

  /**
   * The patch merges each rewritten tag with its target byte: two buffers
   * that differ only in 0xda versus 0xd8 are published identically.
   */
  lemma PatchMergesTags(s: seq<bv8>, t: seq<bv8>)
    requires |s| == |t|
    requires forall i :: 0 <= i < |s| ==> MapTag(s[i]) == MapTag(t[i])
    ensures Patch(s) == Patch(t)
  {
  }
}
