/** Slot mapping of a block table: token i of a request lives in slot
    blocks[i / BS] * BS + i % BS of vLLM's paged memory. */
module PagedSlots {
  import opened TensorIndex

  /** `(arange(BS)[None, :] + block_ids[:, None] * BS).flatten()[:n]` */
  function SlotMapping(blocks: seq<nat>, blockSize: nat, n: nat): (slots: seq<nat>)
    ensures |slots| == if n < |blocks| * blockSize then n else |blocks| * blockSize
  {
    var len := if n < |blocks| * blockSize then n else |blocks| * blockSize;
    seq(len, i requires 0 <= i < len => SlotOf(blocks, blockSize, i))
  }

  function SlotOf(blocks: seq<nat>, blockSize: nat, i: nat): (slot: nat)
    requires i < |blocks| * blockSize
    ensures blockSize > 0 && i / blockSize < |blocks|
    ensures slot / blockSize == blocks[i / blockSize] && slot % blockSize == i % blockSize
  {
    DivBound(i, |blocks|, blockSize);
    DivMod(blocks[i / blockSize], i % blockSize, blockSize);
    blocks[i / blockSize] * blockSize + i % blockSize
  }

  ghost predicate Distinct<T>(s: seq<T>) {
    forall i, j :: 0 <= i < j < |s| ==> s[i] != s[j]
  }

  lemma SlotOfInjective(blocks: seq<nat>, blockSize: nat, i: nat, j: nat)
    requires Distinct(blocks) && i < |blocks| * blockSize && j < |blocks| * blockSize
    requires SlotOf(blocks, blockSize, i) == SlotOf(blocks, blockSize, j)
    ensures i == j
  {
    var slot := SlotOf(blocks, blockSize, i);
    SameElement(blocks, i / blockSize, j / blockSize);
    SameDivMod(i, j, blockSize);
  }

  lemma SameElement<T>(s: seq<T>, i: nat, j: nat)
    requires Distinct(s) && i < |s| && j < |s| && s[i] == s[j]
    ensures i == j
  {
  }

  /** A table of distinct blocks gives every token its own slot. */
  lemma SlotsDistinct(blocks: seq<nat>, blockSize: nat, n: nat)
    requires Distinct(blocks)
    ensures Distinct(SlotMapping(blocks, blockSize, n))
  {
    var slots := SlotMapping(blocks, blockSize, n);
    forall i, j | 0 <= i < j < |slots| && slots[i] == slots[j] ensures false {
      SlotOfInjective(blocks, blockSize, i, j);
    }
  }
}
