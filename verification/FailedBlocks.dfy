/** Which blocks `start_load_kv` reports to vLLM when a retrieval comes back short. */
module FailedBlocks {
  import opened Masks
  import opened PagedSlots
  import opened TensorIndex
  import opened TokenMerge
  import opened MergedLocations

  /** Tokens LMCache is expected to load: those after vLLM's cached tokens, rounded down to a
      chunk boundary. */
  function Expected(cached: nat, vllm: nat, chunk: nat): (mask: seq<bool>)
    requires chunk > 0
    ensures |mask| == cached
  {
    seq(cached, p => p >= vllm / chunk * chunk)
  }

  ghost predicate Missing(expected: seq<bool>, got: seq<bool>, p: int) {
    0 <= p < |expected| == |got| && expected[p] && !got[p]
  }

  function MissingMask(expected: seq<bool>, got: seq<bool>): (mask: seq<bool>)
    requires |got| == |expected|
    ensures |mask| == |expected| && forall p :: 0 <= p < |mask| ==> (mask[p] <==> Missing(expected, got, p))
  {
    seq(|expected|, p requires 0 <= p < |expected| => expected[p] && !got[p])
  }

  /** Retrieval only marks tokens it was asked for. */
  ghost predicate Within(got: seq<bool>, expected: seq<bool>) {
    |got| == |expected| && forall p :: 0 <= p < |got| && got[p] ==> expected[p]
  }

  // ---- which blocks ----

  /** Blocks of the table that hold an expected token that did not arrive. */
  ghost function LostBlocks(blocks: seq<nat>, blockSize: nat, expected: seq<bool>, got: seq<bool>): set<nat>
    requires blockSize > 0 && |expected| <= |blocks| * blockSize
  {
    set p | 0 <= p < |expected| && Missing(expected, got, p) :: BlockOf(blocks, blockSize, p)
  }

  function BlockOf(blocks: seq<nat>, blockSize: nat, p: nat): nat
    requires p < |blocks| * blockSize
  {
    DivBound(p, |blocks|, blockSize);
    blocks[p / blockSize]
  }

  ghost predicate LostOn(blockSize: nat, expected: seq<bool>, got: seq<bool>, i: nat, p: nat)
    requires blockSize > 0
  {
    p / blockSize == i && Missing(expected, got, p)
  }

  lemma {:induction false} LostToken(blocks: seq<nat>, blockSize: nat, expected: seq<bool>, got: seq<bool>, p: nat)
    requires blockSize > 0 && |expected| <= |blocks| * blockSize && Missing(expected, got, p)
    ensures BlockOf(blocks, blockSize, p) in LostBlocks(blocks, blockSize, expected, got)
  {
  }

  lemma {:induction false} LostWitness(blocks: seq<nat>, blockSize: nat, expected: seq<bool>, got: seq<bool>, id: nat) returns (p: nat)
    requires blockSize > 0 && |expected| <= |blocks| * blockSize && id in LostBlocks(blocks, blockSize, expected, got)
    ensures Missing(expected, got, p) && BlockOf(blocks, blockSize, p) == id
  {
    p :| p < |expected| && Missing(expected, got, p) && BlockOf(blocks, blockSize, p) == id;
  }

  /** Block i of a table of distinct blocks is reported exactly when a token on it is lost. */
  lemma {:induction false} LostBlockExact(blocks: seq<nat>, blockSize: nat, expected: seq<bool>, got: seq<bool>, i: nat)
    requires blockSize > 0 && |expected| <= |blocks| * blockSize && Distinct(blocks) && i < |blocks|
    ensures blocks[i] in LostBlocks(blocks, blockSize, expected, got) <==> exists p: nat :: LostOn(blockSize, expected, got, i, p)
  {
    hide LostBlocks;
    if blocks[i] in LostBlocks(blocks, blockSize, expected, got) {
      var p := LostWitness(blocks, blockSize, expected, got, blocks[i]);
      DivBound(p, |blocks|, blockSize);
      SameElement(blocks, p / blockSize, i);
      assert LostOn(blockSize, expected, got, i, p);
    } else if p: nat :| LostOn(blockSize, expected, got, i, p) {
      LostToken(blocks, blockSize, expected, got, p);
    }
  }

  // ---- whether the shortfall is noticed ----

  /** Tokens expected and not returned, counted. */
  function MissingCount(expected: seq<bool>, got: seq<bool>): nat
    requires |got| == |expected|
  {
    Count(MissingMask(expected, got))
  }

  lemma {:induction false} CountsSplit(expected: seq<bool>, got: seq<bool>)
    requires Within(got, expected)
    ensures Count(expected) == Count(got) + MissingCount(expected, got)
  {
    if expected != [] {
      var n := |expected| - 1;
      assert MissingMask(expected, got)[..n] == MissingMask(expected[..n], got[..n]);
      CountsSplit(expected[..n], got[..n]);
    }
  }

  lemma {:induction false} CountFrom(len: nat, from: nat)
    requires from <= len
    ensures Count(seq(len, p => p >= from)) == len - from
    decreases len
  {
    var mask := seq(len, p => p >= from);
    if len > 0 {
      assert mask[..len - 1] == seq(len - 1, p => p >= from);
      if from < len {
        CountFrom(len - 1, from);
      } else {
        NoneBelow(len, from);
      }
    }
  }

  lemma {:induction false} NoneBelow(len: nat, from: nat)
    requires len <= from
    ensures Count(seq(len, p => p >= from)) == 0
  {
    if len > 0 {
      assert seq(len, p => p >= from)[..len - 1] == seq(len - 1, p => p >= from);
      NoneBelow(len - 1, from);
    }
  }

  /** `num_retrieved_tokens < num_expected_tokens` */
  predicate Noticed(cached: nat, vllm: nat, got: seq<bool>) {
    Count(got) < cached - vllm
  }

  /** The count-based test notices a shortfall exactly when more tokens are missing than vLLM
      has cached beyond the last chunk boundary: those were requested again, and returning
      them hides as many missing ones. */
  lemma {:induction false} NoticedExact(cached: nat, vllm: nat, chunk: nat, got: seq<bool>)
    requires chunk > 0 && vllm <= cached && Within(got, Expected(cached, vllm, chunk))
    ensures Noticed(cached, vllm, got) <==> MissingCount(Expected(cached, vllm, chunk), got) > vllm % chunk
  {
    var from := vllm / chunk * chunk;
    assert from + vllm % chunk == vllm;
    MulMonotone(0, vllm / chunk, chunk);
    assert Expected(cached, vllm, chunk) == seq(cached, p => p >= from);
    CountFrom(cached, from);
    CountsSplit(Expected(cached, vllm, chunk), got);
  }

  lemma {:induction false} CountPositive(mask: seq<bool>, p: nat)
    requires p < |mask| && mask[p]
    ensures Count(mask) > 0
  {
    if p < |mask| - 1 {
      CountPositive(mask[..|mask| - 1], p);
    }
  }

  /** With a chunk-aligned vLLM prefix one missing token is enough: the shortfall is noticed
      and the token's block is among those reported. */
  lemma {:induction false} AlignedLossReported(
      blocks: seq<nat>, blockSize: nat, cached: nat, vllm: nat, chunk: nat, got: seq<bool>, p: nat)
    requires chunk > 0 && vllm <= cached && vllm % chunk == 0 && Within(got, Expected(cached, vllm, chunk))
    requires blockSize > 0 && cached <= |blocks| * blockSize && Missing(Expected(cached, vllm, chunk), got, p)
    ensures Noticed(cached, vllm, got)
    ensures BlockOf(blocks, blockSize, p) in LostBlocks(blocks, blockSize, Expected(cached, vllm, chunk), got)
  {
    var expected := Expected(cached, vllm, chunk);
    CountPositive(MissingMask(expected, got), p);
    NoticedExact(cached, vllm, chunk, got);
    LostToken(blocks, blockSize, expected, got, p);
  }

  /** What a retrieval that fails at f returns: everything asked for before f. */
  function UpTo(cached: nat, from: nat, f: nat): (mask: seq<bool>)
    ensures |mask| == cached
  {
    seq(cached, p => from <= p < f)
  }

  lemma {:induction false} CountUpTo(cached: nat, from: nat, f: nat)
    requires from <= f <= cached
    ensures Count(UpTo(cached, from, f)) == f - from
  {
    if cached > 0 {
      assert UpTo(cached, from, f)[..cached - 1] == UpTo(cached - 1, from, f);
      if f < cached {
        CountUpTo(cached - 1, from, f);
      } else if from < cached {
        assert UpTo(cached - 1, from, f) == UpTo(cached - 1, from, f - 1);
        CountUpTo(cached - 1, from, f - 1);
      } else {
        assert UpTo(cached - 1, from, f) == UpTo(cached - 1, from - 1, f - 1);
        CountUpTo(cached - 1, from - 1, f - 1);
      }
    }
  }

  /** A retrieval can fail at the start of chunk q. */
  predicate FailsAt(cached: nat, vllm: nat, chunk: nat, q: nat)
    requires chunk > 0
  {
    vllm / chunk <= q && q * chunk < cached
  }

  /** The mask a retrieval that fails at chunk q returns. */
  function FailedMask(cached: nat, vllm: nat, chunk: nat, q: nat): seq<bool>
    requires chunk > 0
  {
    UpTo(cached, vllm / chunk * chunk, q * chunk)
  }

  lemma {:induction false} ChunkFailureNoticed(cached: nat, vllm: nat, chunk: nat, q: nat)
    requires chunk > 0 && vllm <= cached && FailsAt(cached, vllm, chunk, q)
    ensures Noticed(cached, vllm, FailedMask(cached, vllm, chunk, q)) <==> cached - q * chunk > vllm % chunk
  {
    MulMonotone(vllm / chunk, q, chunk);
    CountUpTo(cached, vllm / chunk * chunk, q * chunk);
    assert vllm / chunk * chunk + vllm % chunk == vllm;
  }

  /** No chunk starts later than the one that holds the last cached token. */
  lemma {:induction false} LastChunk(cached: nat, chunk: nat, q: nat)
    requires chunk > 0 && q * chunk < cached
    ensures q <= (cached - 1) / chunk && q * chunk <= (cached - 1) / chunk * chunk
    ensures cached - (cached - 1) / chunk * chunk == (cached - 1) % chunk + 1
  {
    var last := (cached - 1) / chunk;
    assert cached - 1 == last * chunk + (cached - 1) % chunk;
    assert (last + 1) * chunk == last * chunk + chunk;
    if q > last {
      MulMonotone(last + 1, q, chunk);
    }
    MulMonotone(q, last, chunk);
  }

  /** Every failure at a chunk start is noticed exactly when the last token LMCache holds lies
      at least as far into its chunk as the end of vLLM's cached tokens into theirs. */
  lemma {:induction false} EveryChunkFailureNoticed(cached: nat, vllm: nat, chunk: nat)
    requires chunk > 0 && vllm < cached
    ensures (forall q: nat :: FailsAt(cached, vllm, chunk, q) ==> Noticed(cached, vllm, FailedMask(cached, vllm, chunk, q)))
      <==> vllm % chunk <= (cached - 1) % chunk
  {
    hide FailedMask, Noticed;
    var first, last := vllm / chunk, (cached - 1) / chunk;
    assert vllm == first * chunk + vllm % chunk;
    LastChunk(cached, chunk, first);
    assert cached - 1 == last * chunk + (cached - 1) % chunk;
    assert FailsAt(cached, vllm, chunk, last);
    ChunkFailureNoticed(cached, vllm, chunk, last);
    if vllm % chunk <= (cached - 1) % chunk {
      forall q: nat | FailsAt(cached, vllm, chunk, q) ensures Noticed(cached, vllm, FailedMask(cached, vllm, chunk, q)) {
        LastChunk(cached, chunk, q);
        ChunkFailureNoticed(cached, vllm, chunk, q);
      }
    }
  }

  /** Chunks of 256 tokens, 240 cached by vLLM, 300 by LMCache: losing the last 44 tokens goes
      unnoticed. */
  lemma UnnoticedExample()
    ensures FailsAt(300, 240, 256, 1) && !Noticed(300, 240, FailedMask(300, 240, 256, 1))
  {
    CountUpTo(300, 0, 256);
  }

  // ---- masks that the merge returns ----

  /** Every block of the mapping starts at or after the first token asked for. */
  ghost predicate AskedFrom(ls: seq<Location>, from: nat) {
    forall i: nat, a: nat :: HasBlock(ls, i, a) ==> ls[i].blocks[a].start >= from
  }

  /** Whatever fails, the merge only marks tokens it was asked for. */
  lemma {:induction false} MergeStaysWithin(m: seq<bool>, ls: seq<Location>, cached: nat, vllm: nat, chunk: nat)
    requires chunk > 0 && Aligned(ls) && |m| == cached && Unmarked(m) && AskedFrom(ls, vllm / chunk * chunk)
    ensures Within(Finished(AfterLocations(m, ls)).mask, Expected(cached, vllm, chunk))
  {
    hide AfterLocations;
    var got := Finished(AfterLocations(m, ls)).mask;
    forall p: nat | p < cached && got[p] ensures p >= vllm / chunk * chunk {
      MaskOfLocations(m, ls, p);
      var i: nat :| ProcessedAt(ls, i, p);
      var a: nat :| a < FailAt(ls[i], 0) && ls[i].blocks[a].start <= p < ls[i].blocks[a].end;
      assert HasBlock(ls, i, a);
    }
  }

  /** The mask of a retrieval with one failing location is the one of a failure at the start
      of the failing block's chunk. */
  lemma {:induction false} FailedMaskIsMerged(
      m: seq<bool>, ls: seq<Location>, cached: nat, vllm: nat, chunk: nat, k: nat, q: nat)
    requires chunk > 0 && Aligned(ls) && |m| == cached && Unmarked(m) && Split(ls, cached) && OnlyFailure(ls, k)
    requires Tiles(ls, vllm / chunk * chunk, cached) && FailStart(ls[k]).value == q * chunk
    ensures Finished(AfterLocations(m, ls)).mask == FailedMask(cached, vllm, chunk, q)
  {
    hide AfterLocations, FailStart, Split, Tiles;
    var got := Finished(AfterLocations(m, ls)).mask;
    forall p: nat | p < cached ensures got[p] == FailedMask(cached, vllm, chunk, q)[p] {
      OneFailureMask(m, ls, k, vllm / chunk * chunk, cached, p);
    }
  }

  /** With a chunk-aligned vLLM prefix every token that a retrieval leaves unmarked is
      reported, wherever fetches failed. */
  lemma {:induction false} MergedLossReported(
      blocks: seq<nat>, blockSize: nat, m: seq<bool>, ls: seq<Location>, cached: nat, vllm: nat, chunk: nat, p: nat)
    requires chunk > 0 && Aligned(ls) && |m| == cached && Unmarked(m) && AskedFrom(ls, vllm / chunk * chunk)
    requires vllm <= p < cached && vllm % chunk == 0 && blockSize > 0 && cached <= |blocks| * blockSize
    requires !Finished(AfterLocations(m, ls)).mask[p]
    ensures
      var got := Finished(AfterLocations(m, ls)).mask;
      Noticed(cached, vllm, got) && BlockOf(blocks, blockSize, p) in LostBlocks(blocks, blockSize, Expected(cached, vllm, chunk), got)
  {
    hide AfterLocations, Finished;
    assert vllm / chunk * chunk == vllm;
    MergeStaysWithin(m, ls, cached, vllm, chunk);
    AlignedLossReported(blocks, blockSize, cached, vllm, chunk, Finished(AfterLocations(m, ls)).mask, p);
  }

  // ---- a lost chunk the mask does not show ----

  /** A fetched chunk that ends where the recorded failure starts is dropped, whichever
      location held it; its tokens stay marked, so they count as retrieved and no block of
      theirs is reported. */
  lemma {:induction false} DroppedTokenUnreported(m: seq<bool>, ls: seq<Location>, i: nat, a: nat, p: nat)
    requires Aligned(ls) && Split(ls, |m|) && AfterLocations(m, ls).failed.Some? && FetchedBlock(ls, i, a)
    requires ls[i].blocks[a].end == AfterLocations(m, ls).failed.value && Covers(ls[i].blocks[a], p)
    ensures p < |m| && Finished(AfterLocations(m, ls)).mask[p]
    ensures forall expected :: !Missing(expected, Finished(AfterLocations(m, ls)).mask, p)
    ensures !LoadedToken(ls, Finished(AfterLocations(m, ls)).chunks, p)
  {
    hide AfterLocations, FailAt, LoadedToken;
    assert HasBlock(ls, i, a);
    MaskOfLocations(m, ls, p);
    assert ProcessedAt(ls, i, p);
    NeighbourNotLoaded(m, ls, i, a, p);
  }

  // ---- the connector ----

  class LoadReporter {
    const blockSize: nat
    const chunkSize: nat
    var invalidBlockIds: set<nat>

    /** `record_failed_blocks` */
    method RecordFailedBlocks(expected: seq<bool>, got: seq<bool>, slots: seq<nat>) returns (lost: set<nat>)
      requires blockSize > 0 && |slots| >= |expected|
      ensures lost == if |got| != |expected| then {} else
        set p | 0 <= p < |expected| && Missing(expected, got, p) :: slots[p] / blockSize
    {
      lost := {};
      if |expected| == 0 || |got| != |expected| {
        return;
      }
      var missing := MissingMask(expected, got);
      for p := 0 to |missing|
        invariant lost == set q | 0 <= q < p && Missing(expected, got, q) :: slots[q] / blockSize
      {
        if missing[p] {
          lost := lost + {slots[p] / blockSize};
        }
      }
    }

    /** The check after `retrieve`: what is reported is exactly the blocks of the request's
        table that hold a lost token, if the shortfall is noticed at all. */
    method CheckRetrieved(blocks: seq<nat>, cached: nat, vllm: nat, got: seq<bool>)
      requires blockSize > 0 && chunkSize > 0 && cached <= |blocks| * blockSize && |got| == cached
      modifies this`invalidBlockIds
      ensures invalidBlockIds == old(invalidBlockIds)
        + if Noticed(cached, vllm, got) then LostBlocks(blocks, blockSize, Expected(cached, vllm, chunkSize), got) else {}
    {
      if Count(got) < cached - vllm {
        var expected := Expected(cached, vllm, chunkSize);
        var lost := RecordFailedBlocks(expected, got, SlotMapping(blocks, blockSize, cached));
        assert lost == LostBlocks(blocks, blockSize, expected, got) by {
          forall p | 0 <= p < cached ensures SlotMapping(blocks, blockSize, cached)[p] / blockSize == BlockOf(blocks, blockSize, p) {
          }
        }
        invalidBlockIds := invalidBlockIds + lost;
      }
    }
  }
}
