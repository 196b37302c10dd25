/** Chained chunk keys: each chunk's hash covers the previous chunk's hash, the chunk's own
    tokens and the request's extra keys. */
module ChunkKeys {
  import opened Results

  /** What is hashed. A missing prefix hash is hashed as the empty string, so it differs from
      every integer. */
  datatype HashInput = HashInput(prefix: Option<int>, tokens: seq<int>, extra: seq<int>)

  type Hash = HashInput -> int

  ghost predicate CollisionFree(h: Hash) {
    forall x, y :: h(x) == h(y) ==> x == y
  }

  /** The prefix hash a chain starts from is no chunk's hash; a missing one never is. */
  ghost predicate FreshSeed(h: Hash, seed: Option<int>) {
    forall x :: seed != Some(h(x))
  }

  /** A token sequence with the size of its chunks and its extra keys. */
  datatype Prompt = Prompt(tokens: seq<int>, extra: seq<int>)

  predicate HasChunk(p: Prompt, size: nat, i: nat) {
    size > 0 && i * size < |p.tokens|
  }

  /** Only the last chunk may be shorter than `size`. */
  function End(p: Prompt, size: nat, i: nat): (end: nat)
    requires HasChunk(p, size, i)
    ensures i * size < end <= |p.tokens|
  {
    if i * size + size <= |p.tokens| then i * size + size else |p.tokens|
  }

  function Piece(p: Prompt, size: nat, i: nat): seq<int>
    requires HasChunk(p, size, i)
  {
    p.tokens[i * size..End(p, size, i)]
  }

  lemma PreviousChunk(p: Prompt, size: nat, i: nat)
    requires HasChunk(p, size, i) && i > 0
    ensures HasChunk(p, size, i - 1) && End(p, size, i - 1) == i * size
  {
    assert i * size == (i - 1) * size + size;
  }

  /** Hash of chunk i. */
  function Key(h: Hash, seed: Option<int>, size: nat, p: Prompt, i: nat): int
    requires HasChunk(p, size, i)
  {
    if i == 0 then h(HashInput(seed, Piece(p, size, 0), p.extra))
    else
      PreviousChunk(p, size, i);
      h(HashInput(Some(Key(h, seed, size, p, i - 1)), Piece(p, size, i), p.extra))
  }

  /** The tokens up to the end of chunk i. */
  function Covered(p: Prompt, size: nat, i: nat): seq<int>
    requires HasChunk(p, size, i)
  {
    p.tokens[..End(p, size, i)]
  }

  ghost predicate SamePrefix(p: Prompt, i: nat, q: Prompt, j: nat, size: nat)
    requires HasChunk(p, size, i) && HasChunk(q, size, j)
  {
    i == j && Covered(p, size, i) == Covered(q, size, j) && p.extra == q.extra
  }

  /** Equal covered tokens split into equal chunks. */
  lemma {:induction false} CoveredSplits(p: Prompt, q: Prompt, size: nat, i: nat)
    requires HasChunk(p, size, i) && HasChunk(q, size, i)
    ensures i > 0 ==> HasChunk(p, size, i - 1) && HasChunk(q, size, i - 1)
    ensures Covered(p, size, i) == Covered(q, size, i)
      <==> Piece(p, size, i) == Piece(q, size, i) && (i > 0 ==> Covered(p, size, i - 1) == Covered(q, size, i - 1))
  {
    if i > 0 {
      PreviousChunk(p, size, i);
      PreviousChunk(q, size, i);
      assert Covered(p, size, i) == Covered(p, size, i - 1) + Piece(p, size, i);
      assert Covered(q, size, i) == Covered(q, size, i - 1) + Piece(q, size, i);
      assert Covered(p, size, i - 1) == Covered(p, size, i)[..i * size] && Piece(p, size, i) == Covered(p, size, i)[i * size..];
      assert Covered(q, size, i - 1) == Covered(q, size, i)[..i * size] && Piece(q, size, i) == Covered(q, size, i)[i * size..];
    }
  }

  /** Two chunks have the same key exactly when everything up to their ends agrees: the chunk
      index, the whole token prefix and the extra keys. */
  lemma {:induction false} SameKeyExact(h: Hash, seed: Option<int>, size: nat, p: Prompt, i: nat, q: Prompt, j: nat)
    requires CollisionFree(h) && FreshSeed(h, seed) && HasChunk(p, size, i) && HasChunk(q, size, j)
    ensures Key(h, seed, size, p, i) == Key(h, seed, size, q, j) <==> SamePrefix(p, i, q, j, size)
    decreases i
  {
    if i > 0 && j > 0 {
      PreviousChunk(p, size, i);
      PreviousChunk(q, size, j);
      SameKeyExact(h, seed, size, p, i - 1, q, j - 1);
    }
    if i == j {
      CoveredSplits(p, q, size, i);
    }
    if i == 0 && j == 0 {
      assert Piece(p, size, 0) == Covered(p, size, 0) && Piece(q, size, 0) == Covered(q, size, 0);
    }
  }
}
