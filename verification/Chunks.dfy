/** Chunks of a token range and the compact device buffer they are packed into. */
module Chunks {
  datatype Chunk = Chunk(start: nat, end: nat)

  /** Non-empty chunks in token order, inside the first len tokens. */
  ghost predicate Ordered(cs: seq<Chunk>, len: nat) {
    && (forall i :: 0 <= i < |cs| ==> cs[i].start < cs[i].end <= len)
    && (forall i, j :: 0 <= i < j < |cs| ==> cs[i].end <= cs[j].start)
  }

  ghost predicate Contiguous(cs: seq<Chunk>) {
    forall i, j :: 0 <= i < j < |cs| && j == i + 1 ==> cs[i].end == cs[j].start
  }

  /** Chunk j has a token at index k. */
  predicate HasToken(cs: seq<Chunk>, j: nat, k: nat) {
    j < |cs| && cs[j].start + k < cs[j].end
  }

  /** Tokens in the first n chunks. */
  function Filled(cs: seq<Chunk>, n: nat): (total: nat)
    requires n <= |cs| && forall i :: 0 <= i < |cs| ==> cs[i].start < cs[i].end
  {
    if n == 0 then 0 else Filled(cs, n - 1) + (cs[n - 1].end - cs[n - 1].start)
  }

  lemma {:induction false} FilledMonotone(cs: seq<Chunk>, i: nat, j: nat)
    requires i <= j <= |cs| && forall k :: 0 <= k < |cs| ==> cs[k].start < cs[k].end
    ensures Filled(cs, i) <= Filled(cs, j)
    ensures i < j ==> Filled(cs, i) + (cs[i].end - cs[i].start) <= Filled(cs, j)
  {
    if i < j {
      FilledMonotone(cs, i, j - 1);
    }
  }

  /** `torch.cat` of the slots of the first n chunks. */
  function Slots(slots: seq<nat>, cs: seq<Chunk>, n: nat): (r: seq<nat>)
    requires n <= |cs| && Ordered(cs, |slots|)
    ensures |r| == Filled(cs, n)
  {
    if n == 0 then [] else Slots(slots, cs, n - 1) + slots[cs[n - 1].start..cs[n - 1].end]
  }

  lemma AppendedAt(a: seq<nat>, b: seq<nat>, p: nat)
    requires p < |a| + |b|
    ensures (a + b)[p] == if p < |a| then a[p] else b[p - |a|]
  {
  }

  /** Token k of chunk j sits at position Filled(cs, j) + k of the compact buffer. */
  lemma {:induction false} SlotAt(slots: seq<nat>, cs: seq<Chunk>, n: nat, j: nat, k: nat)
    requires j < n <= |cs| && Ordered(cs, |slots|) && k < cs[j].end - cs[j].start
    ensures Filled(cs, j) + k < Filled(cs, n)
    ensures Slots(slots, cs, n)[Filled(cs, j) + k] == slots[cs[j].start + k]
  {
    FilledMonotone(cs, j, n);
    AppendedAt(Slots(slots, cs, n - 1), slots[cs[n - 1].start..cs[n - 1].end], Filled(cs, j) + k);
    if j < n - 1 {
      SlotAt(slots, cs, n - 1, j, k);
    }
  }

  /** Every position of the compact buffer holds a token of some chunk. */
  lemma {:induction false} TokenAt(cs: seq<Chunk>, n: nat, p: nat) returns (j: nat, k: nat)
    requires n <= |cs| && (forall i :: 0 <= i < |cs| ==> cs[i].start < cs[i].end) && p < Filled(cs, n)
    ensures j < n && k < cs[j].end - cs[j].start && p == Filled(cs, j) + k
  {
    if p < Filled(cs, n - 1) {
      j, k := TokenAt(cs, n - 1, p);
    } else {
      j, k := n - 1, p - Filled(cs, n - 1);
    }
  }

  /** A chunk starts where the previous one ended or later, so `start - starts[0]` never
      points before the chunk's place in the buffer. */
  lemma {:induction false} OffsetAtLeast(cs: seq<Chunk>, len: nat, j: nat)
    requires Ordered(cs, len) && j < |cs|
    ensures Filled(cs, j) <= cs[j].start - cs[0].start
  {
    if j > 0 {
      OffsetAtLeast(cs, len, j - 1);
    }
  }

  /** `start - starts[0]` is the chunk's place in the compact buffer, for every chunk,
      exactly when the chunks are contiguous. */
  lemma {:induction false} OffsetExact(cs: seq<Chunk>, len: nat)
    requires Ordered(cs, len) && |cs| > 0
    ensures Contiguous(cs) <==> forall j :: 0 <= j < |cs| ==> cs[j].start - cs[0].start == Filled(cs, j)
  {
    if Contiguous(cs) {
      forall j | 0 <= j < |cs| ensures cs[j].start - cs[0].start == Filled(cs, j) {
        ContiguousOffset(cs, len, j);
      }
    }
    if forall j :: 0 <= j < |cs| ==> cs[j].start - cs[0].start == Filled(cs, j) {
      forall i, j | 0 <= i < j < |cs| && j == i + 1 ensures cs[i].end == cs[j].start {
        assert cs[i].start - cs[0].start == Filled(cs, i);
        assert cs[j].start - cs[0].start == Filled(cs, j);
      }
    }
  }

  lemma {:induction false} ContiguousOffset(cs: seq<Chunk>, len: nat, j: nat)
    requires Ordered(cs, len) && Contiguous(cs) && j < |cs|
    ensures cs[j].start - cs[0].start == Filled(cs, j)
  {
    if j > 0 {
      ContiguousOffset(cs, len, j - 1);
      assert cs[j - 1].end == cs[j].start;
    }
  }
}
