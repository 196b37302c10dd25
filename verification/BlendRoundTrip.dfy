/** Loading what the blending connector saved. */
module BlendRoundTrip {
  import opened Streams
  import opened Chunks
  import opened PagedSlots
  import opened BlendBuffer
  import opened BlendSave

  /** A token's key and value of a layer, moved from one set of slots to the other. */
  ghost predicate CameBack(pages: Memory, loaded: Memory, r: Request, from: seq<nat>, layer: nat, j: nat, k: nat)
    requires Proper(r) && Ordered(r.chunks, |from|) && HasToken(r.chunks, j, k)
  {
    loaded(Page(layer, r.slots[r.chunks[j].start + k])) == pages(Page(layer, from[r.chunks[j].start + k]))
  }

  /** Every chunk token's key and value as it was saved, in every layer, and zero in the gaps. */
  ghost predicate Restored(pages: Memory, loaded: Memory, r: Request, from: seq<nat>, layers: nat)
    requires Proper(r) && Ordered(r.chunks, |from|)
  {
    && (forall layer: nat, j: nat, k: nat :: layer < layers && HasToken(r.chunks, j, k) ==>
          CameBack(pages, loaded, r, from, layer, j, k))
    && (forall layer: nat, t: nat :: layer < layers && t < |r.slots| && Between(r.chunks, t) && !InChunk(r.chunks, t) ==>
          loaded(Page(layer, r.slots[t])) == KV(0, 0))
  }

  /** Save from one set of slots, load into another, with the positions that saving records:
      however the race on the position tensor ends, each chunk token comes back with its
      value, and with its key unless its chunk was early, whose keys are re-encoded once more. */
  lemma {:induction false} SaveThenLoad(
      pages: Memory, saved: Memory, loaded: Memory, b: Blend, early: nat, rot: Rotary, from: seq<nat>, layers: nat,
      layer: nat, j: nat, k: nat)
    requires Ordered(b.chunks, |from|) && Saved(pages, saved, b.chunks, from, layers)
    requires b.cached == OwnPositions(b.chunks)
    requires early <= |b.chunks| && SlotsLoaded(saved, loaded, Raced(b, early), rot, layers)
    requires forall at, key :: rot(at, at, key) == key
    requires layer < layers && HasToken(b.chunks, j, k)
    ensures
      var at := b.chunks[j].start + k;
      var kv := pages(Page(layer, from[at]));
      loaded(Page(layer, b.slots[at])) == if j < early then KV(rot(0, at, kv.key), kv.value) else kv
  {
    assert InSlot(saved, loaded, Raced(b, early), rot, layer, j, k);
    assert saved(Host(0, layer, j, k)) == pages(Page(layer, from[b.chunks[j].start + k]));
    assert Raced(b, early).cached[j][k] == if j < early then 0 else b.chunks[j].start + k;
  }

  /** A key of token k of chunk j survives re-encoding from position 0 to the token's own. */
  predicate KeepsKey(chunks: seq<Chunk>, rot: Rotary, j: nat, k: nat, key: int)
    requires HasToken(chunks, j, k)
  {
    rot(0, chunks[j].start + k, key) == key
  }

  /** The round trip restores everything, whatever was saved and however the race ends,
      exactly when re-encoding from position 0 to a token's own position changes no key. */
  lemma {:induction false} RoundTripExact(b: Blend, rot: Rotary, from: seq<nat>, layers: nat)
    requires Ordered(b.chunks, |from|) && b.cached == OwnPositions(b.chunks) && Distinct(b.slots) && layers > 0
    requires forall at, key :: rot(at, at, key) == key
    ensures (forall j: nat, k: nat, key: int :: HasToken(b.chunks, j, k) ==> KeepsKey(b.chunks, rot, j, k, key))
      <==> forall pages, saved, loaded, early: nat ::
             early <= |b.chunks| && Saved(pages, saved, b.chunks, from, layers) && SlotsLoaded(saved, loaded, Raced(b, early), rot, layers)
             ==> Restored(pages, loaded, b, from, layers)
  {
    hide SlotsLoaded, Raced, Saved, Restored, InSlot;
    var n := |b.chunks|;
    OwnIndifferent(b, rot);
    if Indifferent(b, rot, n) {
      forall pages, saved, loaded, early: nat
        | early <= n && Saved(pages, saved, b.chunks, from, layers) && SlotsLoaded(saved, loaded, Raced(b, early), rot, layers)
        ensures Restored(pages, loaded, b, from, layers)
      {
        RacedSlots(saved, loaded, b, rot, early, layers);
        CleanRoundTrip(pages, saved, loaded, b, rot, from, layers);
      }
    } else {
      var m, loaded, j, k := RacedApart(b, rot, layers);
      ConstantSaved(m, b.chunks, from, layers);
      ApartNotRestored(m, loaded, b, rot, from, layers, j, k);
    }
  }

  lemma ConstantSaved(m: Memory, chunks: seq<Chunk>, from: seq<nat>, layers: nat)
    requires Ordered(chunks, |from|) && exists key :: m == Constant(key)
    ensures Saved(m, m, chunks, from, layers)
  {
  }

  /** In a constant memory a token that is not the one asked for was not restored. */
  lemma {:induction false} ApartNotRestored(
      m: Memory, loaded: Memory, b: Blend, rot: Rotary, from: seq<nat>, layers: nat, j: nat, k: nat)
    requires Ordered(b.chunks, |from|) && b.cached == OwnPositions(b.chunks) && forall at, key :: rot(at, at, key) == key
    requires (exists key :: m == Constant(key)) && layers > 0
    requires HasToken(b.chunks, j, k) && !InSlot(m, loaded, b, rot, 0, j, k)
    ensures !Restored(m, loaded, b, from, layers)
  {
    var key :| m == Constant(key);
    assert b.cached[j][k] == b.chunks[j].start + k;
    assert !CameBack(m, loaded, b, from, 0, j, k);
  }

  /** Tokens stored at their own positions: indifference says what the rotary does from 0. */
  lemma {:induction false} OwnIndifferent(b: Blend, rot: Rotary)
    requires b.cached == OwnPositions(b.chunks) && forall at, key :: rot(at, at, key) == key
    ensures Indifferent(b, rot, |b.chunks|)
      <==> forall j: nat, k: nat, key: int :: HasToken(b.chunks, j, k) ==> KeepsKey(b.chunks, rot, j, k, key)
  {
    hide Proper;
    forall j: nat, k: nat, key: int | HasToken(b.chunks, j, k)
      ensures EncodesAlike(b, rot, j, k, key) <==> KeepsKey(b.chunks, rot, j, k, key)
    {
      assert b.cached[j][k] == b.chunks[j].start + k;
    }
  }

  lemma {:induction false} CleanRoundTrip(pages: Memory, saved: Memory, loaded: Memory, b: Blend, rot: Rotary, from: seq<nat>, layers: nat)
    requires Ordered(b.chunks, |from|) && Saved(pages, saved, b.chunks, from, layers)
    requires b.cached == OwnPositions(b.chunks) && SlotsLoaded(saved, loaded, b, rot, layers)
    requires forall at, key :: rot(at, at, key) == key
    ensures Restored(pages, loaded, b, from, layers)
  {
    forall layer: nat, j: nat, k: nat | layer < layers && HasToken(b.chunks, j, k)
      ensures CameBack(pages, loaded, b, from, layer, j, k)
    {
      assert InSlot(saved, loaded, b, rot, layer, j, k);
      assert b.cached[j][k] == b.chunks[j].start + k;
      assert saved(Host(0, layer, j, k)) == pages(Page(layer, from[b.chunks[j].start + k]));
    }
  }
}
