/** `LMCacheEngine.lookup` over the storage manager's backends. */
module Lookup {
  import opened Results
  import opened ChunkKeys
  import TensorIndex

  /** A chunk's key, or its key for one layer. */
  datatype StoreKey = Whole(hash: int) | Layer(hash: int, layer: nat)

  type Backend = set<StoreKey>

  /** `backend.batched_contains(keys)`: leading keys the backend holds. */
  function PrefixIn(keys: seq<StoreKey>, backend: Backend): (n: nat)
    ensures n <= |keys|
    ensures forall i :: 0 <= i < n ==> keys[i] in backend
    ensures n < |keys| ==> keys[n] !in backend
  {
    if keys == [] || keys[0] !in backend then 0 else 1 + PrefixIn(keys[1..], backend)
  }

  /** Leading keys found by one pass over the backends, each continuing where the one before
      stopped. */
  function Found(backends: seq<Backend>, keys: seq<StoreKey>): (n: nat)
    ensures n <= |keys|
  {
    if backends == [] then 0
    else
      var n := PrefixIn(keys, backends[0]);
      n + Found(backends[1..], keys[n..])
  }

  /** Backends that contribute to that pass. */
  function Used(backends: seq<Backend>, keys: seq<StoreKey>): nat {
    if backends == [] then 0
    else
      var n := PrefixIn(keys, backends[0]);
      (if n > 0 then 1 else 0) + Used(backends[1..], keys[n..])
  }

  /** An entry of the block mapping. */
  datatype Answer = Answer(backend: nat, keys: seq<StoreKey>)

  /** The block mapping in insertion order, backends numbered from `first`. */
  function Slices(backends: seq<Backend>, keys: seq<StoreKey>, first: nat): (m: seq<Answer>)
    ensures |m| == Used(backends, keys)
    ensures forall i :: 0 <= i < |m| ==> first <= m[i].backend < first + |backends| && m[i].keys != []
  {
    if backends == [] then []
    else
      var n := PrefixIn(keys, backends[0]);
      (if n > 0 then [Answer(first, keys[..n])] else []) + Slices(backends[1..], keys[n..], first + 1)
  }

  function Flat(m: seq<Answer>): seq<StoreKey> {
    if m == [] then [] else m[0].keys + Flat(m[1..])
  }

  lemma FlatNext(hit: seq<StoreKey>, first: nat, rest: seq<Answer>)
    ensures Flat((if |hit| > 0 then [Answer(first, hit)] else []) + rest) == hit + Flat(rest)
  {
    if hit == [] {
      assert [] + rest == rest;
    } else {
      assert ([Answer(first, hit)] + rest)[1..] == rest;
    }
  }

  lemma SplitPrefix(keys: seq<StoreKey>, n: nat, m: nat)
    requires n + m <= |keys|
    ensures keys[..n] + keys[n..][..m] == keys[..n + m]
  {
  }

  /** Put together, the slices are exactly the keys found, in order. */
  lemma {:induction false} SlicesJoin(backends: seq<Backend>, keys: seq<StoreKey>, first: nat)
    ensures Flat(Slices(backends, keys, first)) == keys[..Found(backends, keys)]
  {
    hide PrefixIn, Flat;
    if backends == [] {
      FlatNothing();
    } else {
      var n := PrefixIn(keys, backends[0]);
      SlicesJoin(backends[1..], keys[n..], first + 1);
      FlatNext(keys[..n], first, Slices(backends[1..], keys[n..], first + 1));
      SplitPrefix(keys, n, Found(backends[1..], keys[n..]));
    }
  }

  lemma FlatNothing()
    ensures Flat([]) == []
  {
  }

  /** `contains`: the first backend that holds the key. */
  function FirstHolding(backends: seq<Backend>, key: StoreKey): (b: Option<nat>)
    ensures b.Some? ==> b.value < |backends| && key in backends[b.value] && forall i :: 0 <= i < b.value ==> key !in backends[i]
    ensures b.None? ==> forall i :: 0 <= i < |backends| ==> key !in backends[i]
  {
    if backends == [] then None
    else if key in backends[0] then Some(0)
    else
      var rest := FirstHolding(backends[1..], key);
      if rest.Some? then Some(rest.value + 1) else None
  }

  // ---- one pass against the longest cached prefix ----

  ghost predicate Held(backends: seq<Backend>, key: StoreKey) {
    exists b :: 0 <= b < |backends| && key in backends[b]
  }

  /** A backend for each of the leading keys. */
  ghost predicate Placed(backends: seq<Backend>, keys: seq<StoreKey>, place: seq<nat>) {
    && |place| <= |keys|
    && forall i :: 0 <= i < |place| ==> place[i] < |backends| && keys[i] in backends[place[i]]
  }

  ghost predicate Ascending(place: seq<nat>) {
    forall i, j :: 0 <= i < j < |place| ==> place[i] <= place[j]
  }

  lemma {:induction false} NothingFound(backends: seq<Backend>)
    ensures Found(backends, []) == 0 && Used(backends, []) == 0
  {
    if backends != [] {
      NothingFound(backends[1..]);
    }
  }

  /** The keys found sit in backends of ascending order. */
  lemma {:induction false} FoundIsPlaced(backends: seq<Backend>, keys: seq<StoreKey>) returns (place: seq<nat>)
    ensures |place| == Found(backends, keys) && Placed(backends, keys, place) && Ascending(place)
  {
    if backends == [] {
      place := [];
    } else {
      var n := PrefixIn(keys, backends[0]);
      var rest := FoundIsPlaced(backends[1..], keys[n..]);
      place := seq(n, i => 0) + seq(|rest|, i requires 0 <= i < |rest| => rest[i] + 1);
      forall i | 0 <= i < |place| ensures place[i] < |backends| && keys[i] in backends[place[i]] {
        if i >= n {
          assert keys[n..][i - n] in backends[1..][rest[i - n]];
        }
      }
    }
  }

  /** No ascending placement reaches further. */
  lemma {:induction false} AscendingIsFound(backends: seq<Backend>, keys: seq<StoreKey>, place: seq<nat>)
    requires Placed(backends, keys, place) && Ascending(place)
    ensures |place| <= Found(backends, keys)
  {
    if |place| > 0 {
      assert place[0] < |backends|;
      var n := PrefixIn(keys, backends[0]);
      if n < |place| {
        var rest := seq(|place| - n, i requires 0 <= i < |place| - n => place[n + i] - 1);
        assert place[n] > 0;
        forall i | 0 <= i < |rest| ensures rest[i] < |backends[1..]| && keys[n..][i] in backends[1..][rest[i]] {
          assert place[n] <= place[n + i];
        }
        AscendingIsFound(backends[1..], keys[n..], rest);
      }
    }
  }

  ghost predicate AllHeld(backends: seq<Backend>, keys: seq<StoreKey>, n: nat) {
    n <= |keys| && forall i :: 0 <= i < n ==> Held(backends, keys[i])
  }

  /** The pass reaches the first n keys exactly when they can be read off the backends in
      ascending order; all of them being held somewhere is necessary, not sufficient. */
  lemma {:induction false} FoundExact(backends: seq<Backend>, keys: seq<StoreKey>, n: nat)
    requires n <= |keys|
    ensures n <= Found(backends, keys) <==> exists place :: |place| == n && Placed(backends, keys, place) && Ascending(place)
    ensures n <= Found(backends, keys) ==> AllHeld(backends, keys, n)
  {
    if n <= Found(backends, keys) {
      var place := FoundIsPlaced(backends, keys);
      assert |place[..n]| == n && Placed(backends, keys, place[..n]) && Ascending(place[..n]);
      forall i | 0 <= i < n ensures Held(backends, keys[i]) {
        assert keys[i] in backends[place[i]];
      }
    } else if place :| |place| == n && Placed(backends, keys, place) && Ascending(place) {
      AscendingIsFound(backends, keys, place);
    }
  }

  /** With one backend the pass finds exactly the longest held prefix. */
  lemma {:induction false} OneBackendExact(backend: Backend, keys: seq<StoreKey>, n: nat)
    requires n <= |keys|
    ensures n <= Found([backend], keys) <==> AllHeld([backend], keys, n)
  {
    FoundExact([backend], keys, n);
    if AllHeld([backend], keys, n) {
      var place := seq(n, i => 0);
      assert Placed([backend], keys, place) by {
        forall i | 0 <= i < n ensures keys[i] in [backend][place[i]] {
          assert Held([backend], keys[i]);
        }
      }
    }
  }

  /** Chunks 0 and 2 in the first backend, chunk 1 in the second: all three are held, two are
      found. */
  lemma InterleavedExample()
    ensures
      var backends, keys := [{Whole(0), Whole(2)}, {Whole(1)}], [Whole(0), Whole(1), Whole(2)];
      AllHeld(backends, keys, 3) && Found(backends, keys) == 2
  {
    var backends, keys := [{Whole(0), Whole(2)}, {Whole(1)}], [Whole(0), Whole(1), Whole(2)];
    assert Held(backends, keys[0]) by { assert keys[0] in backends[0]; }
    assert Held(backends, keys[1]) by { assert keys[1] in backends[1]; }
    assert Held(backends, keys[2]) by { assert keys[2] in backends[0]; }
    assert PrefixIn(keys, backends[0]) == 1;
    assert keys[1..] == [Whole(1), Whole(2)] && PrefixIn([Whole(1), Whole(2)], {Whole(1)}) == 1;
    assert [Whole(1), Whole(2)][1..] == [Whole(2)] && backends[1..] == [{Whole(1)}];
    assert Found([{Whole(1)}], [Whole(1), Whole(2)]) == 1 + Found([{Whole(1)}][1..], [Whole(2)]);
  }

  // ---- all layers of one chunk ----

  function LayerKeys(hash: int, layers: nat): (keys: seq<StoreKey>)
    ensures |keys| == layers
  {
    seq(layers, l requires 0 <= l < layers => Layer(hash, l))
  }

  /** Every layer hit, in one location. */
  predicate WholeChunk(backends: seq<Backend>, hash: int, layers: nat) {
    Found(backends, LayerKeys(hash, layers)) == layers && Used(backends, LayerKeys(hash, layers)) == 1
  }

  ghost predicate FirstHolder(backends: seq<Backend>, keys: seq<StoreKey>, b: nat)
    requires keys != []
  {
    && b < |backends|
    && (forall i :: 0 <= i < |keys| ==> keys[i] in backends[b])
    && (forall i :: 0 <= i < b ==> keys[0] !in backends[i])
  }

  lemma {:induction false} SomethingUsed(backends: seq<Backend>, keys: seq<StoreKey>)
    ensures Used(backends, keys) == 0 <==> Found(backends, keys) == 0
  {
    if backends != [] {
      SomethingUsed(backends[1..], keys[PrefixIn(keys, backends[0])..]);
    }
  }

  /** A run of keys counts as held in one location exactly when the first backend that holds
      its first key holds all of them. */
  lemma {:induction false} OneLocationExact(backends: seq<Backend>, keys: seq<StoreKey>)
    requires keys != []
    ensures Found(backends, keys) == |keys| && Used(backends, keys) == 1 <==> exists b: nat :: FirstHolder(backends, keys, b)
  {
    if backends != [] {
      var n := PrefixIn(keys, backends[0]);
      if n == 0 {
        assert keys[n..] == keys;
        OneLocationExact(backends[1..], keys);
        if b: nat :| FirstHolder(backends[1..], keys, b) {
          assert FirstHolder(backends, keys, b + 1);
        }
        if b: nat :| FirstHolder(backends, keys, b) {
          assert FirstHolder(backends[1..], keys, b - 1);
        }
      } else {
        SomethingUsed(backends[1..], keys[n..]);
        if n == |keys| {
          NothingFound(backends[1..]);
          assert FirstHolder(backends, keys, 0);
        }
      }
    }
  }

  // ---- the methods ----

  /** One backend of the pass. */
  lemma PassStep(backends: seq<Backend>, rest: seq<StoreKey>, b: nat)
    requires b < |backends|
    ensures
      var hit := PrefixIn(rest, backends[b]);
      && Found(backends[b..], rest) == hit + Found(backends[b + 1..], rest[hit..])
      && Slices(backends[b..], rest, b)
         == (if hit > 0 then [Answer(b, rest[..hit])] else []) + Slices(backends[b + 1..], rest[hit..], b + 1)
  {
    assert backends[b..][0] == backends[b] && backends[b..][1..] == backends[b + 1..];
  }

  lemma AnswerAppended(mapping: seq<Answer>, a: Answer, rest: seq<Answer>)
    ensures (mapping + [a]) + rest == mapping + ([a] + rest)
  {
  }

  lemma RestAdvances(keys: seq<StoreKey>, total: nat, hit: nat)
    requires total + hit <= |keys|
    ensures keys[total..][hit..] == keys[total + hit..]
  {
  }

  lemma PassEnd(backends: seq<Backend>, rest: seq<StoreKey>, b: nat)
    requires backends == [] || rest == []
    ensures Found(backends, rest) == 0 && Slices(backends, rest, b) == []
  {
    if backends != [] {
      NothingFound(backends);
    }
  }

  class StorageManager {
    var backends: seq<Backend>

    /** `contains`, as the loop over the backends finds it. */
    method Contains(key: StoreKey) returns (b: Option<nat>)
      ensures b == FirstHolding(backends, key)
    {
      for i := 0 to |backends|
        invariant forall k :: 0 <= k < i ==> key !in backends[k]
      {
        if key in backends[i] {
          return Some(i);
        }
      }
      return None;
    }

    /** `batched_contains`: hits and, by backend, the slice of the keys it answered for. */
    method BatchedContains(keys: seq<StoreKey>) returns (total: nat, mapping: seq<Answer>)
      ensures total == Found(backends, keys) && mapping == Slices(backends, keys, 0)
      ensures Flat(mapping) == keys[..total] && |mapping| == Used(backends, keys)
    {
      hide PrefixIn, Found, Slices, Used, Flat;
      total, mapping := 0, [];
      var rest := keys;
      SlicesJoin(backends, keys, 0);
      for b := 0 to |backends|
        invariant total <= |keys| && rest == keys[total..]
        invariant total + Found(backends[b..], rest) == Found(backends, keys)
        invariant mapping + Slices(backends[b..], rest, b) == Slices(backends, keys, 0)
      {
        PassStep(backends, rest, b);
        var hit := PrefixIn(rest, backends[b]);
        RestAdvances(keys, total, hit);
        if hit == 0 {
          assert [] + Slices(backends[b + 1..], rest, b + 1) == Slices(backends[b + 1..], rest, b + 1);
          continue;
        }
        AnswerAppended(mapping, Answer(b, rest[..hit]), Slices(backends[b + 1..], rest[hit..], b + 1));
        mapping := mapping + [Answer(b, rest[..hit])];
        total := total + hit;
        if total == |keys| {
          PassEnd(backends[b + 1..], rest[hit..], b + 1);
          return;
        }
        rest := rest[hit..];
      }
      PassEnd(backends[|backends|..], rest, |backends|);
    }
  }

  /** One (start, end, key) of the token database. */
  datatype ChunkInfo = ChunkInfo(start: nat, end: nat, hash: int)

  function Keys(chunks: seq<ChunkInfo>): (keys: seq<StoreKey>)
    ensures |keys| == |chunks|
  {
    seq(|chunks|, i requires 0 <= i < |chunks| => Whole(chunks[i].hash))
  }

  /** End of the first n chunks. */
  function EndOf(chunks: seq<ChunkInfo>, n: nat): nat
    requires n <= |chunks|
  {
    if n == 0 then 0 else chunks[n - 1].end
  }

  /** Leading chunks with every layer in one location. */
  function WholeChunks(backends: seq<Backend>, chunks: seq<ChunkInfo>, layers: nat): (n: nat)
    ensures n <= |chunks|
    ensures forall i :: 0 <= i < n ==> WholeChunk(backends, chunks[i].hash, layers)
    ensures n < |chunks| ==> !WholeChunk(backends, chunks[n].hash, layers)
  {
    if chunks == [] || !WholeChunk(backends, chunks[0].hash, layers) then 0 else 1 + WholeChunks(backends, chunks[1..], layers)
  }

  lemma {:induction false} WholeChunksUnique(backends: seq<Backend>, chunks: seq<ChunkInfo>, layers: nat, n: nat)
    requires n <= |chunks| && forall i :: 0 <= i < n ==> WholeChunk(backends, chunks[i].hash, layers)
    requires n < |chunks| ==> !WholeChunk(backends, chunks[n].hash, layers)
    ensures n == WholeChunks(backends, chunks, layers)
  {
  }

  class CacheEngine {
    const storage: StorageManager
    const numLayers: nat
    var healthy: bool

    constructor (storage: StorageManager, numLayers: nat)
      ensures this.storage == storage && this.numLayers == numLayers && healthy
    {
      this.storage, this.numLayers, healthy := storage, numLayers, true;
    }

    /** `lookup` without layerwise transfer. */
    method Lookup(chunks: seq<ChunkInfo>) returns (res: nat)
      ensures res == if healthy then EndOf(chunks, Found(storage.backends, Keys(chunks))) else 0
      ensures
        var n := Found(storage.backends, Keys(chunks));
        if healthy && n > 0 then res == chunks[n - 1].end else res == 0
    {
      res := 0;
      if !healthy {
        return;
      }
      var hits, mapping := storage.BatchedContains(Keys(chunks));
      for idx := 0 to |chunks|
        invariant idx <= hits && res == EndOf(chunks, idx)
      {
        if idx < hits {
          res := chunks[idx].end;
          continue;
        }
        return;
      }
    }

    /** `lookup` with layerwise transfer: a chunk counts only if one location holds all its
        layers. */
    method LookupLayerwise(chunks: seq<ChunkInfo>) returns (res: nat)
      ensures res == if healthy then EndOf(chunks, WholeChunks(storage.backends, chunks, numLayers)) else 0
      ensures
        var n := WholeChunks(storage.backends, chunks, numLayers);
        if healthy && n > 0 then res == chunks[n - 1].end else res == 0
    {
      res := 0;
      if !healthy {
        return;
      }
      for idx := 0 to |chunks|
        invariant res == EndOf(chunks, idx)
        invariant forall i :: 0 <= i < idx ==> WholeChunk(storage.backends, chunks[i].hash, numLayers)
      {
        var hits, mapping := storage.BatchedContains(LayerKeys(chunks[idx].hash, numLayers));
        if hits == numLayers && |mapping| == 1 {
          res := chunks[idx].end;
          continue;
        }
        WholeChunksUnique(storage.backends, chunks, numLayers, idx);
        return;
      }
      WholeChunksUnique(storage.backends, chunks, numLayers, |chunks|);
    }
  }

  // ---- what a hit means ----

  /** The chunks of a prompt as the token database hands them out. */
  ghost predicate ChunksOf(chunks: seq<ChunkInfo>, h: Hash, seed: Option<int>, size: nat, p: Prompt) {
    forall i :: 0 <= i < |chunks| ==>
      HasChunk(p, size, i) && chunks[i] == ChunkInfo(i * size, End(p, size, i), Key(h, seed, size, p, i))
  }

  /** Some stored prompt has this chunk under the same key. */
  ghost predicate StoredAs(history: seq<Prompt>, h: Hash, seed: Option<int>, size: nat, hash: int) {
    exists q, j: nat :: q in history && HasChunk(q, size, j) && hash == Key(h, seed, size, q, j)
  }

  /** A stored prompt agrees with p up to the end of chunk i. */
  ghost predicate Shares(history: seq<Prompt>, p: Prompt, i: nat, size: nat)
    requires HasChunk(p, size, i)
  {
    exists q :: q in history && HasChunk(q, size, i) && SamePrefix(p, i, q, i, size)
  }

  /** A chunk's key was stored exactly when some stored prompt agrees with the request on the
      whole prefix up to the chunk's end and on the extra keys. */
  lemma {:induction false} StoredExact(history: seq<Prompt>, h: Hash, seed: Option<int>, size: nat, p: Prompt, i: nat)
    requires CollisionFree(h) && FreshSeed(h, seed) && HasChunk(p, size, i)
    ensures StoredAs(history, h, seed, size, Key(h, seed, size, p, i)) <==> Shares(history, p, i, size)
  {
    if StoredAs(history, h, seed, size, Key(h, seed, size, p, i)) {
      var q, j: nat :| q in history && HasChunk(q, size, j) && Key(h, seed, size, p, i) == Key(h, seed, size, q, j);
      SameKeyExact(h, seed, size, p, i, q, j);
      assert Shares(history, p, i, size);
    }
    if Shares(history, p, i, size) {
      var q :| q in history && HasChunk(q, size, i) && SamePrefix(p, i, q, i, size);
      SameKeyExact(h, seed, size, p, i, q, i);
    }
  }

  /** Backends hold nothing that was not stored. */
  ghost predicate OnlyStored(backends: seq<Backend>, history: seq<Prompt>, h: Hash, seed: Option<int>, size: nat) {
    forall hash :: Held(backends, Whole(hash)) ==> StoredAs(history, h, seed, size, hash)
  }

  /** Whatever was evicted, every chunk a lookup counts was stored for a prompt with the very
      same prefix. */
  lemma {:induction false} ReuseIsSound(
      backends: seq<Backend>, history: seq<Prompt>, h: Hash, seed: Option<int>, size: nat, p: Prompt, chunks: seq<ChunkInfo>, i: nat)
    requires CollisionFree(h) && FreshSeed(h, seed) && ChunksOf(chunks, h, seed, size, p)
    requires OnlyStored(backends, history, h, seed, size) && i < Found(backends, Keys(chunks))
    ensures Shares(history, p, i, size)
  {
    FoundExact(backends, Keys(chunks), Found(backends, Keys(chunks)));
    assert Held(backends, Keys(chunks)[i]);
    StoredExact(history, h, seed, size, p, i);
  }

  /** One backend that still holds all it was given: the lookup returns the end of the longest
      run of chunks that some stored prompts share with the request. */
  lemma {:induction false} LookupExact(
      backend: Backend, history: seq<Prompt>, h: Hash, seed: Option<int>, size: nat, p: Prompt, chunks: seq<ChunkInfo>, n: nat)
    requires CollisionFree(h) && FreshSeed(h, seed) && ChunksOf(chunks, h, seed, size, p) && n <= |chunks|
    requires forall hash :: Held([backend], Whole(hash)) <==> StoredAs(history, h, seed, size, hash)
    ensures n <= Found([backend], Keys(chunks)) <==> forall i :: 0 <= i < n ==> Shares(history, p, i, size)
  {
    OneBackendExact(backend, Keys(chunks), n);
    forall i | 0 <= i < n ensures Held([backend], Keys(chunks)[i]) <==> Shares(history, p, i, size) {
      StoredExact(history, h, seed, size, p, i);
    }
  }

  lemma ChunkIs(chunks: seq<ChunkInfo>, h: Hash, seed: Option<int>, size: nat, p: Prompt, i: nat)
    requires ChunksOf(chunks, h, seed, size, p) && i < |chunks|
    ensures HasChunk(p, size, i) && chunks[i] == ChunkInfo(i * size, End(p, size, i), Key(h, seed, size, p, i))
  {
  }

  /** Two prompts have n leading tokens in common, and the same extra keys. */
  ghost predicate Agree(p: Prompt, q: Prompt, n: nat) {
    n <= |p.tokens| && n <= |q.tokens| && p.tokens[..n] == q.tokens[..n] && p.extra == q.extra
  }

  /** Whatever was evicted: a lookup that returns t tokens has found a stored prompt with the
      same t leading tokens. */
  lemma {:induction false} ReturnedIsSound(
      backends: seq<Backend>, history: seq<Prompt>, h: Hash, seed: Option<int>, size: nat, p: Prompt, chunks: seq<ChunkInfo>)
    requires CollisionFree(h) && FreshSeed(h, seed) && ChunksOf(chunks, h, seed, size, p)
    requires OnlyStored(backends, history, h, seed, size)
    ensures
      var t := EndOf(chunks, Found(backends, Keys(chunks)));
      t > 0 ==> exists q :: q in history && Agree(p, q, t)
  {
    hide Found, OnlyStored, Shares, Agree, CollisionFree, FreshSeed, Keys, ChunksOf, End, HasChunk;
    var n := Found(backends, Keys(chunks));
    if n > 0 {
      var i := n - 1;
      ChunkIs(chunks, h, seed, size, p, i);
      ReuseIsSound(backends, history, h, seed, size, p, chunks, i);
      SharesAgree(history, p, size, i);
    }
  }

  lemma SharesAgree(history: seq<Prompt>, p: Prompt, size: nat, i: nat)
    requires HasChunk(p, size, i) && Shares(history, p, i, size)
    ensures exists q :: q in history && Agree(p, q, End(p, size, i))
  {
    var q :| q in history && HasChunk(q, size, i) && SamePrefix(p, i, q, i, size);
    SamePrefixAgrees(p, q, size, i);
  }

  lemma SamePrefixAgrees(p: Prompt, q: Prompt, size: nat, i: nat)
    requires HasChunk(p, size, i) && HasChunk(q, size, i) && SamePrefix(p, i, q, i, size)
    ensures Agree(p, q, End(p, size, i))
  {
    assert |Covered(p, size, i)| == |Covered(q, size, i)|;
  }

  /** Prompts that agree on whole chunks share each of them. */
  lemma AgreeShares(history: seq<Prompt>, p: Prompt, q: Prompt, size: nat, n: nat, i: nat)
    requires size > 0 && q in history && i < n && Agree(p, q, n * size)
    ensures HasChunk(p, size, i) && Shares(history, p, i, size)
  {
    TensorIndex.MulMonotone(i + 1, n, size);
    assert (i + 1) * size == i * size + size;
    assert Covered(p, size, i) == p.tokens[..n * size][..i * size + size];
    assert Covered(q, size, i) == q.tokens[..n * size][..i * size + size];
    assert SamePrefix(p, i, q, i, size);
  }

  /** One backend that still holds all it was given: no stored prompt agrees with the request
      on more whole chunks than the lookup returns tokens of. */
  lemma {:induction false} ReturnedIsLongest(
      backend: Backend, history: seq<Prompt>, h: Hash, seed: Option<int>, size: nat, p: Prompt, chunks: seq<ChunkInfo>, q: Prompt, n: nat)
    requires CollisionFree(h) && FreshSeed(h, seed) && ChunksOf(chunks, h, seed, size, p) && n <= |chunks| && size > 0
    requires forall hash :: Held([backend], Whole(hash)) <==> StoredAs(history, h, seed, size, hash)
    requires q in history && Agree(p, q, n * size)
    ensures EndOf(chunks, Found([backend], Keys(chunks))) >= n * size
  {
    hide Found, Held, StoredAs, Agree, CollisionFree, FreshSeed, Keys, ChunksOf, End, Shares;
    var found := Found([backend], Keys(chunks));
    forall i: nat | i < n ensures HasChunk(p, size, i) && Shares(history, p, i, size) {
      AgreeShares(history, p, q, size, n, i);
    }
    LookupExact(backend, history, h, seed, size, p, chunks, n);
    if n > 0 {
      ChunkIs(chunks, h, seed, size, p, found - 1);
      EndReaches(p, q, size, found - 1, n);
    }
  }

  lemma EndReaches(p: Prompt, q: Prompt, size: nat, i: nat, n: nat)
    requires HasChunk(p, size, i) && n <= i + 1 && Agree(p, q, n * size)
    ensures End(p, size, i) >= n * size
  {
    TensorIndex.MulMonotone(n, i + 1, size);
    assert (i + 1) * size == i * size + size;
  }
}
