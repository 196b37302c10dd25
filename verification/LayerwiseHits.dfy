/** What the layerwise lookup counts, against what the layerwise retrieval can load. */
module LayerwiseHits {
  import opened Results
  import opened Chunks
  import opened Lookup
  import opened LoadPipeline

  function Spans(chunks: seq<ChunkInfo>): (spans: seq<Chunk>)
    ensures |spans| == |chunks|
  {
    seq(|chunks|, i requires 0 <= i < |chunks| => Chunk(chunks[i].start, chunks[i].end))
  }

  /** What `contains` answers for each chunk's first layer. */
  function Places(backends: seq<Backend>, chunks: seq<ChunkInfo>): (places: seq<Option<nat>>)
    ensures |places| == |chunks|
  {
    seq(|chunks|, i requires 0 <= i < |chunks| => FirstHolding(backends, Layer(chunks[i].hash, 0)))
  }

  /** The chunks of a token database's run, with a slot for each token. */
  ghost predicate IsRun(chunks: seq<ChunkInfo>, slots: seq<nat>) {
    Ordered(Spans(chunks), |slots|) && Contiguous(Spans(chunks))
  }

  lemma PartOfRun(chunks: seq<ChunkInfo>, from: nat, to: nat, slots: seq<nat>)
    requires from <= to <= |chunks| && IsRun(chunks, slots)
    ensures IsRun(chunks[from..to], slots)
  {
    assert Spans(chunks[from..to]) == Spans(chunks)[from..to];
  }

  /** The query of a retrieval that asks for tokens of chunks from .. to, while the backends
      are as the lookup found them. */
  function QueryFor(backends: seq<Backend>, chunks: seq<ChunkInfo>, from: nat, to: nat, slots: seq<nat>): Query
    requires from <= to <= |chunks| && IsRun(chunks, slots)
  {
    PartOfRun(chunks, from, to, slots);
    Wanted(Spans(chunks[from..to]), Places(backends, chunks[from..to]), slots)
  }

  /** The generator does not raise on its first next, and collects every chunk asked for. */
  ghost predicate Retrievable(q: Query) {
    OneLocation(q) && LoadOf(q).hits == q.chunks
  }

  /** One backend is, for every chunk, the first that holds its first layer, and holds all its
      layers. */
  ghost predicate SharedHolder(backends: seq<Backend>, chunks: seq<ChunkInfo>, layers: nat)
    requires layers > 0
  {
    exists b: nat :: HoldsAll(backends, chunks, layers, b)
  }

  ghost predicate HoldsAll(backends: seq<Backend>, chunks: seq<ChunkInfo>, layers: nat, b: nat)
    requires layers > 0
  {
    forall i :: 0 <= i < |chunks| ==> FirstHolder(backends, LayerKeys(chunks[i].hash, layers), b)
  }

  lemma {:induction false} PlaceOfHolder(backends: seq<Backend>, hash: int, layers: nat, b: nat)
    requires layers > 0 && FirstHolder(backends, LayerKeys(hash, layers), b)
    ensures FirstHolding(backends, Layer(hash, 0)) == Some(b)
  {
    assert LayerKeys(hash, layers)[0] == Layer(hash, 0);
  }

  /** Where the lookup found a counted chunk is where `contains` reports it. */
  lemma {:induction false} PlaceOfCounted(backends: seq<Backend>, chunks: seq<ChunkInfo>, layers: nat, i: nat) returns (b: nat)
    requires layers > 0 && i < WholeChunks(backends, chunks, layers)
    ensures FirstHolder(backends, LayerKeys(chunks[i].hash, layers), b)
    ensures FirstHolding(backends, Layer(chunks[i].hash, 0)) == Some(b)
  {
    var keys := LayerKeys(chunks[i].hash, layers);
    assert WholeChunk(backends, chunks[i].hash, layers);
    OneLocationExact(backends, keys);
    b :| FirstHolder(backends, keys, b);
    PlaceOfHolder(backends, chunks[i].hash, layers, b);
  }

  /** Whatever part of the counted chunks a request retrieves: the retrieval collects it
      exactly when those chunks share one location, although the lookup asks for one location
      per chunk only. */
  lemma {:induction false} CountedIsRetrievableExact(
      backends: seq<Backend>, chunks: seq<ChunkInfo>, layers: nat, from: nat, to: nat, slots: seq<nat>)
    requires layers > 0 && from <= to <= WholeChunks(backends, chunks, layers) && IsRun(chunks, slots)
    ensures Retrievable(QueryFor(backends, chunks, from, to, slots)) <==> SharedHolder(backends, chunks[from..to], layers)
  {
    hide WholeChunks, FirstHolding, FirstHolder, IsRun, Spans;
    var q, part := QueryFor(backends, chunks, from, to, slots), chunks[from..to];
    forall i: nat | i < |part| ensures q.places[i].Some? && FirstHolder(backends, LayerKeys(part[i].hash, layers), q.places[i].value) {
      var b := PlaceOfCounted(backends, chunks, layers, from + i);
    }
    HitCountUnique(q.places, |part|);
    assert LoadOf(q).hits == q.chunks;
    if OneLocation(q) {
      var b := if part == [] then 0 else q.places[0].value;
      assert HoldsAll(backends, part, layers, b);
    }
    if b: nat :| HoldsAll(backends, part, layers, b) {
      forall i | 0 <= i < |part| ensures q.places[i] == Some(b) {
        PlaceOfHolder(backends, part[i].hash, layers, b);
      }
    }
  }

  const TWO_BACKENDS: seq<Backend> := [{Layer(0, 0)}, {Layer(1, 0)}]
  const TWO_CHUNKS: seq<ChunkInfo> := [ChunkInfo(0, 1, 0), ChunkInfo(1, 2, 1)]

  lemma TwoHolders()
    ensures FirstHolder(TWO_BACKENDS, LayerKeys(0, 1), 0) && FirstHolder(TWO_BACKENDS, LayerKeys(1, 1), 1)
  {
    assert LayerKeys(0, 1) == [Layer(0, 0)] && LayerKeys(1, 1) == [Layer(1, 0)];
  }

  lemma TwoCounted()
    ensures WholeChunks(TWO_BACKENDS, TWO_CHUNKS, 1) == 2
  {
    hide Found, Used, WholeChunks, FirstHolder, LayerKeys;
    TwoHolders();
    OneLocationExact(TWO_BACKENDS, LayerKeys(0, 1));
    OneLocationExact(TWO_BACKENDS, LayerKeys(1, 1));
    WholeChunksUnique(TWO_BACKENDS, TWO_CHUNKS, 1, 2);
  }

  /** Two chunks in two backends: both are counted, and retrieving them raises. */
  lemma CountedInTwoLocations()
    ensures WholeChunks(TWO_BACKENDS, TWO_CHUNKS, 1) == 2
    ensures IsRun(TWO_CHUNKS, [0, 1]) && !OneLocation(QueryFor(TWO_BACKENDS, TWO_CHUNKS, 0, 2, [0, 1]))
  {
    TwoCounted();
    TwoHolders();
    hide WholeChunks, HitCount, FirstHolding, FirstHolder, LayerKeys;
    PlaceOfHolder(TWO_BACKENDS, 0, 1, 0);
    PlaceOfHolder(TWO_BACKENDS, 1, 1, 1);
    var q := QueryFor(TWO_BACKENDS, TWO_CHUNKS, 0, 2, [0, 1]);
    assert TWO_CHUNKS[0..2] == TWO_CHUNKS;
    assert q.places[0] == Some(0) && q.places[1] == Some(1);
    HitCountUnique(q.places, 2);
  }
}
