/** Layerwise storing: the generators of `store_layer` and `batched_from_gpu`, driven by
    `save_kv_layer` and `wait_for_save`, and the store stream they fill. */
module StorePipeline {
  import opened Streams
  import opened ComputeStreams
  import opened Chunks
  import opened PagedSlots
  import opened TensorIndex

  /** A request that stores: the chunks the cache does not have yet, the slot of each of its
      tokens, and the chunk size. The token database cuts a prompt at the multiples of the
      chunk size, so only its last chunk can be short. Chunks already present are skipped, so
      the new ones need not be contiguous. */
  datatype Offer = Offer(added: seq<Chunk>, slots: seq<nat>, size: nat)
  type Store = r: Offer | Proper(r) witness Offer([], [], 1)

  ghost predicate Proper(r: Offer) {
    Ordered(r.added, |r.slots|) && Cut(r.added, r.size)
  }

  ghost predicate Cut(cs: seq<Chunk>, size: nat) {
    && size > 0
    && (forall i :: 0 <= i < |cs| ==> cs[i].start % size == 0 && cs[i].end <= cs[i].start + size)
    && (forall i :: 0 <= i < |cs| - 1 ==> cs[i].end == cs[i].start + size)
  }

  // ---- what one layer of one request queues ----

  function Size(store: Store): nat {
    Filled(store.added, |store.added|)
  }

  /** Tokens in `tensor[start - offset : end - offset]` of a buffer of Size(store) tokens. */
  function SliceLength(store: Store, j: nat): nat
    requires j < |store.added|
  {
    var from, to := store.added[j].start - store.added[0].start, store.added[j].end - store.added[0].start;
    if to <= Size(store) then to - from
    else if from <= Size(store) then Size(store) - from else 0
  }

  function Length(c: Chunk): nat
    requires c.start <= c.end
  {
    c.end - c.start
  }

  /** `copy_` accepts a source of the same length, or one token to repeat. */
  predicate Copyable(store: Store, j: nat)
    requires j < |store.added|
  {
    SliceLength(store, j) == Length(store.added[j]) || SliceLength(store, j) == 1
  }

  predicate Fits(store: Store) {
    forall j :: 0 <= j < |store.added| ==> Copyable(store, j)
  }

  function CopyChunk(owner: nat, store: Store, layer: nat, j: nat): Op
    requires j < |store.added|
  {
    CopyOut(owner, owner, layer, j, store.added[j].start - store.added[0].start, Length(store.added[j]),
            SliceLength(store, j) != Length(store.added[j]))
  }

  function CopyOuts(owner: nat, store: Store, layer: nat, n: nat): (ops: seq<Op>)
    requires n <= |store.added|
    ensures |ops| == n
  {
    if n == 0 then [] else CopyOuts(owner, store, layer, n - 1) + [CopyChunk(owner, store, layer, n - 1)]
  }

  function Target(store: Store): (slots: seq<nat>)
    ensures |slots| == Size(store)
  {
    Slots(store.slots, store.added, |store.added|)
  }

  /** Waits for the layer's compute, gathers the request's slots, copies the chunks out. */
  function StoreOps(owner: nat, store: Store, layer: nat): (ops: seq<Op>)
    ensures ops == [] <==> store.added == []
  {
    if store.added == [] then []
    else [Await(layer + 1), Gather(owner, layer, Target(store))] + CopyOuts(owner, store, layer, |store.added|)
  }

  // ---- the slices of the compact buffer ----

  /** A gap is at least one whole chunk wide. */
  lemma {:induction false} GapShifts(store: Store, n: nat)
    requires n < |store.added| && exists i, j :: 0 <= i < j <= n && j == i + 1 && store.added[i].end != store.added[j].start
    ensures store.added[n].start - store.added[0].start >= Filled(store.added, n) + store.size
  {
    OffsetAtLeast(store.added, |store.slots|, n - 1);
    if store.added[n - 1].end == store.added[n].start {
      GapShifts(store, n - 1);
    } else {
      NextBoundary(store.added[n - 1].start, store.size);
      MultiplesApart(store.added[n - 1].end, store.added[n].start, store.size);
    }
  }

  lemma NextBoundary(a: nat, size: nat)
    requires size > 0 && a % size == 0
    ensures (a + size) % size == 0
  {
    DivMod(a / size + 1, 0, size);
    assert a + size == (a / size + 1) * size;
  }

  /** Any gap leaves nothing for the last chunk's slice. */
  lemma {:induction false} GapEmptiesLast(store: Store)
    requires !Contiguous(store.added)
    ensures store.added != [] && SliceLength(store, |store.added| - 1) == 0 && !Copyable(store, |store.added| - 1)
  {
    GapShifts(store, |store.added| - 1);
  }

  /** The copies are accepted exactly when the new chunks are contiguous. */
  lemma {:induction false} FitsExact(store: Store)
    ensures Fits(store) <==> Contiguous(store.added)
  {
    if Contiguous(store.added) {
      forall j | 0 <= j < |store.added| ensures Copyable(store, j) {
        ContiguousSlice(store, j);
      }
    } else {
      GapEmptiesLast(store);
    }
  }

  lemma {:induction false} ContiguousSlice(store: Store, j: nat)
    requires Contiguous(store.added) && j < |store.added|
    ensures store.added[j].start - store.added[0].start == Filled(store.added, j)
    ensures SliceLength(store, j) == Length(store.added[j])
  {
    ContiguousOffset(store.added, |store.slots|, j);
    FilledMonotone(store.added, j, |store.added|);
  }

  // ---- what running it leaves in the memory objects ----

  predicate IsToken(store: Store, j: nat, k: nat) {
    j < |store.added| && k < Length(store.added[j])
  }

  function SlotOfToken(store: Store, j: nat, k: nat): nat
    requires IsToken(store, j, k)
  {
    store.slots[store.added[j].start + k]
  }

  /** Position of the compact buffer that token k of chunk j is copied from. */
  function Position(store: Store, j: nat, k: nat): int
    requires IsToken(store, j, k)
  {
    store.added[j].start - store.added[0].start + if SliceLength(store, j) != Length(store.added[j]) then 0 else k
  }

  lemma {:induction false} PositionInside(store: Store, j: nat, k: nat)
    requires IsToken(store, j, k) && Copyable(store, j)
    ensures 0 <= Position(store, j, k) < Size(store)
  {
    OffsetAtLeast(store.added, |store.slots|, j);
  }

  lemma {:induction false} CopyOutsElsewhere(owner: nat, store: Store, layer: nat, n: nat, loc: Loc)
    requires n <= |store.added| && (loc.Host? ==> loc.owner != owner || loc.layer != layer)
    ensures Untouched(CopyOuts(owner, store, layer, n), loc)
  {
    if n > 0 {
      CopyOutsElsewhere(owner, store, layer, n - 1, loc);
    }
  }

  lemma {:induction false} CopyOutsSave(m: Memory, owner: nat, store: Store, layer: nat, n: nat, j: nat, k: nat)
    requires IsToken(store, j, k) && j < n <= |store.added|
    ensures Run(m, CopyOuts(owner, store, layer, n))(Host(owner, layer, j, k)) == m(Buffer(owner, Position(store, j, k)))
  {
    hide Run;
    var rest, c := CopyOuts(owner, store, layer, n - 1), CopyChunk(owner, store, layer, n - 1);
    RunLast(m, rest, c);
    ExecCopyOut(Run(m, rest), owner, owner, layer, n - 1, c.at, c.len, c.repeated, j, k);
    if j == n - 1 {
      CopyOutsElsewhere(owner, store, layer, n - 1, Buffer(owner, Position(store, j, k)));
      RunKeeps(m, rest, Buffer(owner, Position(store, j, k)));
    } else {
      CopyOutsSave(m, owner, store, layer, n - 1, j, k);
    }
  }

  /** Every token of a memory object comes from some token of the request: its own one when
      the slice is in the right place. */
  lemma {:induction false} StoreOpsSave(m: Memory, owner: nat, store: Store, layer: nat, j: nat, k: nat)
    requires IsToken(store, j, k) && Copyable(store, j)
    ensures 0 <= Position(store, j, k) < |Target(store)|
    ensures Run(m, StoreOps(owner, store, layer))(Host(owner, layer, j, k)) == m(Page(layer, Target(store)[Position(store, j, k)]))
  {
    hide Run, CopyOuts;
    var head := [Await(layer + 1), Gather(owner, layer, Target(store))];
    PositionInside(store, j, k);
    RunConcat(m, head, CopyOuts(owner, store, layer, |store.added|));
    CopyOutsSave(Run(m, head), owner, store, layer, |store.added|, j, k);
    GatherFills(m, owner, layer, Target(store), Position(store, j, k));
  }

  lemma {:induction false} StoreOpsElsewhere(owner: nat, store: Store, layer: nat, loc: Loc)
    requires loc.Page? || (loc.Host? && (loc.owner != owner || loc.layer != layer))
    ensures Untouched(StoreOps(owner, store, layer), loc)
  {
    if store.added != [] {
      CopyOutsElsewhere(owner, store, layer, |store.added|, loc);
    }
  }

  /** Contiguous new chunks: every memory object receives its own tokens. */
  lemma {:induction false} ContiguousSaves(store: Store, j: nat, k: nat)
    requires IsToken(store, j, k) && Contiguous(store.added)
    ensures Copyable(store, j) && 0 <= Position(store, j, k) < |Target(store)|
    ensures Target(store)[Position(store, j, k)] == SlotOfToken(store, j, k)
  {
    ContiguousSlice(store, j);
    SlotAt(store.slots, store.added, |store.added|, j, k);
  }

  // ---- the generators ----

  /** Where `store_layer` stands: at the yield of a layer, at a yield of freeze mode, at the
      final yield, or finished. */
  datatype Point = Created | AtLayer(layer: nat) | FrozenAt(layer: nat) | Ended | Exhausted

  /** Where `batched_from_gpu` stands: a layer's copies are queued, or its buffer is freed. */
  datatype Offload = Off | Queued(layer: nat) | Freed

  /** A request of the step's metadata. `stores` is false for the two `continue`s of
      `save_kv_layer`; `healthy` and `frozen` are the engine's state. */
  datatype Request = Request(id: nat, stores: bool, store: Store, healthy: bool, frozen: bool)

  datatype Storer = Storer(request: Request, owner: nat, sync: bool, at: Point, offload: Offload)

  datatype Outcome = Yielded | StopIteration | RuntimeError

  /** A `batched_put`, with how much of the store stream the host had synchronised by then. */
  datatype Put = Put(owner: nat, layer: nat, synchronised: nat)

  predicate Offloads(q: Request) {
    q.stores && q.healthy && !q.frozen && q.store.added != []
  }

  /** The generator after its first `taken` nexts, unrolled. */
  ghost function After(q: Request, owner: nat, sync: bool, taken: nat, layers: nat): (s: Storer)
    ensures s.request == q && s.owner == owner && s.sync == sync
  {
    var gone := Storer(q, owner, sync, Exhausted, Off);
    if taken == 0 then gone.(at := Created)
    else if !q.healthy || (!q.frozen && !Fits(q.store)) then gone
    else if q.frozen then if taken <= layers then gone.(at := FrozenAt(taken - 1)) else gone
    else
      var off := if q.store.added == [] then Off else if taken <= layers then Queued(taken - 1) else Freed;
      Storer(q, owner, sync, if taken <= layers then AtLayer(taken - 1) else if taken == layers + 1 then Ended else Exhausted, off)
  }

  ghost function Handed(q: Request, taken: nat, layers: nat): Outcome {
    if !q.healthy then StopIteration
    else if q.frozen then if taken < layers then Yielded else StopIteration
    else if !Fits(q.store) then if taken == 0 then RuntimeError else StopIteration
    else if taken <= layers then Yielded else StopIteration
  }

  /** Nexts 1 .. layers each queue one layer; nexts 2 .. layers + 1 put the layer before. */
  function OpsOf(q: Request, owner: nat, taken: nat, layers: nat): seq<Op> {
    if Offloads(q) && taken < layers then StoreOps(owner, q.store, taken) else []
  }

  function PutsOf(q: Request, owner: nat, taken: nat, synchronised: nat): seq<Put> {
    if Offloads(q) && taken > 0 then [Put(owner, taken - 1, synchronised)] else []
  }

  lemma NothingFits(store: Store)
    requires store.added == []
    ensures Fits(store)
  {
  }

  // ---- whole steps ----

  function PlanOf(requests: seq<Request>): Plan {
    (i: nat, layer: nat) => if i < |requests| && Offloads(requests[i]) then StoreOps(i, requests[i].store, layer) else []
  }

  function SaveBlock(requests: seq<Request>, layer: nat, n: nat): (ops: seq<Op>)
    ensures n == 0 ==> ops == []
  {
    Block(PlanOf(requests), layer, n)
  }

  function SaveQueue(requests: seq<Request>, layers: nat): (ops: seq<Op>)
    ensures layers == 0 ==> ops == []
  {
    Queue(PlanOf(requests), |requests|, layers)
  }

  lemma SaveBlockNext(requests: seq<Request>, layer: nat, i: nat)
    requires i < |requests|
    ensures SaveBlock(requests, layer, i + 1)
         == SaveBlock(requests, layer, i) + if Offloads(requests[i]) then StoreOps(i, requests[i].store, layer) else []
  {
  }

  lemma SaveQueueNext(requests: seq<Request>, layers: nat)
    ensures SaveQueue(requests, layers + 1) == SaveQueue(requests, layers) + SaveBlock(requests, layers, |requests|)
  {
  }

  /** Index of the first request that stores; its generator is the one that synchronises. */
  function First(requests: seq<Request>): (i: nat)
    ensures i <= |requests| && (i < |requests| ==> requests[i].stores)
    ensures forall j :: 0 <= j < i ==> !requests[j].stores
  {
    if requests == [] || requests[0].stores then 0 else 1 + First(requests[1..])
  }

  predicate Synchronises(requests: seq<Request>) {
    First(requests) < |requests| && Offloads(requests[First(requests)])
  }

  lemma {:induction false} NothingBeforeFirst(requests: seq<Request>, layer: nat, n: nat)
    requires n <= First(requests)
    ensures SaveBlock(requests, layer, n) == []
    ensures forall synchronised :: PutBlock(requests, layer, synchronised, n) == []
  {
    if n > 0 {
      NothingBeforeFirst(requests, layer, n - 1);
      assert !Offloads(requests[n - 1]);
    }
  }

  /** The puts of one layer by the first n requests. */
  function PutBlock(requests: seq<Request>, layer: nat, synchronised: nat, n: nat): seq<Put>
    requires n <= |requests|
  {
    if n == 0 then []
    else PutBlock(requests, layer, synchronised, n - 1) + if Offloads(requests[n - 1]) then [Put(n - 1, layer, synchronised)] else []
  }

  lemma PutBlockNext(requests: seq<Request>, layer: nat, synchronised: nat, i: nat)
    requires i < |requests|
    ensures PutBlock(requests, layer, synchronised, i + 1)
         == PutBlock(requests, layer, synchronised, i) + if Offloads(requests[i]) then [Put(i, layer, synchronised)] else []
  {
  }

  /** How much of the stream the host had synchronised when the layer's puts happened. */
  function Mark(requests: seq<Request>, layer: nat, base: nat, before: nat): nat {
    if Synchronises(requests) then base + |SaveQueue(requests, layer + 1)| else before
  }

  /** The puts of the first `layers` layers: layer by layer, request by request. */
  function PutQueue(requests: seq<Request>, layers: nat, base: nat, before: nat): seq<Put> {
    if layers == 0 then [] else
      PutQueue(requests, layers - 1, base, before)
      + PutBlock(requests, layers - 1, Mark(requests, layers - 1, base, before), |requests|)
  }

  lemma PutQueueNext(requests: seq<Request>, layers: nat, base: nat, before: nat)
    ensures PutQueue(requests, 0, base, before) == []
    ensures PutQueue(requests, layers + 1, base, before)
         == PutQueue(requests, layers, base, before) + PutBlock(requests, layers, Mark(requests, layers, base, before), |requests|)
  {
  }

  /** The generators of a step never fail while the layers run. */
  predicate Sound(q: Request) {
    q.healthy && (q.frozen || Fits(q.store))
  }

  predicate AllSound(requests: seq<Request>) {
    forall i :: 0 <= i < |requests| && requests[i].stores ==> Sound(requests[i])
  }

  ghost predicate DistinctIds(requests: seq<Request>) {
    forall i, j :: 0 <= i < j < |requests| ==> requests[i].id != requests[j].id
  }

  class LayerwiseSaver {
    const numLayers: nat
    var storers: map<nat, Storer>
    var storeStream: seq<Op>
    /** The host has synchronised with this much of the store stream. */
    var synchronised: nat
    /** Layers whose compute has been launched. */
    var computed: nat
    var puts: seq<Put>

    /** One round of the loop of `batched_from_gpu`: wait for the compute launched so far,
        gather, copy out. The first slice `copy_` refuses raises. */
    method Offload(owner: nat, store: Store, layer: nat) returns (ok: bool)
      requires store.added != []
      modifies this`storeStream
      ensures ok <==> Fits(store)
      ensures ok && computed == layer + 1 ==> storeStream == old(storeStream) + StoreOps(owner, store, layer)
    {
      var head := [Await(computed), Gather(owner, layer, Target(store))];
      storeStream := storeStream + head;
      for j := 0 to |store.added|
        invariant storeStream == old(storeStream) + (head + CopyOuts(owner, store, layer, j))
        invariant forall i :: 0 <= i < j ==> Copyable(store, i)
      {
        if SliceLength(store, j) != Length(store.added[j]) && SliceLength(store, j) != 1 {
          assert !Copyable(store, j);
          return false;
        }
        storeStream := storeStream + [CopyChunk(owner, store, layer, j)];
      }
      return true;
    }

    /** One more layer of `batched_from_gpu`, and the put of the layer before. */
    method Advance(id: nat, layer: nat)
      requires id in storers && storers[id].offload == Queued(layer)
      requires storers[id].request.store.added != [] && Fits(storers[id].request.store)
      requires layer + 1 < numLayers ==> computed == layer + 2
      modifies this`storers, this`storeStream, this`synchronised, this`puts
      ensures
        var s := old(storers[id]);
        && storers == old(storers)[id := s.(offload := if layer + 1 < numLayers then Queued(layer + 1) else Freed)]
        && storeStream == old(storeStream) + (if layer + 1 < numLayers then StoreOps(s.owner, s.request.store, layer + 1) else [])
        && synchronised == (if s.sync then |old(storeStream)| else old(synchronised))
        && puts == old(puts) + [Put(s.owner, layer, synchronised)]
    {
      hide StoreOps, Fits, Proper;
      var s := storers[id];
      if s.sync {
        synchronised := |storeStream|;
      }
      if layer + 1 < numLayers {
        var ok := Offload(s.owner, s.request.store, layer + 1);
        storers := storers[id := s.(offload := Queued(layer + 1))];
      } else {
        storers := storers[id := s.(offload := Freed)];
      }
      puts := puts + [Put(s.owner, layer, synchronised)];
    }

    /** `next(layerwise_storer)` */
    method Next(id: nat, ghost taken: nat) returns (y: Outcome)
      requires numLayers > 0 && id in storers && storers[id].request.stores
      requires storers[id] == After(storers[id].request, storers[id].owner, storers[id].sync, taken, numLayers)
      requires taken < numLayers ==> computed == taken + 1
      modifies this`storers, this`storeStream, this`synchronised, this`puts
      ensures
        var s := old(storers[id]);
        && storers == old(storers)[id := After(s.request, s.owner, s.sync, taken + 1, numLayers)]
        && y == Handed(s.request, taken, numLayers)
        && (y.Yielded? ==> storeStream == old(storeStream) + OpsOf(s.request, s.owner, taken, numLayers))
        && (y.Yielded? ==> puts == old(puts) + PutsOf(s.request, s.owner, taken, synchronised))
        && synchronised == if s.sync && y.Yielded? && Offloads(s.request) && taken > 0 then |old(storeStream)| else old(synchronised)
    {
      hide StoreOps, Fits, Proper;
      var s := storers[id];
      match s.at
      case Created =>
        if !s.request.healthy {
          storers := storers[id := s.(at := Exhausted)];
          return StopIteration;
        }
        if s.request.frozen {
          storers := storers[id := s.(at := FrozenAt(0))];
          return Yielded;
        }
        if s.request.store.added == [] {
          NothingFits(s.request.store);
          storers := storers[id := s.(at := AtLayer(0))];
          return Yielded;
        }
        var ok := Offload(s.owner, s.request.store, 0);
        if !ok {
          storers := storers[id := s.(at := Exhausted)];
          return RuntimeError;
        }
        storers := storers[id := s.(at := AtLayer(0), offload := Queued(0))];
        return Yielded;
      case AtLayer(layer) =>
        if s.request.store.added != [] {
          Advance(id, layer);
        }
        storers := storers[id := storers[id].(at := if layer + 1 < numLayers then AtLayer(layer + 1) else Ended)];
        return Yielded;
      case FrozenAt(layer) =>
        if layer + 1 < numLayers {
          storers := storers[id := s.(at := FrozenAt(layer + 1))];
          return Yielded;
        }
        storers := storers[id := s.(at := Exhausted)];
        return StopIteration;
      case Ended | Exhausted =>
        storers := storers[id := s.(at := Exhausted)];
        return StopIteration;
    }

    /** The generator of a request: absent before its first next and for requests that do
        not store, else `taken` nexts along. */
    ghost predicate At(q: Request, owner: nat, sync: bool, taken: nat)
      reads this`storers
    {
      if !q.stores || taken == 0 then q.id !in storers
      else q.id in storers && storers[q.id] == After(q, owner, sync, taken, numLayers)
    }

    /** The first n generators are one next further than the others. */
    ghost predicate Midway(requests: seq<Request>, n: nat, taken: nat)
      reads this`storers
    {
      forall i :: 0 <= i < |requests| ==>
        At(requests[i], i, i == First(requests), if i < n then taken + 1 else taken)
    }

    /** One round of the loop of `save_kv_layer`. */
    method SaveOne(requests: seq<Request>, i: nat, isFirst: bool, ghost taken: nat) returns (y: Outcome)
      requires numLayers > 0 && i < |requests| && requests[i].stores && DistinctIds(requests)
      requires Midway(requests, i, taken) && taken < numLayers && computed == taken + 1
      requires taken == 0 ==> (isFirst <==> i == First(requests))
      modifies this`storers, this`storeStream, this`synchronised, this`puts
      ensures y.Yielded? <==> Sound(requests[i])
      ensures y.Yielded? ==> Midway(requests, i + 1, taken)
      ensures y.Yielded? ==> storeStream == old(storeStream) + OpsOf(requests[i], i, taken, numLayers)
      ensures y.Yielded? ==> puts == old(puts) + PutsOf(requests[i], i, taken, synchronised)
      ensures y.Yielded? ==>
        synchronised == if i == First(requests) && Offloads(requests[i]) && taken > 0 then |old(storeStream)| else old(synchronised)
    {
      hide After, Fits, Proper, StoreOps;
      var q := requests[i];
      if q.id !in storers {
        storers := storers[q.id := Storer(q, i, isFirst, Created, Off)];
        AfterNone(q, i, isFirst, numLayers);
      }
      y := Next(q.id, taken);
    }

    /** The loop body of `save_kv_layer`, also for requests it skips. */
    method SaveStep(requests: seq<Request>, i: nat, isFirst: bool, ghost layer: nat) returns (ok: bool)
      requires i < |requests| && DistinctIds(requests)
      requires Midway(requests, i, layer) && layer < numLayers && computed == layer + 1
      requires layer == 0 && requests[i].stores ==> (isFirst <==> i == First(requests))
      modifies this`storers, this`storeStream, this`synchronised, this`puts
      ensures ok <==> (requests[i].stores ==> Sound(requests[i]))
      ensures ok ==> Midway(requests, i + 1, layer)
      ensures ok ==> storeStream == old(storeStream) + if Offloads(requests[i]) then StoreOps(i, requests[i].store, layer) else []
      ensures ok ==>
        synchronised == if layer > 0 && i == First(requests) && Offloads(requests[i]) then |old(storeStream)| else old(synchronised)
      ensures ok ==>
        puts == old(puts) + if layer > 0 && Offloads(requests[i]) then [Put(i, layer - 1, synchronised)] else []
    {
      hide StoreOps, Fits, Proper, After, First, Handed, Sound;
      ok := true;
      if requests[i].stores {
        var y := SaveOne(requests, i, isFirst, layer);
        ok := y.Yielded?;
      } else {
        SkipsOne(requests, i, layer);
      }
    }

    /** `save_kv_layer`, called once the layer's compute is launched. Raises exactly when some
        storing request meets an unhealthy engine or a slice `copy_` refuses, and then in the
        first layer. */
    method SaveKvLayer(requests: seq<Request>, ghost layer: nat) returns (ok: bool)
      requires layer < numLayers && computed == layer + 1 && DistinctIds(requests)
      requires Midway(requests, 0, layer) && (layer > 0 ==> AllSound(requests))
      modifies this`storers, this`storeStream, this`synchronised, this`puts
      ensures ok <==> AllSound(requests)
      ensures ok ==> Midway(requests, |requests|, layer)
      ensures ok ==> storeStream == old(storeStream) + SaveBlock(requests, layer, |requests|)
      ensures ok ==> synchronised == if layer > 0 && Synchronises(requests) then |old(storeStream)| else old(synchronised)
      ensures ok ==> puts == old(puts) + if layer > 0 then PutBlock(requests, layer - 1, synchronised, |requests|) else []
    {
      hide SaveBlock, PutBlock, StoreOps, Midway, Fits, Proper, After, First, Handed, Sound;
      ghost var f := First(requests);
      ghost var mark := if layer > 0 && Synchronises(requests) then |storeStream| else synchronised;
      NothingBeforeFirst(requests, layer - (if layer > 0 then 1 else 0), 0);
      var isFirst := true;
      for i := 0 to |requests|
        invariant Midway(requests, i, layer)
        invariant layer == 0 ==> (isFirst <==> i <= f)
        invariant forall j :: 0 <= j < i && requests[j].stores ==> Sound(requests[j])
        invariant storeStream == old(storeStream) + SaveBlock(requests, layer, i)
        invariant synchronised == if i > f then mark else old(synchronised)
        invariant puts == old(puts) + if layer > 0 then PutBlock(requests, layer - 1, mark, i) else []
      {
        SaveBlockNext(requests, layer, i);
        if i <= f {
          NothingBeforeFirst(requests, layer, i);
        }
        if layer > 0 {
          PutBlockNext(requests, layer - 1, mark, i);
        }
        ok := SaveStep(requests, i, isFirst, layer);
        if !ok {
          return;
        }
        isFirst := isFirst && !requests[i].stores;
      }
      return true;
    }

    /** Generators before n are popped, the others have done every layer. */
    ghost predicate Popped(requests: seq<Request>, n: nat)
      reads this`storers
    {
      forall i :: 0 <= i < |requests| ==>
        if i < n then requests[i].id !in storers else At(requests[i], i, i == First(requests), numLayers)
    }

    /** One round of the loop of `wait_for_save`. */
    method FinishOne(requests: seq<Request>, i: nat) returns (y: Outcome)
      requires numLayers > 0 && i < |requests| && DistinctIds(requests) && Popped(requests, i)
      requires requests[i].stores ==> Sound(requests[i])
      modifies this`storers, this`storeStream, this`synchronised, this`puts
      ensures y == if requests[i].stores && requests[i].frozen then StopIteration else Yielded
      ensures Popped(requests, i + 1)
      ensures y.Yielded? ==> storeStream == old(storeStream)
      ensures y.Yielded? ==> puts == old(puts) + if Offloads(requests[i]) then [Put(i, numLayers - 1, synchronised)] else []
      ensures y.Yielded? ==>
        synchronised == if i == First(requests) && Offloads(requests[i]) then |old(storeStream)| else old(synchronised)
    {
      hide After, Fits, Proper, StoreOps, First;
      y := Yielded;
      if requests[i].id in storers {
        y := Next(requests[i].id, numLayers);
        storers := storers - {requests[i].id};
      }
    }

    /** `wait_for_save`: the last next of every generator. A frozen engine's generators have
        none left, so it raises exactly when some storing request was frozen. */
    method WaitForSave(requests: seq<Request>) returns (ok: bool)
      requires numLayers > 0 && DistinctIds(requests) && Popped(requests, 0) && AllSound(requests)
      modifies this`storers, this`storeStream, this`synchronised, this`puts
      ensures ok <==> forall i :: 0 <= i < |requests| && requests[i].stores ==> !requests[i].frozen
      ensures ok ==> Popped(requests, |requests|) && storeStream == old(storeStream)
      ensures ok ==> synchronised == if Synchronises(requests) then |storeStream| else old(synchronised)
      ensures ok ==> puts == old(puts) + PutBlock(requests, numLayers - 1, synchronised, |requests|)
    {
      hide PutBlock, StoreOps, Popped, Fits, Proper, After, First;
      ghost var f := First(requests);
      ghost var mark := if Synchronises(requests) then |storeStream| else synchronised;
      NothingBeforeFirst(requests, numLayers - 1, 0);
      for i := 0 to |requests|
        invariant Popped(requests, i)
        invariant forall j :: 0 <= j < i && requests[j].stores ==> !requests[j].frozen
        invariant storeStream == old(storeStream)
        invariant synchronised == if i > f then mark else old(synchronised)
        invariant puts == old(puts) + PutBlock(requests, numLayers - 1, mark, i)
      {
        PutBlockNext(requests, numLayers - 1, mark, i);
        var y := FinishOne(requests, i);
        if !y.Yielded? {
          return false;
        }
      }
      return true;
    }

    /** One forward pass: each layer's compute is launched, then `save_kv_layer` runs; after
        the last layer `wait_for_save`. */
    method SaveAllLayers(requests: seq<Request>) returns (ok: bool)
      requires numLayers > 0 && DistinctIds(requests) && forall i :: 0 <= i < |requests| ==> requests[i].id !in storers
      modifies this`storers, this`storeStream, this`synchronised, this`computed, this`puts
      ensures ok <==> forall i :: 0 <= i < |requests| && requests[i].stores ==>
        requests[i].healthy && !requests[i].frozen && Contiguous(requests[i].store.added)
      ensures ok ==> forall i :: 0 <= i < |requests| ==> requests[i].id !in storers
      ensures ok ==> storeStream == old(storeStream) + SaveQueue(requests, numLayers)
      ensures ok ==> puts == old(puts) + PutQueue(requests, numLayers, |old(storeStream)|, old(synchronised))
      ensures ok ==> Guarded(storeStream, |old(storeStream)|) && (StoresOnly(old(storeStream)) ==> StoresOnly(storeStream))
    {
      hide SaveQueue, SaveBlock, PutBlock, PutQueue, After, StoreOps, First, Fits, Proper, Guarded, StoresOnly;
      ghost var base, before := |storeStream|, synchronised;
      forall i | 0 <= i < |requests| ensures Fits(requests[i].store) <==> Contiguous(requests[i].store.added) {
        FitsExact(requests[i].store);
      }
      computed := 0;
      PutQueueNext(requests, 0, base, before);
      for layer := 0 to numLayers
        invariant computed == layer && Midway(requests, 0, layer) && (layer > 0 ==> AllSound(requests))
        invariant storeStream == old(storeStream) + SaveQueue(requests, layer)
        invariant layer <= 1 || !Synchronises(requests) ==> synchronised == before
        invariant puts == old(puts) + PutQueue(requests, if layer > 0 then layer - 1 else 0, base, before)
      {
        SaveQueueNext(requests, layer);
        PutQueueNext(requests, layer - (if layer > 0 then 1 else 0), base, before);
        computed := computed + 1;
        ok := SaveKvLayer(requests, layer);
        if !ok {
          return;
        }
      }
      PutQueueNext(requests, numLayers - 1, base, before);
      SaveQueueGuarded(requests, numLayers);
      GuardedBehind(old(storeStream), SaveQueue(requests, numLayers));
      if StoresOnly(old(storeStream)) {
        StoresConcat(old(storeStream), SaveQueue(requests, numLayers));
      }
      ok := WaitForSave(requests);
    }

    lemma SkipsOne(requests: seq<Request>, i: nat, taken: nat)
      requires i < |requests| && !requests[i].stores && Midway(requests, i, taken)
      ensures Midway(requests, i + 1, taken)
    {
    }
  }

  lemma AfterNone(q: Request, owner: nat, sync: bool, layers: nat)
    ensures After(q, owner, sync, 0, layers) == Storer(q, owner, sync, Created, Off)
  {
  }

  // ---- what the puts find ----

  lemma {:induction false} PutBlockMembers(requests: seq<Request>, layer: nat, synchronised: nat, n: nat, p: Put)
    requires n <= |requests|
    ensures p in PutBlock(requests, layer, synchronised, n)
      <==> p.owner < n && Offloads(requests[p.owner]) && p.layer == layer && p.synchronised == synchronised
  {
    if n > 0 {
      PutBlockMembers(requests, layer, synchronised, n - 1, p);
    }
  }

  /** Every new chunk list is put once for every layer, and with how much synchronised. */
  lemma {:induction false} PutQueueMembers(requests: seq<Request>, layers: nat, base: nat, before: nat, p: Put)
    ensures p in PutQueue(requests, layers, base, before)
      <==> && p.owner < |requests| && p.layer < layers && p.synchronised == Mark(requests, p.layer, base, before)
           && var q := requests[p.owner]; q.stores && q.healthy && !q.frozen && q.store.added != []
  {
    hide PutQueue, PutBlock, Mark;
    PutQueueNext(requests, 0, base, before);
    if layers > 0 {
      PutQueueNext(requests, layers - 1, base, before);
      PutQueueMembers(requests, layers - 1, base, before, p);
      PutBlockMembers(requests, layers - 1, Mark(requests, layers - 1, base, before), |requests|, p);
    }
  }

  lemma {:induction false} PutBlockDistinct(requests: seq<Request>, layer: nat, synchronised: nat, n: nat)
    requires n <= |requests|
    ensures Distinct(PutBlock(requests, layer, synchronised, n))
  {
    if n > 0 {
      PutBlockDistinct(requests, layer, synchronised, n - 1);
      PutBlockMembers(requests, layer, synchronised, n - 1, Put(n - 1, layer, synchronised));
    }
  }

  lemma {:induction false} LayersApart(requests: seq<Request>, layers: nat, base: nat, before: nat, p: Put)
    requires p in PutQueue(requests, layers, base, before)
    ensures p !in PutBlock(requests, layers, Mark(requests, layers, base, before), |requests|)
  {
    hide PutQueue, PutBlock, Mark;
    PutQueueMembers(requests, layers, base, before, p);
    PutBlockMembers(requests, layers, Mark(requests, layers, base, before), |requests|, p);
  }

  /** No put happens twice. */
  lemma {:induction false} PutQueueDistinct(requests: seq<Request>, layers: nat, base: nat, before: nat)
    ensures Distinct(PutQueue(requests, layers, base, before))
  {
    hide PutQueue, PutBlock, Mark;
    PutQueueNext(requests, 0, base, before);
    if layers > 0 {
      var rest := PutQueue(requests, layers - 1, base, before);
      var block := PutBlock(requests, layers - 1, Mark(requests, layers - 1, base, before), |requests|);
      PutQueueNext(requests, layers - 1, base, before);
      PutQueueDistinct(requests, layers - 1, base, before);
      PutBlockDistinct(requests, layers - 1, Mark(requests, layers - 1, base, before), |requests|);
      forall p | p in rest ensures p !in block {
        LayersApart(requests, layers - 1, base, before, p);
      }
      DistinctConcat(rest, block);
    }
  }

  lemma DistinctConcat(a: seq<Put>, b: seq<Put>)
    requires Distinct(a) && Distinct(b) && forall p :: p in a ==> p !in b
    ensures Distinct(a + b)
  {
    forall i, j | 0 <= i < j < |a + b| ensures (a + b)[i] != (a + b)[j] {
      if i < |a| && j >= |a| {
        assert a[i] in a && b[j - |a|] in b;
      }
    }
  }

  lemma {:induction false} TokenSettles(m: Memory, requests: seq<Request>, layers: nat, layer: nat, n: nat, i: nat, j: nat, k: nat)
    requires i < |requests| && Offloads(requests[i]) && layer < layers
    requires IsToken(requests[i].store, j, k) && Contiguous(requests[i].store.added)
    requires |SaveQueue(requests, layer + 1)| <= n <= |SaveQueue(requests, layers)|
    ensures Run(m, SaveQueue(requests, layers)[..n])(Host(i, layer, j, k)) == m(Page(layer, SlotOfToken(requests[i].store, j, k)))
  {
    hide Run, Queue, Before, Filled, Proper;
    var plan, count := PlanOf(requests), |requests|;
    var page, host := Page(layer, SlotOfToken(requests[i].store, j, k)), Host(i, layer, j, k);
    forall o: nat, l: nat | o < count ensures (o != i || l != layer ==> LeavesAlone(plan, o, l, host)) && LeavesAlone(plan, o, l, page) {
      StoreOpsElsewhere(o, requests[o].store, l, page);
      if o != i || l != layer {
        StoreOpsElsewhere(o, requests[o].store, l, host);
      }
    }
    PrefixSettles(m, plan, count, layers, layer, n, i, host);
    ContiguousSaves(requests[i].store, j, k);
    StoreOpsSave(Run(m, Before(plan, count, layer, i)), i, requests[i].store, layer, j, k);
    BeforeKeeps(m, plan, count, layer, i, page);
  }

  lemma {:induction false} PlanGuarded(requests: seq<Request>, i: nat, layer: nat)
    ensures Guarded(PlanOf(requests)(i, layer), 0) && StoresOnly(PlanOf(requests)(i, layer))
  {
    hide Guarded, StoresOnly, StoreOps, Proper;
    NothingGuarded();
    if i < |requests| {
      StoreOpsGuarded(i, requests[i].store, layer);
    }
  }

  /** Every gather that is queued waits for its layer's compute. */
  lemma {:induction false} BlockGuarded(requests: seq<Request>, layer: nat, n: nat)
    ensures Guarded(SaveBlock(requests, layer, n), 0) && StoresOnly(SaveBlock(requests, layer, n))
  {
    hide Guarded, StoresOnly, PlanOf;
    if n == 0 {
      NothingGuarded();
    } else {
      var rest, ops := SaveBlock(requests, layer, n - 1), PlanOf(requests)(n - 1, layer);
      BlockGuarded(requests, layer, n - 1);
      PlanGuarded(requests, n - 1, layer);
      GuardedConcat(rest, ops);
      StoresConcat(rest, ops);
    }
  }

  lemma {:induction false} SaveQueueGuarded(requests: seq<Request>, layers: nat)
    ensures Guarded(SaveQueue(requests, layers), 0) && StoresOnly(SaveQueue(requests, layers))
  {
    hide Guarded, StoresOnly, SaveBlock, SaveQueue;
    if layers == 0 {
      NothingGuarded();
    } else {
      SaveQueueGuarded(requests, layers - 1);
      BlockGuarded(requests, layers - 1, |requests|);
      SaveQueueNext(requests, layers - 1);
      GuardedConcat(SaveQueue(requests, layers - 1), SaveBlock(requests, layers - 1, |requests|));
      StoresConcat(SaveQueue(requests, layers - 1), SaveBlock(requests, layers - 1, |requests|));
    }
  }

  lemma {:induction false} CopyOutsAre(owner: nat, store: Store, layer: nat, n: nat)
    requires n <= |store.added|
    ensures forall i :: 0 <= i < n ==> CopyOuts(owner, store, layer, n)[i].CopyOut?
  {
    if n > 0 {
      CopyOutsAre(owner, store, layer, n - 1);
    }
  }

  lemma {:induction false} StoreOpsGuarded(owner: nat, store: Store, layer: nat)
    ensures Guarded(StoreOps(owner, store, layer), 0) && StoresOnly(StoreOps(owner, store, layer))
  {
    var ops := StoreOps(owner, store, layer);
    if ops != [] {
      CopyOutsAre(owner, store, layer, |store.added|);
      assert ops[0] == Await(layer + 1) && ops[1] == Gather(owner, layer, Target(store));
      assert GuardedAt(ops, 0, 1);
      forall i | 2 <= i < |ops| ensures ops[i].CopyOut? {
        assert ops[i] == CopyOuts(owner, store, layer, |store.added|)[i - 2];
      }
    }
  }

  /** A put whose layer was synchronised finds in its memory objects, for every token of
      contiguous new chunks, what the layer's compute left in the token's own slot: however
      the forward pass and the store stream run, and whatever had been queued or synchronised
      before the step. */
  lemma {:induction false} SynchronisedPutIsComplete(
      m: Memory, compute: seq<Op>, a: nat, base: seq<Op>, requests: seq<Request>, layers: nat, before: nat, p: Put, s: nat, c: seq<Op>,
      j: nat, k: nat)
    requires p in PutQueue(requests, layers, |base|, before) && Synchronises(requests)
    requires ForwardPass(compute) && a <= |compute| && layers <= |compute| && StoresOnly(base)
    requires p.synchronised <= s <= |base + SaveQueue(requests, layers)|
    requires Runs(compute, 0, a, base + SaveQueue(requests, layers), |base|, s, c)
    requires p.owner < |requests| && IsToken(requests[p.owner].store, j, k) && Contiguous(requests[p.owner].store.added)
    ensures Run(m, c)(Host(p.owner, p.layer, j, k))
         == Computed(m, compute, 0, p.layer, SlotOfToken(requests[p.owner].store, j, k))
  {
    hide Run, SaveQueue, Proper, First, Filled, Runs, Guarded, StoresOnly, Computed, ForwardPass, SlotOfToken;
    PutQueueMembers(requests, layers, |base|, before, p);
    var queue := SaveQueue(requests, layers);
    SaveQueueGuarded(requests, layers);
    GuardedBehind(base, queue);
    StoresConcat(base, queue);
    assert (base + queue)[|base|..s] == queue[..s - |base|];
    ForwardIsCompute(compute);
    var others := StoreSees(m, compute, 0, a, base + queue, |base|, s, c);
    TokenSettles(WithPages(m, compute, 0, others), requests, layers, p.layer, s - |base|, p.owner, j, k);
  }

  /** When the first storing request has no new chunk, nobody synchronises: each put happens
      with what had been synchronised before the step, and at that point, with the put's own
      layer computed, the stream may have run so little that the put finds none of its tokens. */
  lemma {:induction false} UnsynchronisedPuts(
      compute: seq<Op>, base: seq<Op>, requests: seq<Request>, layers: nat, before: nat, p: Put, j: nat, k: nat)
    returns (m: Memory, c: seq<Op>)
    requires !Synchronises(requests) && p in PutQueue(requests, layers, |base|, before) && before <= |base|
    requires ForwardPass(compute) && p.layer < layers <= |compute|
    requires p.owner < |requests| && IsToken(requests[p.owner].store, j, k)
    requires Untouched(base, Host(p.owner, p.layer, j, k))
    ensures p.synchronised == before <= |base|
    ensures Runs(compute, 0, p.layer + 1, base + SaveQueue(requests, layers), |base|, |base|, c)
    ensures Run(m, c)(Host(p.owner, p.layer, j, k))
         != Computed(m, compute, 0, p.layer, SlotOfToken(requests[p.owner].store, j, k))
  {
    hide Run, SaveQueue, Runs, SlotOfToken;
    PutQueueMembers(requests, layers, |base|, before, p);
    var slot, host := SlotOfToken(requests[p.owner].store, j, k), Host(p.owner, p.layer, j, k);
    var stored := if slot in compute[p.layer].written then compute[p.layer].written[slot] else KV(0, 0);
    m := (loc: Loc) => if loc.Host? then KV(stored.key + 1, 0) else KV(0, 0);
    c := compute[..p.layer + 1] + base;
    ComputeThenStore(compute, 0, p.layer + 1, base + SaveQueue(requests, layers), |base|, |base|);
    assert compute[0..p.layer + 1] + (base + SaveQueue(requests, layers))[..|base|] == c;
    assert Untouched(compute[..p.layer + 1], host);
    UntouchedConcat(compute[..p.layer + 1], base, host);
    RunKeeps(m, c, host);
  }
}
