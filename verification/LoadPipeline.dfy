/** Layerwise loading: the generators of `retrieve_layer` and `batched_to_gpu`, driven by
    `start_load_kv` and `wait_for_layer_load`, and the load stream they fill. */
module LoadPipeline {
  import opened Streams
  import opened Chunks
  import opened Masks
  import opened Results

  /** What is loaded for a request: the chunks that hit, and the slot of each of its tokens. */
  datatype Retrieval = Retrieval(hits: seq<Chunk>, slots: seq<nat>)
  type Load = r: Retrieval | Proper(r) witness Retrieval([], [])

  ghost predicate Proper(r: Retrieval) {
    Ordered(r.hits, |r.slots|) && Contiguous(r.hits)
  }

  /** What a request asks for: the chunks of its tokens, which the token database yields in
      order and without gaps, the backend that `contains` reports for each one's first layer
      when it is asked, and the slot of each token. */
  datatype Wanted = Wanted(chunks: seq<Chunk>, places: seq<Option<nat>>, slots: seq<nat>)
  type Query = q: Wanted | Askable(q) witness Wanted([], [], [])

  ghost predicate Askable(q: Wanted) {
    Ordered(q.chunks, |q.slots|) && Contiguous(q.chunks) && |q.places| == |q.chunks|
  }

  /** Chunks before the first miss. */
  function HitCount(places: seq<Option<nat>>): (n: nat)
    ensures n <= |places|
    ensures forall i :: 0 <= i < n ==> places[i].Some?
    ensures n < |places| ==> places[n].None?
  {
    if places == [] || places[0].None? then 0 else 1 + HitCount(places[1..])
  }

  lemma {:induction false} HitCountUnique(places: seq<Option<nat>>, n: nat)
    requires n <= |places| && (forall i :: 0 <= i < n ==> places[i].Some?) && (n < |places| ==> places[n].None?)
    ensures n == HitCount(places)
  {
  }

  function LoadOf(q: Query): Load {
    Retrieval(q.chunks[..HitCount(q.places)], q.slots)
  }

  /** Every chunk that hit is reported in the same backend. */
  predicate OneLocation(q: Query) {
    forall i :: 0 <= i < HitCount(q.places) ==> q.places[i] == q.places[0]
  }

  // ---- what one layer of one request queues ----

  function CopyIns(owner: nat, load: Load, layer: nat, n: nat): (ops: seq<Op>)
    requires n <= |load.hits|
    ensures |ops| == n
  {
    if n == 0 then []
    else
      var c := load.hits[n - 1];
      CopyIns(owner, load, layer, n - 1) + [CopyIn(owner, owner, layer, n - 1, c.start - load.hits[0].start, c.end - c.start)]
  }

  /** `slot_mapping_full` */
  function Target(load: Load): seq<nat> {
    Slots(load.slots, load.hits, |load.hits|)
  }

  function LayerOps(owner: nat, load: Load, layer: nat): (ops: seq<Op>)
    ensures ops == [] <==> load.hits == []
  {
    if load.hits == [] then []
    else CopyIns(owner, load, layer, |load.hits|) + [Scatter(owner, layer, Target(load))]
  }

  function PlanOf(loads: seq<Load>): Plan {
    (i: nat, layer: nat) => if i < |loads| then LayerOps(i, loads[i], layer) else []
  }

  predicate IsToken(load: Load, j: nat, k: nat) {
    j < |load.hits| && k < load.hits[j].end - load.hits[j].start
  }

  /** Slot of token k of hit chunk j. */
  function SlotOfToken(load: Load, j: nat, k: nat): (slot: nat)
    requires IsToken(load, j, k)
    ensures slot in Target(load)
  {
    SlotAt(load.slots, load.hits, |load.hits|, j, k);
    load.slots[load.hits[j].start + k]
  }

  // ---- what running it leaves in paged memory ----

  /** Copies into the staging buffer write nothing else. */
  lemma {:induction false} CopyInsElsewhere(owner: nat, load: Load, layer: nat, n: nat, loc: Loc)
    requires n <= |load.hits| && !loc.Buffer?
    ensures Untouched(CopyIns(owner, load, layer, n), loc)
  {
    if n > 0 {
      CopyInsElsewhere(owner, load, layer, n - 1, loc);
    }
  }

  /** Chunks are contiguous, so `start - offset` is the chunk's place in the compact buffer
      and a copy overwrites no other chunk's tokens. */
  lemma {:induction false} CopyInsLast(m: Memory, owner: nat, load: Load, layer: nat, n: nat, p: nat)
    requires 0 < n <= |load.hits|
    ensures Run(m, CopyIns(owner, load, layer, n))(Buffer(owner, p))
         == Run(m, CopyIns(owner, load, layer, n - 1))(
              if Filled(load.hits, n - 1) <= p < Filled(load.hits, n) then Host(owner, layer, n - 1, p - Filled(load.hits, n - 1))
              else Buffer(owner, p))
  {
    hide Run;
    var rest, at, len := CopyIns(owner, load, layer, n - 1), Filled(load.hits, n - 1), load.hits[n - 1].end - load.hits[n - 1].start;
    ContiguousOffset(load.hits, |load.slots|, n - 1);
    RunLast(m, rest, CopyIn(owner, owner, layer, n - 1, at, len));
    ExecCopyIn(Run(m, rest), owner, owner, layer, n - 1, at, len, p);
  }

  lemma {:induction false} CopyInsKeep(m: Memory, owner: nat, load: Load, layer: nat, n: nat, loc: Loc)
    requires n <= |load.hits| && !loc.Buffer?
    ensures Run(m, CopyIns(owner, load, layer, n))(loc) == m(loc)
  {
    CopyInsElsewhere(owner, load, layer, n, loc);
    RunKeeps(m, CopyIns(owner, load, layer, n), loc);
  }

  lemma {:induction false} CopyInsFill(m: Memory, owner: nat, load: Load, layer: nat, n: nat, j: nat, k: nat)
    requires IsToken(load, j, k) && j < n <= |load.hits|
    ensures Run(m, CopyIns(owner, load, layer, n))(Buffer(owner, Filled(load.hits, j) + k)) == m(Host(owner, layer, j, k))
  {
    hide Run, Filled, CopyIns;
    var p := Filled(load.hits, j) + k;
    CopyInsLast(m, owner, load, layer, n, p);
    FilledMonotone(load.hits, j, n - 1);
    FilledMonotone(load.hits, n - 1, n);
    if j == n - 1 {
      assert Filled(load.hits, n - 1) <= p < Filled(load.hits, n) && p - Filled(load.hits, n - 1) == k;
      CopyInsKeep(m, owner, load, layer, n - 1, Host(owner, layer, j, k));
    } else {
      assert p < Filled(load.hits, n - 1);
      CopyInsFill(m, owner, load, layer, n - 1, j, k);
    }
  }

  /** The operations of one layer put into every target slot the data of a hit token that
      the slot belongs to. */
  lemma {:induction false} LayerOpsLoad(m: Memory, owner: nat, load: Load, layer: nat, slot: nat) returns (j: nat, k: nat)
    requires slot in Target(load)
    ensures IsToken(load, j, k) && SlotOfToken(load, j, k) == slot
    ensures Run(m, LayerOps(owner, load, layer))(Page(layer, slot)) == m(Host(owner, layer, j, k))
  {
    hide Run, Filled, CopyIns;
    var n, p := |load.hits|, IndexOf(Target(load), slot);
    var copies, scatter, loc := CopyIns(owner, load, layer, n), Scatter(owner, layer, Target(load)), Page(layer, slot);
    j, k := TokenAt(load.hits, n, p);
    SlotAt(load.slots, load.hits, n, j, k);
    assert Writes(scatter, loc) && Source(scatter, loc) == Buffer(owner, p);
    RunLast(m, copies, scatter);
    CopyInsFill(m, owner, load, layer, n, j, k);
  }

  lemma {:induction false} LayerOpsElsewhere(owner: nat, load: Load, layer: nat, loc: Loc)
    requires loc.Host? || (loc.Page? && (loc.layer != layer || loc.slot !in Target(load)))
    ensures Untouched(LayerOps(owner, load, layer), loc)
  {
    if load.hits != [] {
      CopyInsElsewhere(owner, load, layer, |load.hits|, loc);
    }
  }

  /** Hit tokens that share a slot, as those of a prefix block shared by two requests do, have
      the same data. */
  ghost predicate SlotsAgree(m: Memory, loads: seq<Load>, layer: nat) {
    forall i: nat, j: nat, k: nat, i': nat, j': nat, k': nat ::
      i < |loads| && i' < |loads| && IsToken(loads[i], j, k) && IsToken(loads[i'], j', k')
      && SlotOfToken(loads[i], j, k) == SlotOfToken(loads[i'], j', k')
      ==> m(Host(i, layer, j, k)) == m(Host(i', layer, j', k'))
  }

  /** No two tokens of the step load into the same slot. */
  ghost predicate SlotsApart(loads: seq<Load>) {
    forall i: nat, j: nat, k: nat, i': nat, j': nat, k': nat ::
      i < |loads| && i' < |loads| && IsToken(loads[i], j, k) && IsToken(loads[i'], j', k')
      && SlotOfToken(loads[i], j, k) == SlotOfToken(loads[i'], j', k')
      ==> i == i' && j == j' && k == k'
  }

  lemma SlotsApartAgree(m: Memory, loads: seq<Load>, layer: nat)
    requires SlotsApart(loads)
    ensures SlotsAgree(m, loads, layer)
  {
  }

  /** Every hit token has the data of its memory object in its own slot of the layer. */
  ghost predicate LayerLoaded(before: Memory, now: Memory, loads: seq<Load>, layer: nat) {
    forall i: nat, j: nat, k: nat :: i < |loads| && IsToken(loads[i], j, k)
      ==> now(Page(layer, SlotOfToken(loads[i], j, k))) == before(Host(i, layer, j, k))
  }

  /** Whoever writes a token's slot in the layer leaves the token's data there. */
  lemma {:induction false} WriterAgrees(m: Memory, loads: seq<Load>, layer: nat, i: nat, j: nat, k: nat, o: nat)
    requires SlotsAgree(m, loads, layer) && i < |loads| && IsToken(loads[i], j, k) && o < |loads|
    ensures
      var plan, page := PlanOf(loads), Page(layer, SlotOfToken(loads[i], j, k));
      if page.slot in Target(loads[o])
      then Left(m, plan, |loads|, layer, o, page) == m(Host(i, layer, j, k))
      else LeavesAlone(plan, o, layer, page)
  {
    hide Run, Before, Target;
    var plan, page := PlanOf(loads), Page(layer, SlotOfToken(loads[i], j, k));
    if page.slot in Target(loads[o]) {
      var j', k' := LayerOpsLoad(Run(m, Before(plan, |loads|, layer, o)), o, loads[o], layer, page.slot);
      HostsKept(m, loads, layer, o, Host(o, layer, j', k'));
    } else {
      LayerOpsElsewhere(o, loads[o], layer, page);
    }
  }

  /** Loading never writes a memory object. */
  lemma {:induction false} HostsKept(m: Memory, loads: seq<Load>, layer: nat, o: nat, host: Loc)
    requires o <= |loads| && host.Host?
    ensures Run(m, Before(PlanOf(loads), |loads|, layer, o))(host) == m(host)
  {
    forall q: nat, l: nat | q < |loads| ensures LeavesAlone(PlanOf(loads), q, l, host) {
      LayerOpsElsewhere(q, loads[q], l, host);
    }
    BeforeKeeps(m, PlanOf(loads), |loads|, layer, o, host);
  }

  lemma {:induction false} TokenSettles(m: Memory, loads: seq<Load>, layers: nat, layer: nat, n: nat, i: nat, j: nat, k: nat)
    requires SlotsAgree(m, loads, layer) && layer < layers && i < |loads| && IsToken(loads[i], j, k)
    requires |Queue(PlanOf(loads), |loads|, layer + 1)| <= n <= |Queue(PlanOf(loads), |loads|, layers)|
    ensures Run(m, Queue(PlanOf(loads), |loads|, layers)[..n])(Page(layer, SlotOfToken(loads[i], j, k))) == m(Host(i, layer, j, k))
  {
    hide Run, Queue, Before, SlotsAgree, Left, Target;
    var plan, page := PlanOf(loads), Page(layer, SlotOfToken(loads[i], j, k));
    forall o: nat, l: nat | o < |loads| && l != layer ensures LeavesAlone(plan, o, l, page) {
      LayerOpsElsewhere(o, loads[o], l, page);
    }
    forall o: nat | o < |loads|
      ensures LeavesAlone(plan, o, layer, page) || Left(m, plan, |loads|, layer, o, page) == m(Host(i, layer, j, k))
    {
      WriterAgrees(m, loads, layer, i, j, k, o);
    }
    WriterAgrees(m, loads, layer, i, j, k, i);
    PrefixAgrees(m, plan, |loads|, layers, layer, n, i, page, m(Host(i, layer, j, k)));
  }

  /** Whatever prefix of the load stream has run, as long as it covers the first `layer + 1`
      layers, that layer is loaded for every request. */
  lemma {:induction false} PrefixLoads(m: Memory, loads: seq<Load>, layers: nat, layer: nat, n: nat)
    requires SlotsAgree(m, loads, layer) && layer < layers
    requires |Queue(PlanOf(loads), |loads|, layer + 1)| <= n <= |Queue(PlanOf(loads), |loads|, layers)|
    ensures LayerLoaded(m, Run(m, Queue(PlanOf(loads), |loads|, layers)[..n]), loads, layer)
  {
    forall i: nat, j: nat, k: nat | i < |loads| && IsToken(loads[i], j, k)
      ensures Run(m, Queue(PlanOf(loads), |loads|, layers)[..n])(Page(layer, SlotOfToken(loads[i], j, k))) == m(Host(i, layer, j, k))
    {
      TokenSettles(m, loads, layers, layer, n, i, j, k);
    }
  }

  // ---- the generators ----

  /** Where `retrieve_layer` stands: at the yield of a layer, at the yield after its loop, at
      the final yield of the mask, at the yield of an unhealthy engine, or finished. */
  datatype Point = Created | AtLayer(layer: nat) | Drained | Finished | Zeroed | Exhausted

  /** Where `batched_to_gpu` stands. Without hits `mem_obj_consumer` is never assigned. */
  datatype Consumer = Unbound | AwaitLayer(layer: nat) | Loaded | Freed

  /** `load` and `mask` are what the first next has collected. */
  datatype Retriever = Retriever(
    query: Query, load: Load, mask: seq<bool>, healthy: bool, sync: bool, at: Point, consumer: Consumer)

  datatype Outcome =
    | Tokens(count: nat) | Nothing | Mask(mask: seq<bool>)
    | StopIteration | UnboundLocalError | AssertionError

  /** `ret_mask` with the first n hits marked. */
  function MaskOf(load: Load, n: nat): (mask: seq<bool>)
    requires n <= |load.hits|
    ensures |mask| == |load.slots|
  {
    if n == 0 then seq(|load.slots|, p => false) else Marked(MaskOf(load, n - 1), load.hits[n - 1].start, load.hits[n - 1].end)
  }

  function RetMask(load: Load): (mask: seq<bool>)
    ensures |mask| == |load.slots|
  {
    MaskOf(load, |load.hits|)
  }

  lemma {:induction false} MaskMarks(load: Load, n: nat, p: nat)
    requires n <= |load.hits| && p < |load.slots|
    ensures MaskOf(load, n)[p] <==> exists j: nat :: j < n && load.hits[j].start <= p < load.hits[j].end
  {
    if n > 0 {
      MaskMarks(load, n - 1, p);
    }
  }

  /** `torch.sum(ret_mask)` is the number of tokens in the hits. */
  lemma {:induction false} MaskCounts(load: Load, n: nat)
    requires n <= |load.hits|
    ensures Count(MaskOf(load, n)) == Filled(load.hits, n)
  {
    if n == 0 {
      CountNone(|load.slots|);
    } else {
      MaskCounts(load, n - 1);
      var c, before := load.hits[n - 1], MaskOf(load, n - 1);
      forall p | c.start <= p < c.end ensures !before[p] {
        MaskMarks(load, n - 1, p);
      }
      CountMarked(before, c.start, c.end);
    }
  }

  /** Chunk j of the query comes before its first miss. */
  ghost predicate HitChunk(q: Wanted, j: nat) {
    j < |q.chunks| && j < |q.places| && forall i :: 0 <= i <= j ==> q.places[i].Some?
  }

  ghost predicate HitToken(q: Wanted, j: nat, p: nat) {
    HitChunk(q, j) && q.chunks[j].start <= p < q.chunks[j].end
  }

  /** The mask marks exactly the tokens of the chunks before the first miss. */
  ghost predicate MarksHits(mask: seq<bool>, q: Wanted) {
    && |mask| == |q.slots|
    && forall p: nat :: p < |mask| ==> (mask[p] <==> exists j: nat :: HitToken(q, j, p))
  }

  lemma {:induction false} HitChunkExact(q: Query, j: nat)
    ensures HitChunk(q, j) <==> j < HitCount(q.places)
  {
  }

  lemma {:induction false} RetMaskExact(q: Query)
    ensures MarksHits(RetMask(LoadOf(q)), q)
  {
    hide HitCount, MaskOf, Proper, Ordered, Contiguous;
    var load := LoadOf(q);
    forall p: nat | p < |q.slots| ensures RetMask(load)[p] <==> exists j: nat :: HitToken(q, j, p) {
      MaskMarks(load, |load.hits|, p);
      if j: nat :| j < |load.hits| && load.hits[j].start <= p < load.hits[j].end {
        HitChunkExact(q, j);
        assert HitToken(q, j, p);
      }
      if j: nat :| HitToken(q, j, p) {
        HitChunkExact(q, j);
        assert load.hits[j] == q.chunks[j];
      }
    }
  }

  /** The count that the first next yields and the mask that the last one yields agree: both
      are about the tokens of the chunks before the first miss. */
  lemma {:induction false} YieldsAgree(q: Query, layers: nat)
    requires OneLocation(q) && LoadOf(q).hits != [] && layers > 0
    ensures Handed(q, true, 0, layers).Tokens? && Handed(q, true, layers + 1, layers).Mask?
    ensures
      var n, mask := Handed(q, true, 0, layers).count, Handed(q, true, layers + 1, layers).mask;
      && MarksHits(mask, q) && n == Count(mask)
      && n == q.chunks[HitCount(q.places) - 1].end - q.chunks[0].start
  {
    hide MarksHits;
    var load := LoadOf(q);
    var n := |load.hits|;
    RetMaskExact(q);
    MaskCounts(load, n);
    ContiguousOffset(load.hits, |load.slots|, n - 1);
  }

  /** The generator after its first `taken` nexts, unrolled. */
  function After(q: Query, healthy: bool, sync: bool, taken: nat, layers: nat): (r: Retriever)
    ensures r.query == q && r.healthy == healthy && r.sync == sync
  {
    var nothing, unmarked := Retrieval([], q.slots), seq(|q.slots|, p => false);
    if taken == 0 then Retriever(q, nothing, unmarked, healthy, sync, Created, Unbound)
    else if !healthy then Retriever(q, nothing, unmarked, healthy, sync, if taken == 1 then Zeroed else Exhausted, Unbound)
    else if !OneLocation(q) then Retriever(q, nothing, unmarked, healthy, sync, Exhausted, Unbound)
    else
      var load := LoadOf(q);
      var hits := load.hits != [];
      if taken <= layers then
        Retriever(q, load, RetMask(load), healthy, sync, AtLayer(taken - 1), if hits then AwaitLayer(taken - 1) else Unbound)
      else if taken == layers + 1 then Retriever(q, load, RetMask(load), healthy, sync, Drained, if hits then Loaded else Unbound)
      else
        Retriever(q, load, RetMask(load), healthy, sync,
                  if hits && taken == layers + 2 then Finished else Exhausted, if hits then Freed else Unbound)
  }

  function NewRetriever(r: Request, sync: bool): Retriever {
    Retriever(r.query, Retrieval([], r.query.slots), seq(|r.query.slots|, p => false), r.healthy, sync, Created, Unbound)
  }

  lemma NotStarted(q: Query, healthy: bool, sync: bool, layers: nat)
    ensures After(q, healthy, sync, 0, layers) == Retriever(q, Retrieval([], q.slots), seq(|q.slots|, p => false), healthy, sync, Created, Unbound)
  {
  }

  /** What the next after the first `taken` hands back. */
  function Handed(q: Query, healthy: bool, taken: nat, layers: nat): Outcome {
    var load := LoadOf(q);
    if !healthy then if taken == 0 then Mask(seq(|q.slots|, p => false)) else StopIteration
    else if !OneLocation(q) then if taken == 0 then AssertionError else StopIteration
    else if taken == 0 && load.hits != [] then Tokens(Count(RetMask(load)))
    else if taken <= layers then Nothing
    else if taken == layers + 1 then if load.hits == [] then UnboundLocalError else Mask(RetMask(load))
    else StopIteration
  }

  /** Nexts 2 .. layers + 1 each queue one layer. */
  function Queued(owner: nat, q: Query, healthy: bool, taken: nat, layers: nat): seq<Op> {
    if healthy && OneLocation(q) && 1 <= taken <= layers then LayerOps(owner, LoadOf(q), taken - 1) else []
  }

  /** The synchronising generator waits before it queues a layer, and once at the end. */
  predicate Waits(r: Retriever, taken: nat, layers: nat) {
    r.sync && r.healthy && OneLocation(r.query) && LoadOf(r.query).hits != [] && 1 <= taken <= layers + 1
  }

  // ---- whole steps ----

  /** A request of the step's metadata. `healthy` is what the engine's health check says when
      its generator first runs. */
  datatype Request = Request(canLoad: bool, query: Query, healthy: bool)

  /** The generator of the request gets past its first next. */
  predicate Sound(r: Request) {
    r.healthy && OneLocation(r.query)
  }

  /** The requests that load, in order. */
  function Loading(requests: seq<Request>): (r: seq<Request>)
    ensures |r| <= |requests|
  {
    if requests == [] then []
    else
      var last := requests[|requests| - 1];
      Loading(requests[..|requests| - 1]) + if last.canLoad then [last] else []
  }

  lemma {:induction false} LoadingNext(requests: seq<Request>, idx: nat)
    requires idx < |requests|
    ensures Loading(requests[..idx + 1]) == Loading(requests[..idx]) + if requests[idx].canLoad then [requests[idx]] else []
  {
    assert requests[..idx + 1][..idx] == requests[..idx];
  }

  lemma {:induction false} LoadingPrefix(requests: seq<Request>, idx: nat)
    requires idx <= |requests|
    ensures Loading(requests[..idx]) <= Loading(requests)
    decreases |requests| - idx
  {
    if idx == |requests| {
      assert requests[..idx] == requests;
    } else {
      LoadingNext(requests, idx);
      LoadingPrefix(requests, idx + 1);
    }
  }

  /** Nothing loads from idx on exactly when the first idx requests hold all that load. */
  lemma {:induction false} LoadingComplete(requests: seq<Request>, idx: nat)
    requires idx <= |requests|
    ensures |Loading(requests[..idx])| <= |Loading(requests)|
    ensures (forall i :: idx <= i < |requests| ==> !requests[i].canLoad) <==> |Loading(requests[..idx])| == |Loading(requests)|
    decreases |requests| - idx
  {
    hide Loading;
    if idx == |requests| {
      assert requests[..idx] == requests;
    } else {
      LoadingNext(requests, idx);
      LoadingComplete(requests, idx + 1);
    }
  }

  /** The request at `last_idx` is the last of those that load. */
  lemma {:induction false} LastLoading(requests: seq<Request>, idx: nat, last: int)
    requires idx < |requests| && requests[idx].canLoad && idx <= last < |requests| && requests[last].canLoad
    requires forall i :: last < i < |requests| ==> !requests[i].canLoad
    ensures idx == last <==> |Loading(requests[..idx])| == |Loading(requests)| - 1
  {
    hide Loading;
    LoadingNext(requests, idx);
    LoadingComplete(requests, idx + 1);
  }

  function Loads(requests: seq<Request>): (loads: seq<Load>)
    ensures |loads| == |requests|
  {
    seq(|requests|, i requires 0 <= i < |requests| => LoadOf(requests[i].query))
  }

  function LoadBlock(all: seq<Request>, layer: nat, n: nat): (ops: seq<Op>)
    requires n <= |all|
    ensures n == 0 ==> ops == []
  {
    Block(PlanOf(Loads(all)), layer, n)
  }

  function LoadQueue(all: seq<Request>, layers: nat): seq<Op> {
    Queue(PlanOf(Loads(all)), |all|, layers)
  }

  lemma LoadBlockNext(all: seq<Request>, layer: nat, i: nat)
    requires i < |all|
    ensures LoadBlock(all, layer, i + 1) == LoadBlock(all, layer, i) + LayerOps(i, LoadOf(all[i].query), layer)
  {
  }

  /** The generator that synchronises has something to wait for. */
  predicate Synchronises(all: seq<Request>) {
    all != [] && LoadOf(all[|all| - 1].query).hits != []
  }

  /** How the first two nexts of a request's generator end. */
  function Started(r: Request): Outcome {
    if !r.healthy then StopIteration else if !OneLocation(r.query) then AssertionError else Nothing
  }

  /** The first request that loads and whose generator fails at once. */
  ghost predicate FirstUnsound(requests: seq<Request>, i: nat) {
    && i < |requests| && requests[i].canLoad && !Sound(requests[i])
    && forall j :: 0 <= j < i && requests[j].canLoad ==> Sound(requests[j])
  }

  class LayerwiseLoader {
    const numLayers: nat
    var retrievers: seq<Retriever>
    var loadStream: seq<Op>
    /** The compute stream has waited for this many operations of the load stream. */
    var waited: nat
    var currentLayer: nat

    /** `mem_obj_consumer.send(mem_objs_layer)`: wait if synchronising, then queue the layer. */
    method Send(i: nat)
      requires i < |retrievers| && retrievers[i].consumer.AwaitLayer? && retrievers[i].load.hits != []
      modifies this`retrievers, this`loadStream, this`waited
      ensures
        var r := old(retrievers[i]);
        && retrievers == old(retrievers)[i := r.(consumer := if r.consumer.layer + 1 < numLayers then AwaitLayer(r.consumer.layer + 1) else Loaded)]
        && loadStream == old(loadStream) + LayerOps(i, r.load, r.consumer.layer)
        && waited == if r.sync then |old(loadStream)| else old(waited)
    {
      var r := retrievers[i];
      var load, layer := r.load, r.consumer.layer;
      if r.sync {
        waited := |loadStream|;
      }
      ghost var before := loadStream;
      for j := 0 to |load.hits|
        modifies this`loadStream
        invariant loadStream == before + CopyIns(i, load, layer, j)
      {
        var c := load.hits[j];
        loadStream := loadStream + [CopyIn(i, i, layer, j, c.start - load.hits[0].start, c.end - c.start)];
      }
      loadStream := loadStream + [Scatter(i, layer, Target(load))];
      retrievers := retrievers[i := r.(consumer := if layer + 1 < numLayers then AwaitLayer(layer + 1) else Loaded)];
    }

    /** The loop of `retrieve_layer` that collects the hits: it stops at the first chunk that
        no backend holds and asserts that all the others are in one backend. */
    static method Collect(q: Query) returns (r: Result<(seq<Chunk>, seq<bool>)>)
      ensures r.Ok? <==> OneLocation(q)
      ensures r.Ok? ==> r.value == (LoadOf(q).hits, RetMask(LoadOf(q)))
      ensures r.Ok? ==> MarksHits(r.value.1, q)
    {
      hide HitCount, MarksHits;
      RetMaskExact(q);
      var hits, mask, location: Option<nat> := [], seq(|q.slots|, p => false), None;
      for idx := 0 to |q.chunks|
        invariant idx <= HitCount(q.places) && hits == q.chunks[..idx] && mask == MaskOf(LoadOf(q), idx)
        invariant forall i :: 0 <= i < idx ==> q.places[i] == location
        invariant location.Some? <==> idx > 0
      {
        var current := q.places[idx];
        if current.None? {
          HitCountUnique(q.places, idx);
          return Ok((hits, mask));
        }
        if location.None? {
          location := current;
        } else if location != current {
          assert idx < HitCount(q.places) && q.places[0] != q.places[idx];
          return Err("AssertionError");
        }
        hits := hits + [q.chunks[idx]];
        mask := Marked(mask, q.chunks[idx].start, q.chunks[idx].end);
      }
      HitCountUnique(q.places, |q.chunks|);
      return Ok((hits, mask));
    }

    /** The generator up to its first yield. */
    method FirstNext(i: nat) returns (y: Outcome)
      requires numLayers > 0 && i < |retrievers|
      requires retrievers[i] == After(retrievers[i].query, retrievers[i].healthy, retrievers[i].sync, 0, numLayers)
      modifies this`retrievers
      ensures
        var r := old(retrievers[i]);
        && retrievers == old(retrievers)[i := After(r.query, r.healthy, r.sync, 1, numLayers)]
        && y == Handed(r.query, r.healthy, 0, numLayers)
    {
      hide HitCount, OneLocation, RetMask, MarksHits, Count, Proper;
      var r := retrievers[i];
      if !r.healthy {
        retrievers := retrievers[i := r.(at := Zeroed)];
        return Mask(seq(|r.query.slots|, p => false));
      }
      var collected := Collect(r.query);
      if collected.Err? {
        retrievers := retrievers[i := r.(at := Exhausted)];
        return AssertionError;
      }
      var load: Load, mask := Retrieval(collected.value.0, r.query.slots), collected.value.1;
      if load.hits != [] {
        retrievers := retrievers[i := r.(load := load, mask := mask, at := AtLayer(0), consumer := AwaitLayer(0))];
        return Tokens(Count(mask));
      } else {
        retrievers := retrievers[i := r.(load := load, mask := mask, at := AtLayer(0))];
        return Nothing;
      }
    }

    /** `next(layerwise_retriever)` */
    method Next(i: nat, ghost taken: nat) returns (y: Outcome)
      requires numLayers > 0 && i < |retrievers|
      requires retrievers[i] == After(retrievers[i].query, retrievers[i].healthy, retrievers[i].sync, taken, numLayers)
      modifies this`retrievers, this`loadStream, this`waited
      ensures
        var r := old(retrievers[i]);
        && retrievers == old(retrievers)[i := After(r.query, r.healthy, r.sync, taken + 1, numLayers)]
        && y == Handed(r.query, r.healthy, taken, numLayers)
        && loadStream == old(loadStream) + Queued(i, r.query, r.healthy, taken, numLayers)
        && waited == if Waits(r, taken, numLayers) then |old(loadStream)| else old(waited)
    {
      hide LoadOf, OneLocation, RetMask, LayerOps, Count, Proper, HitCount;
      var r := retrievers[i];
      match r.at
      case Created =>
        y := FirstNext(i);
      case AtLayer(layer) =>
        if r.load.hits != [] {
          Send(i);
        }
        retrievers := retrievers[i := retrievers[i].(at := if layer + 1 < numLayers then AtLayer(layer + 1) else Drained)];
        return Nothing;
      case Drained =>
        if r.consumer.Unbound? {
          retrievers := retrievers[i := r.(at := Exhausted)];
          return UnboundLocalError;
        }
        if r.sync {
          waited := |loadStream|;
        }
        retrievers := retrievers[i := r.(at := Finished, consumer := Freed)];
        return Mask(r.mask);
      case Finished | Zeroed | Exhausted =>
        retrievers := retrievers[i := r.(at := Exhausted)];
        return StopIteration;
    }

    /** The first n of the generators of `all` exist, each `taken` nexts along; the last of
        `all` is the one that synchronises. */
    ghost predicate Standing(all: seq<Request>, n: nat, taken: nat)
      reads this`retrievers
    {
      && |retrievers| == n <= |all|
      && forall i :: 0 <= i < n ==>
        retrievers[i] == After(all[i].query, all[i].healthy, i == |all| - 1, taken, numLayers)
    }

    /** Creates one generator and takes its first two nexts. */
    method StartRetriever(request: Request, sync: bool) returns (y: Outcome)
      requires numLayers > 0
      modifies this`retrievers, this`loadStream, this`waited
      ensures y == Started(request)
      ensures y.Nothing? ==> retrievers == old(retrievers) + [After(request.query, true, sync, 2, numLayers)]
      ensures y.Nothing? ==> loadStream == old(loadStream) + LayerOps(|old(retrievers)|, LoadOf(request.query), 0)
      ensures y.Nothing? ==> waited == if sync && LoadOf(request.query).hits != [] then |old(loadStream)| else old(waited)
    {
      hide LoadOf, LayerOps, OneLocation, After, RetMask, Count, Proper, HitCount;
      NotStarted(request.query, request.healthy, sync, numLayers);
      var i := |retrievers|;
      retrievers := retrievers + [NewRetriever(request, sync)];
      y := Next(i, 0);
      if y.AssertionError? {
        return;
      }
      y := Next(i, 1);
    }

    /** Index of the last request that loads. */
    method LastIdx(requests: seq<Request>) returns (last: int)
      ensures -1 <= last < |requests| && (last >= 0 ==> requests[last].canLoad)
      ensures forall i :: last < i < |requests| ==> !requests[i].canLoad
    {
      last := -1;
      for idx := 0 to |requests|
        invariant -1 <= last < idx && (last >= 0 ==> requests[last].canLoad)
        invariant forall i :: last < i < idx ==> !requests[i].canLoad
      {
        if requests[idx].canLoad {
          last := idx;
        }
      }
    }

    /** One round of the loop of `start_load_kv`. */
    method StartOne(requests: seq<Request>, idx: nat, lastIdx: int) returns (y: Outcome)
      requires numLayers > 0 && idx < |requests| && requests[idx].canLoad
      requires -1 <= lastIdx < |requests| && (lastIdx >= 0 ==> requests[lastIdx].canLoad)
      requires forall i :: lastIdx < i < |requests| ==> !requests[i].canLoad
      requires Standing(Loading(requests), |Loading(requests[..idx])|, 2)
      modifies this`retrievers, this`loadStream, this`waited
      ensures y == Started(requests[idx])
      ensures y.Nothing? ==> Standing(Loading(requests), |Loading(requests[..idx + 1])|, 2)
      ensures y.Nothing? ==> |old(retrievers)| < |Loading(requests)| && Loading(requests)[|old(retrievers)|] == requests[idx]
      ensures y.Nothing? ==> loadStream == old(loadStream) + LayerOps(|old(retrievers)|, LoadOf(requests[idx].query), 0)
      ensures y.Nothing? ==> waited == if idx == lastIdx && LoadOf(requests[idx].query).hits != [] then |old(loadStream)| else old(waited)
    {
      hide After, LayerOps, Loading, Proper, LoadOf, OneLocation, HitCount;
      LastLoading(requests, idx, lastIdx);
      LoadingNext(requests, idx);
      LoadingPrefix(requests, idx + 1);
      y := StartRetriever(requests[idx], idx == lastIdx);
    }

    /** `start_load_kv`: one generator for each request that loads, two nexts each. Only the
        last of them synchronises. Hits in two locations fail the first next; an unhealthy
        engine yields once, so the second next raises. */
    method StartLoadKv(requests: seq<Request>) returns (r: Result<()>)
      requires numLayers > 0 && waited <= |loadStream|
      modifies this`retrievers, this`loadStream, this`waited, this`currentLayer
      ensures r.Ok? <==> forall i :: 0 <= i < |requests| && requests[i].canLoad ==> Sound(requests[i])
      ensures r.Err? ==>
        exists i: nat :: FirstUnsound(requests, i) && r.reason == if requests[i].healthy then "AssertionError" else "StopIteration"
      ensures r.Ok? ==> Standing(Loading(requests), |Loading(requests)|, 2) && currentLayer == 0 && waited <= |loadStream|
      ensures r.Ok? ==> loadStream == old(loadStream) + LoadBlock(Loading(requests), 0, |Loading(requests)|)
      ensures r.Ok? && !Synchronises(Loading(requests)) ==> waited == old(waited)
    {
      hide Proper, LoadBlock, LayerOps, After, Loads, PlanOf, Loading, LoadOf, OneLocation, HitCount;
      currentLayer := 0;
      retrievers := [];
      var lastIdx := LastIdx(requests);
      ghost var all := Loading(requests);
      for idx := 0 to |requests|
        invariant currentLayer == 0 && waited <= |loadStream|
        invariant forall i :: 0 <= i < idx && requests[i].canLoad ==> Sound(requests[i])
        invariant Standing(all, |Loading(requests[..idx])|, 2)
        invariant loadStream == old(loadStream) + LoadBlock(all, 0, |retrievers|)
        invariant !Synchronises(all) ==> waited == old(waited)
      {
        LoadingNext(requests, idx);
        if requests[idx].canLoad {
          LastLoading(requests, idx, lastIdx);
          ghost var i := |retrievers|;
          var y := StartOne(requests, idx, lastIdx);
          if !y.Nothing? {
            assert FirstUnsound(requests, idx);
            return Err(if y.AssertionError? then "AssertionError" else "StopIteration");
          }
          LoadBlockNext(all, 0, i);
        }
      }
      assert requests[..|requests|] == requests;
      return Ok(());
    }

    /** The first n generators of `all` are one next further than the others. */
    ghost predicate Midway(all: seq<Request>, n: nat, taken: nat)
      reads this`retrievers
    {
      && |retrievers| == |all|
      && forall i :: 0 <= i < |all| ==>
        retrievers[i] == After(all[i].query, all[i].healthy, i == |all| - 1, if i < n then taken + 1 else taken, numLayers)
    }

    ghost predicate AllSound(all: seq<Request>) {
      forall i :: 0 <= i < |all| ==> Sound(all[i])
    }

    /** One round of the loop of `wait_for_layer_load`. */
    method WaitOne(ghost all: seq<Request>, i: nat, layer: nat) returns (y: Outcome)
      requires layer < numLayers && i < |all| && AllSound(all) && Midway(all, i, layer + 2)
      modifies this`retrievers, this`loadStream, this`waited
      ensures |retrievers| == |all| && Midway(all, i + 1, layer + 2)
      ensures loadStream == old(loadStream) + if layer + 1 < numLayers then LayerOps(i, LoadOf(all[i].query), layer + 1) else []
      ensures waited == if i == |all| - 1 && Synchronises(all) then |old(loadStream)| else old(waited)
      ensures layer + 1 < numLayers ==> y == Nothing
      ensures layer + 1 == numLayers ==>
        var load := LoadOf(all[i].query);
        y == if load.hits == [] then UnboundLocalError else Mask(RetMask(load))
    {
      hide LayerOps, RetMask, Proper, LoadOf, OneLocation, HitCount, After;
      y := Next(i, layer + 2);
    }

    /** The loop of `wait_for_layer_load`. */
    method WaitRound(ghost all: seq<Request>, layer: nat) returns (r: Result<seq<seq<bool>>>)
      requires layer < numLayers && AllSound(all) && |retrievers| == |all| && Midway(all, 0, layer + 2)
      requires (all != [] ==> currentLayer == layer) && waited <= |loadStream|
      modifies this`retrievers, this`loadStream, this`waited
      ensures r.Ok? <==> layer + 1 < numLayers || forall i :: 0 <= i < |all| ==> LoadOf(all[i].query).hits != []
      ensures r.Ok? ==> |retrievers| == |all| && Midway(all, |all|, layer + 2)
      ensures r.Ok? ==> loadStream == old(loadStream) + if layer + 1 < numLayers then LoadBlock(all, layer + 1, |all|) else []
      ensures r.Ok? ==> if Synchronises(all) then waited >= |old(loadStream)| else waited == old(waited)
      ensures r.Ok? ==> waited <= |loadStream|
      ensures r.Ok? && layer + 1 == numLayers ==>
        |r.value| == |all| && forall i :: 0 <= i < |all| ==> r.value[i] == RetMask(LoadOf(all[i].query))
    {
      hide Proper, LoadBlock, LayerOps, After, Loads, PlanOf, RetMask, Midway, LoadOf, OneLocation, HitCount;
      var masks := [];
      for i := 0 to |retrievers|
        invariant |retrievers| == |all| && Midway(all, i, layer + 2)
        invariant loadStream == old(loadStream) + if layer + 1 < numLayers then LoadBlock(all, layer + 1, i) else []
        invariant waited <= |loadStream|
        invariant if Synchronises(all) && i == |all| then waited >= |old(loadStream)| else waited == old(waited)
        invariant layer + 1 == numLayers ==>
          |masks| == i && forall j :: 0 <= j < i ==> LoadOf(all[j].query).hits != [] && masks[j] == RetMask(LoadOf(all[j].query))
      {
        LoadBlockNext(all, layer + 1, i);
        var y := WaitOne(all, i, layer);
        if y.UnboundLocalError? || y.StopIteration? {
          assert LoadOf(all[i].query).hits == [];
          return Err("UnboundLocalError");
        }
        if currentLayer == numLayers - 1 {
          if !y.Mask? {
            return Err("AssertionError");
          }
          masks := masks + [y.mask];
        }
      }
      return Ok(masks);
    }

    /** `wait_for_layer_load` for one layer. It fails only on the last layer, and there exactly
        when some request that loads has no hit: its generator reads a consumer that was never
        created. The compute stream has then waited for everything queued before this call,
        unless the last request that loads has no hit, in which case it waited for nothing. */
    method WaitForLayerLoad(ghost all: seq<Request>, layer: nat) returns (r: Result<seq<seq<bool>>>)
      requires layer < numLayers && AllSound(all) && Standing(all, |all|, layer + 2) && waited <= |loadStream|
      requires all != [] ==> currentLayer == layer
      modifies this`retrievers, this`loadStream, this`waited, this`currentLayer
      ensures r.Ok? <==> layer + 1 < numLayers || forall i :: 0 <= i < |all| ==> LoadOf(all[i].query).hits != []
      ensures r.Ok? ==> Standing(all, |all|, layer + 3) && (all != [] ==> currentLayer == layer + 1)
      ensures r.Ok? ==> loadStream == old(loadStream) + if layer + 1 < numLayers then LoadBlock(all, layer + 1, |all|) else []
      ensures r.Ok? ==> if Synchronises(all) then waited >= |old(loadStream)| else waited == old(waited)
      ensures r.Ok? ==> waited <= |loadStream|
      ensures r.Ok? && layer + 1 == numLayers ==>
        |r.value| == |all| && forall i :: 0 <= i < |all| ==> r.value[i] == RetMask(LoadOf(all[i].query))
    {
      hide Proper, LoadBlock, LayerOps, After, RetMask, LoadOf, OneLocation, HitCount;
      r := WaitRound(all, layer);
      if r.Ok? && |retrievers| > 0 {
        currentLayer := currentLayer + 1;
      }
    }

    /** One forward pass: `start_load_kv`, then `wait_for_layer_load` before each layer's
        compute. `waits[l]` is how much of the load stream layer l's compute waits for. */
    method LoadAllLayers(requests: seq<Request>) returns (r: Result<seq<seq<bool>>>, ghost waits: seq<nat>)
      requires numLayers > 0 && waited <= |loadStream|
      modifies this`retrievers, this`loadStream, this`waited, this`currentLayer
      ensures r.Ok? <==> forall i :: 0 <= i < |requests| && requests[i].canLoad ==>
        Sound(requests[i]) && LoadOf(requests[i].query).hits != []
      ensures r.Ok? ==> loadStream == old(loadStream) + LoadQueue(Loading(requests), numLayers)
      ensures r.Ok? ==> |waits| == numLayers && forall l :: 0 <= l < numLayers ==>
        waits[l] <= |loadStream| && (Loading(requests) != [] ==> waits[l] >= |old(loadStream) + LoadQueue(Loading(requests), l + 1)|)
      ensures r.Ok? ==> |r.value| == |Loading(requests)|
      ensures r.Ok? ==> forall i :: 0 <= i < |r.value| ==> r.value[i] == RetMask(LoadOf(Loading(requests)[i].query))
      ensures r.Ok? ==> forall i :: 0 <= i < |r.value| ==> MarksHits(r.value[i], Loading(requests)[i].query)
    {
      hide MarksHits, Proper, LoadBlock, LoadQueue, LayerOps, After, RetMask, Loads, PlanOf, Loading, Standing, LoadOf, OneLocation, HitCount;
      ghost var all, base := Loading(requests), loadStream;
      LoadingMembers(requests);
      waits, r := [], Ok([]);
      var started := StartLoadKv(requests);
      if started.Err? {
        return Err(started.reason), waits;
      }
      LoadQueueNext(all, 0);
      for layer := 0 to numLayers
        invariant Standing(all, |all|, layer + 2) && waited <= |loadStream|
        invariant all != [] ==> currentLayer == layer
        invariant loadStream == base + LoadQueue(all, if layer + 1 < numLayers then layer + 1 else numLayers)
        invariant |waits| == layer && forall l :: 0 <= l < layer ==>
          waits[l] <= |loadStream| && (Synchronises(all) ==> waits[l] >= |base + LoadQueue(all, l + 1)|)
        invariant layer == numLayers ==> forall i :: 0 <= i < |all| ==> LoadOf(all[i].query).hits != []
        invariant layer == numLayers ==> r.Ok? && |r.value| == |all|
        invariant layer == numLayers ==> forall i :: 0 <= i < |all| ==> r.value[i] == RetMask(LoadOf(all[i].query))
      {
        LoadQueueNext(all, layer + 1);
        r := WaitForLayerLoad(all, layer);
        if r.Err? {
          return;
        }
        waits := waits + [waited];
      }
      forall i | 0 <= i < |all| ensures MarksHits(r.value[i], all[i].query) {
        RetMaskExact(all[i].query);
      }
    }
  }

  lemma {:induction false} LoadingMembers(requests: seq<Request>)
    ensures forall q :: q in Loading(requests) <==> q in requests && q.canLoad
  {
    if requests != [] {
      var n := |requests| - 1;
      LoadingMembers(requests[..n]);
      assert requests == requests[..n] + [requests[n]];
    }
  }

  lemma LoadQueueNext(all: seq<Request>, layers: nat)
    ensures LoadQueue(all, 0) == []
    ensures LoadQueue(all, layers + 1) == LoadQueue(all, layers) + LoadBlock(all, layers, |all|)
  {
  }

  /** Every token of every chunk before a query's first miss has its memory object's data in the
      slot of its own position. */
  ghost predicate QueriesLoaded(before: Memory, now: Memory, all: seq<Request>, layer: nat) {
    forall i: nat, j: nat, k: nat :: i < |all| && HitChunk(all[i].query, j) && HasToken(all[i].query.chunks, j, k)
      ==> now(Page(layer, all[i].query.slots[all[i].query.chunks[j].start + k])) == before(Host(i, layer, j, k))
  }

  lemma {:induction false} LoadsAreQueries(before: Memory, now: Memory, all: seq<Request>, layer: nat)
    requires LayerLoaded(before, now, Loads(all), layer)
    ensures QueriesLoaded(before, now, all, layer)
  {
    hide HitCount, HitChunk;
    forall i: nat, j: nat, k: nat | i < |all| && HitChunk(all[i].query, j) && HasToken(all[i].query.chunks, j, k)
      ensures now(Page(layer, all[i].query.slots[all[i].query.chunks[j].start + k])) == before(Host(i, layer, j, k))
    {
      HitChunkExact(all[i].query, j);
      assert IsToken(Loads(all)[i], j, k);
      assert SlotOfToken(Loads(all)[i], j, k) == all[i].query.slots[all[i].query.chunks[j].start + k];
    }
  }

  /** Every slot a layer's compute can read is loaded when the compute may start, however far
      the load stream has run beyond what was waited for. */
  lemma {:induction false} WaitedLayerIsLoaded(m: Memory, base: seq<Op>, all: seq<Request>, layers: nat, layer: nat, n: nat)
    requires SlotsAgree(Run(m, base), Loads(all), layer) && layer < layers
    requires |base + LoadQueue(all, layer + 1)| <= n <= |base + LoadQueue(all, layers)|
    ensures LayerLoaded(Run(m, base), Run(m, (base + LoadQueue(all, layers))[..n]), Loads(all), layer)
    ensures QueriesLoaded(Run(m, base), Run(m, (base + LoadQueue(all, layers))[..n]), all, layer)
  {
    hide Run, Queue, SlotsAgree, LayerLoaded, QueriesLoaded, Loads;
    var queue := LoadQueue(all, layers);
    assert (base + queue)[..n] == base + queue[..n - |base|];
    RunConcat(m, base, queue[..n - |base|]);
    PrefixLoads(Run(m, base), Loads(all), layers, layer, n - |base|);
    LoadsAreQueries(Run(m, base), Run(m, (base + queue)[..n]), all, layer);
  }

  /** A layer whose compute waited for nothing the step queued, as when the last request that
      loads has no hit: the stream may have run so little that a hit token is not there. */
  lemma {:induction false} UnwaitedLayerMisses(
      base: seq<Op>, all: seq<Request>, layers: nat, layer: nat, waited: nat, i: nat, j: nat, k: nat) returns (m: Memory, n: nat)
    requires waited <= |base| && i < |all| && IsToken(LoadOf(all[i].query), j, k)
    requires Untouched(base, Host(i, layer, j, k)) && Untouched(base, Page(layer, SlotOfToken(LoadOf(all[i].query), j, k)))
    ensures waited <= n <= |base + LoadQueue(all, layers)|
    ensures !LayerLoaded(Run(m, base), Run(m, (base + LoadQueue(all, layers))[..n]), Loads(all), layer)
  {
    hide Run, LoadQueue;
    m := (loc: Loc) => if loc.Host? then KV(0, 0) else KV(1, 1);
    n := |base|;
    assert (base + LoadQueue(all, layers))[..n] == base;
    RunKeeps(m, base, Host(i, layer, j, k));
    RunKeeps(m, base, Page(layer, SlotOfToken(LoadOf(all[i].query), j, k)));
    assert Loads(all)[i] == LoadOf(all[i].query);
    assert Run(m, base)(Page(layer, SlotOfToken(Loads(all)[i], j, k))) != Run(m, base)(Host(i, layer, j, k));
  }
}
