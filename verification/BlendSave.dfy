/** Saving for the blending connector: one layer at a time, with the tokens' positions. */
module BlendSave {
  import opened Streams
  import opened ComputeStreams
  import opened Chunks

  function SaveCopies(chunks: seq<Chunk>, len: nat, buffer: nat, layer: nat, n: nat): (ops: seq<Op>)
    requires n <= |chunks| && Ordered(chunks, len)
    ensures |ops| == n
  {
    if n == 0 then []
    else
      SaveCopies(chunks, len, buffer, layer, n - 1)
      + [CopyOut(buffer, 0, layer, n - 1, Filled(chunks, n - 1), chunks[n - 1].end - chunks[n - 1].start, false)]
  }

  /** One layer of `batched_from_gpu`. */
  function SaveOps(chunks: seq<Chunk>, slots: seq<nat>, buffer: nat, layer: nat): seq<Op>
    requires Ordered(chunks, |slots|)
  {
    [Await(layer + 1), Gather(buffer, layer, Slots(slots, chunks, |chunks|))] + SaveCopies(chunks, |slots|, buffer, layer, |chunks|)
  }

  lemma {:induction false} SaveCopiesElsewhere(chunks: seq<Chunk>, len: nat, buffer: nat, layer: nat, n: nat, loc: Loc)
    requires n <= |chunks| && Ordered(chunks, len) && (loc.Host? ==> loc.owner != 0 || loc.layer != layer)
    ensures Untouched(SaveCopies(chunks, len, buffer, layer, n), loc)
  {
    if n > 0 {
      SaveCopiesElsewhere(chunks, len, buffer, layer, n - 1, loc);
    }
  }

  lemma {:induction false} SaveCopiesFill(m: Memory, chunks: seq<Chunk>, len: nat, buffer: nat, layer: nat, n: nat, j: nat, k: nat)
    requires j < n <= |chunks| && Ordered(chunks, len) && k < chunks[j].end - chunks[j].start
    ensures Run(m, SaveCopies(chunks, len, buffer, layer, n))(Host(0, layer, j, k)) == m(Buffer(buffer, Filled(chunks, j) + k))
  {
    hide Run, Filled;
    var rest, size := SaveCopies(chunks, len, buffer, layer, n - 1), chunks[n - 1].end - chunks[n - 1].start;
    RunLast(m, rest, CopyOut(buffer, 0, layer, n - 1, Filled(chunks, n - 1), size, false));
    ExecCopyOut(Run(m, rest), buffer, 0, layer, n - 1, Filled(chunks, n - 1), size, false, j, k);
    if j == n - 1 {
      SaveCopiesElsewhere(chunks, len, buffer, layer, n - 1, Buffer(buffer, Filled(chunks, j) + k));
      RunKeeps(m, rest, Buffer(buffer, Filled(chunks, j) + k));
    } else {
      SaveCopiesFill(m, chunks, len, buffer, layer, n - 1, j, k);
    }
  }

  /** Every chunk token of the first `layers` layers is in its memory object, as `pages` has it. */
  ghost predicate Saved(pages: Memory, m: Memory, chunks: seq<Chunk>, slots: seq<nat>, layers: nat)
    requires Ordered(chunks, |slots|)
  {
    forall layer: nat, j: nat, k: nat :: layer < layers && HasToken(chunks, j, k) ==>
      m(Host(0, layer, j, k)) == pages(Page(layer, slots[chunks[j].start + k]))
  }

  /** One layer's operations store the layer, with or without gaps between the chunks. */
  lemma {:induction false} SaveStep(pages: Memory, m: Memory, chunks: seq<Chunk>, slots: seq<nat>, buffer: nat, layer: nat)
    requires Ordered(chunks, |slots|) && Saved(pages, m, chunks, slots, layer)
    requires forall slot :: m(Page(layer, slot)) == pages(Page(layer, slot))
    ensures Saved(pages, Run(m, SaveOps(chunks, slots, buffer, layer)), chunks, slots, layer + 1)
  {
    hide Run, Filled, Slots;
    var n := |chunks|;
    var head, copies := [Await(layer + 1), Gather(buffer, layer, Slots(slots, chunks, n))], SaveCopies(chunks, |slots|, buffer, layer, n);
    RunConcat(m, head, copies);
    forall loc: Loc | loc.Host? && loc.layer != layer ensures Run(Run(m, head), copies)(loc) == m(loc) {
      SaveCopiesElsewhere(chunks, |slots|, buffer, layer, n, loc);
      RunKeeps(Run(m, head), copies, loc);
      RunKeeps(m, head, loc);
    }
    forall j: nat, k: nat | HasToken(chunks, j, k)
      ensures Run(Run(m, head), copies)(Host(0, layer, j, k)) == pages(Page(layer, slots[chunks[j].start + k]))
    {
      SaveCopiesFill(Run(m, head), chunks, |slots|, buffer, layer, n, j, k);
      SlotAt(slots, chunks, n, j, k);
      GatherFills(m, buffer, layer, Slots(slots, chunks, n), Filled(chunks, j) + k);
    }
  }

  lemma {:induction false} SaveCopiesAre(chunks: seq<Chunk>, len: nat, buffer: nat, layer: nat, n: nat)
    requires n <= |chunks| && Ordered(chunks, len)
    ensures forall i :: 0 <= i < n ==> SaveCopies(chunks, len, buffer, layer, n)[i].CopyOut?
  {
    if n > 0 {
      SaveCopiesAre(chunks, len, buffer, layer, n - 1);
    }
  }

  /** The gather waits for the layer's compute. */
  lemma {:induction false} SaveOpsGuarded(chunks: seq<Chunk>, slots: seq<nat>, buffer: nat, layer: nat)
    requires Ordered(chunks, |slots|)
    ensures Guarded(SaveOps(chunks, slots, buffer, layer), 0) && StoresOnly(SaveOps(chunks, slots, buffer, layer))
    ensures
      var ops := SaveOps(chunks, slots, buffer, layer);
      forall i :: 0 <= i < |ops| && ops[i].Await? ==> ops[i].layers == layer + 1
  {
    var ops := SaveOps(chunks, slots, buffer, layer);
    SaveCopiesAre(chunks, |slots|, buffer, layer, |chunks|);
    assert ops[0] == Await(layer + 1) && ops[1] == Gather(buffer, layer, Slots(slots, chunks, |chunks|));
    assert GuardedAt(ops, 0, 1);
    forall i | 2 <= i < |ops| ensures ops[i].CopyOut? {
      assert ops[i] == SaveCopies(chunks, |slots|, buffer, layer, |chunks|)[i - 2];
    }
  }

  /** Pages after the whole forward pass. */
  function AllComputed(m0: Memory, compute: seq<Op>): Memory
    requires forall l :: 0 <= l < |compute| ==> compute[l].Compute?
  {
    WithPages(m0, compute, 0, m0)
  }

  /** Memory during the pass: the first `done` layers are computed, and the first `layers` are
      in their memory objects as their compute left them. */
  ghost predicate Passing(m0: Memory, m: Memory, compute: seq<Op>, done: nat, chunks: seq<Chunk>, slots: seq<nat>, layers: nat)
    requires Ordered(chunks, |slots|) && ForwardPass(compute)
  {
    && (forall layer: nat, slot: nat ::
          m(Page(layer, slot)) == if layer < done then Computed(m0, compute, 0, layer, slot) else m0(Page(layer, slot)))
    && Saved(AllComputed(m0, compute), m, chunks, slots, layers)
  }

  lemma {:induction false} ComputedLater(m0: Memory, m: Memory, compute: seq<Op>, done: nat, layer: nat, slot: nat)
    requires ForwardPass(compute) && done <= |compute|
    requires m(Page(layer, slot)) == if layer < done then Computed(m0, compute, 0, layer, slot) else m0(Page(layer, slot))
    ensures Computed(m, compute, done, layer, slot) == Computed(m0, compute, 0, layer, slot)
  {
  }

  /** However the next layers' compute and the queued layer's operations run. */
  lemma {:induction false} PassStep(
      m0: Memory, m: Memory, compute: seq<Op>, done: nat, a: nat, chunks: seq<Chunk>, slots: seq<nat>, buffer: nat, layer: nat, c: seq<Op>)
    requires Ordered(chunks, |slots|) && ForwardPass(compute) && done <= a <= |compute|
    requires Passing(m0, m, compute, done, chunks, slots, layer)
    requires
      var store := SaveOps(chunks, slots, buffer, layer);
      Runs(compute, done, a, store, 0, |store|, c)
    ensures Passing(m0, Run(m, c), compute, a, chunks, slots, layer + 1)
  {
    hide Run, SaveOps, Runs, Guarded, StoresOnly, Computed;
    var store := SaveOps(chunks, slots, buffer, layer);
    SaveOpsGuarded(chunks, slots, buffer, layer);
    forall l: nat, slot: nat ensures Computed(m, compute, done, l, slot) == Computed(m0, compute, 0, l, slot) {
      ComputedLater(m0, m, compute, done, l, slot);
    }
    forall l: nat, slot: nat
      ensures Run(m, c)(Page(l, slot)) == if l < a then Computed(m0, compute, 0, l, slot) else m0(Page(l, slot))
    {
      PagesFollow(m, compute, done, a, store, 0, |store|, c, l, slot);
    }
    var others := StoreSees(m, compute, done, a, store, 0, |store|, c);
    assert store[0..|store|] == store;
    SaveStep(AllComputed(m0, compute), WithPages(m, compute, done, others), chunks, slots, buffer, layer);
  }

  /** Where `batched_from_gpu` stands: at the yield after a layer was queued, or at the last. */
  datatype SavePoint = SaveCreated | SaveQueued(layer: nat) | SaveDone

  class BufferSaver {
    const numLayers: nat
    const chunks: seq<Chunk>
    const slots: seq<nat>
    const buffer: nat
    var at: SavePoint
    /** Memory and layers computed at the last `store_stream.synchronize`, and what was queued
        on the store stream since. */
    ghost var memory: Memory
    ghost var computed: nat
    var storeStream: seq<Op>
    /** Positions recorded with the memory objects. */
    var cached: seq<seq<int>>

    method QueueLayer(layer: nat)
      requires Ordered(chunks, |slots|) && storeStream == []
      modifies this`storeStream, this`cached
      ensures storeStream == SaveOps(chunks, slots, buffer, layer) && cached == OwnPositions(chunks)
    {
      hide Slots, OwnPositions;
      storeStream := [Await(layer + 1), Gather(buffer, layer, Slots(slots, chunks, |chunks|))];
      cached := [];
      ghost var head := storeStream;
      var bufStart := 0;
      for j := 0 to |chunks|
        invariant bufStart == Filled(chunks, j) && cached == OwnPositions(chunks)[..j]
        invariant storeStream == head + SaveCopies(chunks, |slots|, buffer, layer, j)
      {
        var c := chunks[j];
        OwnPositionsNext(chunks, j);
        storeStream := storeStream + [CopyOut(buffer, 0, layer, j, bufStart, c.end - c.start, false)];
        cached := cached + [seq(c.end - c.start, k => c.start + k)];
        bufStart := bufStart + c.end - c.start;
      }
    }

    /** After `taken` nexts: one more layer's copies are queued, the layers before it are in
        their memory objects. */
    ghost predicate Standing(m0: Memory, compute: seq<Op>, taken: nat)
      requires Ordered(chunks, |slots|) && ForwardPass(compute)
      reads this
    {
      && at == (if taken == 0 then SaveCreated else if taken <= numLayers then SaveQueued(taken - 1) else SaveDone)
      && storeStream == (if 0 < taken <= numLayers then SaveOps(chunks, slots, buffer, taken - 1) else [])
      && (taken > 0 ==> cached == OwnPositions(chunks))
      && computed <= numLayers && Passing(m0, memory, compute, computed, chunks, slots, if taken == 0 then 0 else taken - 1)
    }

    /** `store_stream.synchronize()`: the queue has run, and so has some more of the forward
        pass, as the waits in the queue allow. */
    method Synchronize(ghost compute: seq<Op>, ghost layer: nat)
      requires Ordered(chunks, |slots|) && storeStream == SaveOps(chunks, slots, buffer, layer)
      requires computed <= |compute| == numLayers && layer < numLayers
      modifies this`memory, this`computed, this`storeStream
      ensures old(computed) <= computed <= numLayers && storeStream == []
      ensures exists c ::
        Runs(compute, old(computed), computed, old(storeStream), 0, |old(storeStream)|, c) && memory == Run(old(memory), c)
    {
      hide Run, SaveOps, Runs;
      ghost var a := if layer < computed then computed else layer + 1;
      SaveOpsGuarded(chunks, slots, buffer, layer);
      ComputeThenStore(compute, computed, a, storeStream, 0, |storeStream|);
      ghost var c: seq<Op> :| Runs(compute, computed, a, storeStream, 0, |storeStream|, c);
      memory, computed := Run(memory, c), a;
      storeStream := [];
    }

    /** `next`: wait for the layer that was queued, then queue the next one. */
    method Next(ghost m0: Memory, ghost compute: seq<Op>, ghost taken: nat)
      requires Ordered(chunks, |slots|) && ForwardPass(compute) && |compute| == numLayers > 0
      requires taken <= numLayers && Standing(m0, compute, taken)
      modifies this
      ensures Standing(m0, compute, taken + 1)
    {
      hide Run, SaveOps, Passing, Runs, ForwardPass;
      match at
      case SaveCreated =>
        QueueLayer(0);
        at := SaveQueued(0);
      case SaveQueued(layer) =>
        ghost var m, done, store := memory, computed, storeStream;
        Synchronize(compute, layer);
        ghost var c :| Runs(compute, done, computed, store, 0, |store|, c) && memory == Run(m, c);
        PassStep(m0, m, compute, done, computed, chunks, slots, buffer, layer, c);
        if layer + 1 < numLayers {
          QueueLayer(layer + 1);
          at := SaveQueued(layer + 1);
        } else {
          at := SaveDone;
        }
    }

    /** num_layers + 1 nexts save every layer as its compute left it. */
    method SaveAllLayers(ghost compute: seq<Op>)
      requires Ordered(chunks, |slots|) && ForwardPass(compute) && |compute| == numLayers > 0
      requires at == SaveCreated && storeStream == [] && computed == 0
      modifies this
      ensures at == SaveDone && storeStream == []
      ensures Saved(AllComputed(old(memory), compute), memory, chunks, slots, numLayers) && cached == OwnPositions(chunks)
    {
      for taken := 0 to numLayers + 1
        invariant Standing(old(memory), compute, taken)
      {
        Next(old(memory), compute, taken);
      }
    }
  }

  /** Positions of the tokens themselves, chunk by chunk. */
  function OwnPositions(chunks: seq<Chunk>): (r: seq<seq<int>>)
    requires forall j :: 0 <= j < |chunks| ==> chunks[j].start < chunks[j].end
    ensures |r| == |chunks|
  {
    seq(|chunks|, j requires 0 <= j < |chunks| =>
      seq(chunks[j].end - chunks[j].start, k => chunks[j].start + k))
  }

  lemma OwnPositionsNext(chunks: seq<Chunk>, j: nat)
    requires (forall i :: 0 <= i < |chunks| ==> chunks[i].start < chunks[i].end) && j < |chunks|
    ensures OwnPositions(chunks)[..j + 1]
         == OwnPositions(chunks)[..j] + [seq(chunks[j].end - chunks[j].start, k => chunks[j].start + k)]
  {
  }
}
