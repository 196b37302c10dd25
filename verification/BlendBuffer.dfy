/** The blending connector: chunks are loaded into one of two device buffers while the other
    one is re-encoded, and reach paged memory one layer later. */
module BlendBuffer {
  import opened Streams
  import opened Chunks
  import opened PagedSlots
  import opened Results

  /** Chunks to load, possibly with gaps between them, the slots of the request's tokens, and
      the positions each chunk was encoded at when it was stored. */
  datatype Request = Request(chunks: seq<Chunk>, slots: seq<nat>, cached: seq<seq<int>>)
  type Blend = r: Request | Proper(r) witness Request([Chunk(0, 1)], [0], [[0]])

  ghost predicate Proper(r: Request) {
    && r.chunks != [] && Ordered(r.chunks, |r.slots|)
    && |r.cached| == |r.chunks|
    && forall j :: 0 <= j < |r.chunks| ==> |r.cached[j]| == r.chunks[j].end - r.chunks[j].start
  }

  type Rotary = (int, int, int) -> int

  function From(b: Blend): nat {
    b.chunks[0].start
  }

  /** `num_all_tokens` */
  function Width(b: Blend): (n: nat)
    ensures From(b) + n <= |b.slots|
  {
    OffsetAtLeast(b.chunks, |b.slots|, |b.chunks| - 1);
    b.chunks[|b.chunks| - 1].end - From(b)
  }

  /** `slot_mapping[starts[0] : ends[-1]]` */
  function Window(b: Blend): (slots: seq<nat>)
    ensures |slots| == Width(b)
  {
    b.slots[From(b)..From(b) + Width(b)]
  }

  predicate Holds(b: Blend, j: nat, p: int) {
    j < |b.chunks| && b.chunks[j].start <= From(b) + p < b.chunks[j].end
  }

  /** The chunk among the first n that holds buffer position p, or -1 in a gap. */
  function ChunkAt(b: Blend, n: nat, p: int): (j: int)
    requires n <= |b.chunks|
    ensures -1 <= j < n
    ensures j >= 0 ==> Holds(b, j, p)
    ensures j < 0 ==> forall i :: 0 <= i < n ==> !Holds(b, i, p)
  {
    if n == 0 then -1 else if Holds(b, n - 1, p) then n - 1 else ChunkAt(b, n - 1, p)
  }

  predicate Gap(b: Blend, p: int) {
    ChunkAt(b, |b.chunks|, p) < 0
  }

  /** Index inside its chunk of the token at buffer position p. */
  function Within(b: Blend, j: nat, p: int): (k: nat)
    requires Holds(b, j, p)
    ensures k < b.chunks[j].end - b.chunks[j].start
  {
    From(b) + p - b.chunks[j].start
  }

  /** `old_positions_full` once the first n chunks have been written into it. */
  function PositionsSoFar(b: Blend, n: nat): (r: seq<int>)
    requires n <= |b.chunks|
    ensures |r| == Width(b)
  {
    seq(Width(b), p => PositionSoFar(b, n, p))
  }

  function PositionSoFar(b: Blend, n: nat, p: int): int
    requires n <= |b.chunks|
  {
    var j := ChunkAt(b, n, p);
    if j < 0 then 0 else b.cached[j][Within(b, j, p)]
  }

  // ---- what each queued operation does to a buffer ----

  function Loads(b: Blend, buffer: nat, layer: nat, n: nat): (ops: seq<Op>)
    requires n <= |b.chunks|
    ensures |ops| == n
  {
    if n == 0 then []
    else
      var c := b.chunks[n - 1];
      Loads(b, buffer, layer, n - 1) + [CopyIn(buffer, 0, layer, n - 1, c.start - From(b), c.end - c.start)]
  }

  function Recoded(rot: Rotary, from: int, to: int): KV -> KV {
    (kv: KV) => KV(rot(from, to, kv.key), kv.value)
  }

  function Zeroed(gap: bool): KV -> KV {
    (kv: KV) => if gap then KV(0, 0) else kv
  }

  /** K is re-encoded from its stored position to its new one, V stays. */
  function Reencode(b: Blend, rot: Rotary, stored: seq<int>): (via: seq<KV -> KV>)
    requires |stored| == Width(b)
    ensures |via| == Width(b)
  {
    seq(Width(b), p requires 0 <= p < Width(b) => Recoded(rot, stored[p], From(b) + p))
  }

  function ZeroGaps(b: Blend): (via: seq<KV -> KV>)
    ensures |via| == Width(b)
  {
    seq(Width(b), p => Zeroed(Gap(b, p)))
  }

  predicate HasGap(b: Blend) {
    exists p :: 0 <= p < Width(b) && Gap(b, p)
  }

  function Decode(b: Blend, buffer: nat, rot: Rotary): seq<Op> {
    [Rewrite(buffer, Reencode(b, rot, PositionsSoFar(b, |b.chunks|)))] + if HasGap(b) then [Rewrite(buffer, ZeroGaps(b))] else []
  }

  function Flush(b: Blend, buffer: nat, layer: nat): Op {
    Scatter(buffer, layer, Window(b))
  }

  /** Plain result for one token position of a layer: the chunk's token re-encoded, or zero. */
  function Plain(m: Memory, b: Blend, rot: Rotary, layer: nat, p: int): KV {
    var j := ChunkAt(b, |b.chunks|, p);
    if j < 0 then KV(0, 0)
    else
      var kv := m(Host(0, layer, j, Within(b, j, p)));
      KV(rot(b.cached[j][Within(b, j, p)], From(b) + p, kv.key), kv.value)
  }

  lemma {:induction false} LoadsElsewhere(b: Blend, buffer: nat, layer: nat, n: nat, loc: Loc)
    requires n <= |b.chunks| && !(loc.Buffer? && loc.id == buffer)
    ensures Untouched(Loads(b, buffer, layer, n), loc)
  {
    if n > 0 {
      LoadsElsewhere(b, buffer, layer, n - 1, loc);
    }
  }

  lemma {:induction false} LoadsKeep(m: Memory, b: Blend, buffer: nat, layer: nat, n: nat, loc: Loc)
    requires n <= |b.chunks| && !(loc.Buffer? && loc.id == buffer)
    ensures Run(m, Loads(b, buffer, layer, n))(loc) == m(loc)
  {
    LoadsElsewhere(b, buffer, layer, n, loc);
    RunKeeps(m, Loads(b, buffer, layer, n), loc);
  }

  /** Loading puts every chunk token at its own position, whatever the buffer held before. */
  lemma {:induction false} LoadsFill(m: Memory, b: Blend, buffer: nat, layer: nat, n: nat, p: int)
    requires n <= |b.chunks| && ChunkAt(b, n, p) >= 0
    ensures Run(m, Loads(b, buffer, layer, n))(Buffer(buffer, p))
         == m(Host(0, layer, ChunkAt(b, n, p), Within(b, ChunkAt(b, n, p), p)))
  {
    hide Run;
    var c, rest := b.chunks[n - 1], Loads(b, buffer, layer, n - 1);
    RunLast(m, rest, CopyIn(buffer, 0, layer, n - 1, c.start - From(b), c.end - c.start));
    ExecCopyIn(Run(m, rest), buffer, 0, layer, n - 1, c.start - From(b), c.end - c.start, p);
    if Holds(b, n - 1, p) {
      LoadsKeep(m, b, buffer, layer, n - 1, Host(0, layer, n - 1, Within(b, n - 1, p)));
    } else {
      LoadsFill(m, b, buffer, layer, n - 1, p);
    }
  }

  lemma {:induction false} RewriteAt(m: Memory, buffer: nat, via: seq<KV -> KV>, p: nat)
    requires p < |via|
    ensures Exec(m, Rewrite(buffer, via))(Buffer(buffer, p)) == via[p](m(Buffer(buffer, p)))
  {
    assert Writes(Rewrite(buffer, via), Buffer(buffer, p));
  }

  /** Re-encoding, then zeroing the gaps, turns a loaded buffer into the plain result. */
  lemma {:induction false} DecodeAt(m: Memory, before: Memory, b: Blend, buffer: nat, rot: Rotary, layer: nat, p: nat)
    requires p < Width(b)
    requires !Gap(b, p) ==>
      m(Buffer(buffer, p)) == before(Host(0, layer, ChunkAt(b, |b.chunks|, p), Within(b, ChunkAt(b, |b.chunks|, p), p)))
    ensures Run(m, Decode(b, buffer, rot))(Buffer(buffer, p)) == Plain(before, b, rot, layer, p)
  {
    hide Run, Exec, ChunkAt;
    var via := Reencode(b, rot, PositionsSoFar(b, |b.chunks|));
    var first, second := Rewrite(buffer, via), Rewrite(buffer, ZeroGaps(b));
    RunOne(m, first);
    RewriteAt(m, buffer, via, p);
    if HasGap(b) {
      RunLast(m, [first], second);
      RewriteAt(Exec(m, first), buffer, ZeroGaps(b), p);
    } else {
      assert Decode(b, buffer, rot) == [first];
      assert !Gap(b, p);
    }
  }

  lemma RunOne(m: Memory, op: Op)
    ensures Run(m, [op]) == Exec(m, op)
  {
    RunLast(m, [], op);
    assert [] + [op] == [op];
  }

  // ---- memory between two device synchronisations ----

  ghost predicate HostsAre(m0: Memory, m: Memory) {
    forall loc: Loc :: loc.Host? ==> m(loc) == m0(loc)
  }

  /** Paged memory after the plain loop has scattered the first `layers` layers. */
  function PageAfter(m0: Memory, b: Blend, rot: Rotary, layers: nat, loc: Loc): KV
    requires loc.Page?
  {
    if loc.layer < layers && loc.slot in Window(b) then Plain(m0, b, rot, loc.layer, IndexOf(Window(b), loc.slot)) else m0(loc)
  }

  ghost predicate PagesAre(m0: Memory, m: Memory, b: Blend, rot: Rotary, layers: nat) {
    forall loc: Loc :: loc.Page? ==> m(loc) == PageAfter(m0, b, rot, layers, loc)
  }

  /** The buffer holds the layer's chunk tokens as stored; its gap positions may be stale. */
  ghost predicate LoadedInto(m0: Memory, m: Memory, b: Blend, buffer: nat, layer: nat) {
    forall p: nat :: p < Width(b) && !Gap(b, p) ==>
      m(Buffer(buffer, p)) == m0(Host(0, layer, ChunkAt(b, |b.chunks|, p), Within(b, ChunkAt(b, |b.chunks|, p), p)))
  }

  ghost predicate DecodedInto(m0: Memory, m: Memory, b: Blend, rot: Rotary, buffer: nat, layer: nat) {
    forall p: nat :: p < Width(b) ==> m(Buffer(buffer, p)) == Plain(m0, b, rot, layer, p)
  }

  /** Re-encoding a loaded buffer touches nothing else. */
  lemma {:induction false} DecodeStep(m0: Memory, m: Memory, b: Blend, rot: Rotary, buffer: nat, layer: nat)
    requires LoadedInto(m0, m, b, buffer, layer)
    ensures DecodedInto(m0, Run(m, Decode(b, buffer, rot)), b, rot, buffer, layer)
    ensures forall loc: Loc :: !(loc.Buffer? && loc.id == buffer) ==> Run(m, Decode(b, buffer, rot))(loc) == m(loc)
  {
    hide Run, Gap, Plain, Proper;
    var ops := Decode(b, buffer, rot);
    forall p: nat | p < Width(b) ensures Run(m, ops)(Buffer(buffer, p)) == Plain(m0, b, rot, layer, p) {
      DecodeAt(m, m0, b, buffer, rot, layer, p);
    }
    forall loc: Loc | !(loc.Buffer? && loc.id == buffer) ensures Run(m, ops)(loc) == m(loc) {
      RunKeeps(m, ops, loc);
    }
  }

  /** Flushing a re-encoded buffer brings its layer to paged memory. */
  lemma {:induction false} FlushStep(m0: Memory, m: Memory, b: Blend, rot: Rotary, buffer: nat, layer: nat)
    requires DecodedInto(m0, m, b, rot, buffer, layer) && PagesAre(m0, m, b, rot, layer) && HostsAre(m0, m)
    ensures PagesAre(m0, Exec(m, Flush(b, buffer, layer)), b, rot, layer + 1) && HostsAre(m0, Exec(m, Flush(b, buffer, layer)))
  {
    hide Plain, Proper;
    var op := Flush(b, buffer, layer);
    forall loc: Loc | loc.Page? ensures Exec(m, op)(loc) == PageAfter(m0, b, rot, layer + 1, loc) {
      if Writes(op, loc) {
        var p := IndexOf(Window(b), loc.slot);
        assert Source(op, loc) == Buffer(buffer, p) && m(Buffer(buffer, p)) == Plain(m0, b, rot, layer, p);
      } else {
        assert m(loc) == PageAfter(m0, b, rot, layer, loc);
      }
    }
    forall loc: Loc | loc.Host? ensures Exec(m, op)(loc) == m0(loc) {
      assert !Writes(op, loc);
    }
  }

  /** The plain result is what every token's own slot holds after the last flush. */
  lemma {:induction false} PageOfToken(m0: Memory, m: Memory, b: Blend, rot: Rotary, layers: nat, layer: nat, p: nat)
    requires PagesAre(m0, m, b, rot, layers) && Distinct(Window(b)) && layer < layers && p < Width(b)
    ensures m(Page(layer, Window(b)[p])) == Plain(m0, b, rot, layer, p)
  {
    var i := IndexOf(Window(b), Window(b)[p]);
    assert Window(b)[i] == Window(b)[p];
  }

  /** Loading a layer into one buffer changes nothing outside it. */
  lemma {:induction false} LoadStep(m0: Memory, m: Memory, b: Blend, rot: Rotary, buffer: nat, layer: nat, layers: nat)
    requires PagesAre(m0, m, b, rot, layers) && HostsAre(m0, m)
    ensures
      var after := Run(m, Loads(b, buffer, layer, |b.chunks|));
      PagesAre(m0, after, b, rot, layers) && HostsAre(m0, after) && LoadedInto(m0, after, b, buffer, layer)
  {
    hide Run, PageAfter, Proper;
    var n := |b.chunks|;
    forall loc: Loc | loc.Page? || loc.Host? ensures Run(m, Loads(b, buffer, layer, n))(loc) == m(loc) {
      LoadsKeep(m, b, buffer, layer, n, loc);
    }
    forall p: nat | p < Width(b) && !Gap(b, p)
      ensures Run(m, Loads(b, buffer, layer, n))(Buffer(buffer, p)) == m0(Host(0, layer, ChunkAt(b, n, p), Within(b, ChunkAt(b, n, p), p)))
    {
      LoadsFill(m, b, buffer, layer, n, p);
    }
  }

  /** An operation of the compute stream on one buffer and a load into the other. */
  ghost predicate ComputesOn(op: Op, buffer: nat) {
    (op.Rewrite? && op.buffer == buffer) || (op.Scatter? && op.buffer == buffer)
  }

  lemma {:induction false} OtherBufferIndependent(x: Op, y: Op, buffer: nat)
    requires ComputesOn(x, buffer) && y.CopyIn? && y.buffer != buffer
    ensures Independent(x, y)
  {
    forall loc | Writes(x, loc) ensures !Writes(y, loc) && !Reads(y, loc) {
    }
    forall loc | Writes(y, loc) ensures !Reads(x, loc) {
    }
  }

  lemma {:induction false} LoadsAreCopies(b: Blend, buffer: nat, layer: nat, n: nat)
    requires n <= |b.chunks|
    ensures forall i :: 0 <= i < n ==> Loads(b, buffer, layer, n)[i].CopyIn? && Loads(b, buffer, layer, n)[i].buffer == buffer
  {
    if n > 0 {
      LoadsAreCopies(b, buffer, layer, n - 1);
    }
  }

  lemma {:induction false} StreamsIndependent(b: Blend, compute: seq<Op>, buffer: nat, other: nat, layer: nat)
    requires buffer != other && forall i :: 0 <= i < |compute| ==> ComputesOn(compute[i], buffer)
    ensures AllIndependent(compute, Loads(b, other, layer, |b.chunks|))
  {
    var loads := Loads(b, other, layer, |b.chunks|);
    LoadsAreCopies(b, other, layer, |b.chunks|);
    forall i, j | 0 <= i < |compute| && 0 <= j < |loads| ensures Independent(compute[i], loads[j]) {
      OtherBufferIndependent(compute[i], loads[j], buffer);
    }
  }

  lemma {:induction false} SameMeans(m0: Memory, m: Memory, n: Memory, b: Blend, rot: Rotary, buffer: nat, layer: nat, layers: nat)
    requires Same(m, n) && PagesAre(m0, n, b, rot, layers) && HostsAre(m0, n) && LoadedInto(m0, n, b, buffer, layer)
    ensures PagesAre(m0, m, b, rot, layers) && HostsAre(m0, m) && LoadedInto(m0, m, b, buffer, layer)
  {
    hide PageAfter, Proper;
  }

  /** Re-encoding and flushing one buffer while the next layer is loaded into the other: in
      whatever order the two streams run, the layer reaches paged memory and the other buffer
      ends up loaded. */
  lemma {:induction false} OverlapStep(m0: Memory, m: Memory, b: Blend, rot: Rotary, buffer: nat, other: nat, layer: nat, c: seq<Op>)
    requires buffer != other
    requires PagesAre(m0, m, b, rot, layer) && HostsAre(m0, m) && LoadedInto(m0, m, b, buffer, layer)
    requires Interleaves(Decode(b, buffer, rot) + [Flush(b, buffer, layer)], Loads(b, other, layer + 1, |b.chunks|), c)
    ensures PagesAre(m0, Run(m, c), b, rot, layer + 1) && HostsAre(m0, Run(m, c)) && LoadedInto(m0, Run(m, c), b, other, layer + 1)
  {
    hide Run, PageAfter, PagesAre, HostsAre, LoadedInto, Interleaves, Proper;
    var loads := Loads(b, other, layer + 1, |b.chunks|);
    var compute := Decode(b, buffer, rot) + [Flush(b, buffer, layer)];
    StreamsIndependent(b, compute, buffer, other, layer + 1);
    InterleavingsAgree(m, compute, loads, c);
    FlushedStep(m0, m, b, rot, buffer, layer);
    LoadStep(m0, Run(m, compute), b, rot, other, layer + 1, layer + 1);
    SameMeans(m0, Run(m, c), Run(Run(m, compute), loads), b, rot, other, layer + 1, layer + 1);
  }

  lemma {:induction false} FlushedStep(m0: Memory, m: Memory, b: Blend, rot: Rotary, buffer: nat, layer: nat)
    requires PagesAre(m0, m, b, rot, layer) && HostsAre(m0, m) && LoadedInto(m0, m, b, buffer, layer)
    ensures
      var after := Run(m, Decode(b, buffer, rot) + [Flush(b, buffer, layer)]);
      PagesAre(m0, after, b, rot, layer + 1) && HostsAre(m0, after)
  {
    hide Run, PageAfter, LoadedInto, Decode, Proper;
    DecodeStep(m0, m, b, rot, buffer, layer);
    RunLast(m, Decode(b, buffer, rot), Flush(b, buffer, layer));
    FlushStep(m0, Run(m, Decode(b, buffer, rot)), b, rot, buffer, layer);
  }

  /** The first layer is loaded with nothing else under way. */
  lemma {:induction false} FirstStep(m0: Memory, b: Blend, rot: Rotary, buffer: nat, c: seq<Op>)
    requires Interleaves([], Loads(b, buffer, 0, |b.chunks|), c)
    ensures PagesAre(m0, Run(m0, c), b, rot, 0) && HostsAre(m0, Run(m0, c)) && LoadedInto(m0, Run(m0, c), b, buffer, 0)
  {
    hide Run, LoadedInto, Interleaves, Proper, Loads;
    InterleavingsAgree(m0, [], Loads(b, buffer, 0, |b.chunks|), c);
    assert Run(m0, []) == m0 by { RunNone(m0); }
    LoadStep(m0, m0, b, rot, buffer, 0, 0);
    SameMeans(m0, Run(m0, c), Run(m0, Loads(b, buffer, 0, |b.chunks|)), b, rot, buffer, 0, 0);
  }

  lemma RunNone(m: Memory)
    ensures Run(m, []) == m
  {
  }

  // ---- the generator ----

  datatype Point = Created | AwaitLayer(layer: nat) | AfterLast | Done

  function Upto(n: nat): (r: seq<nat>) {
    seq(n, i requires 0 <= i < n => i)
  }

  lemma {:induction false} ChunkInside(b: Blend, j: nat)
    requires j < |b.chunks|
    ensures From(b) <= b.chunks[j].start < b.chunks[j].end <= From(b) + Width(b)
  {
  }

  // ---- the position tensor ----

  /** What is queued on the tensor of stored positions: filling it with zeros, or writing the
      positions of one chunk. */
  datatype PositionOp = Zero | Put(at: int, positions: seq<int>)

  function ExecPositions(t: seq<int>, op: PositionOp): (r: seq<int>)
    ensures |r| == |t|
  {
    match op
    case Zero => seq(|t|, p => 0)
    case Put(at, positions) =>
      seq(|t|, p requires 0 <= p < |t| => if at <= p < at + |positions| then positions[p - at] else t[p])
  }

  function RunPositions(t: seq<int>, ops: seq<PositionOp>): (r: seq<int>)
    ensures |r| == |t|
  {
    if ops == [] then t else ExecPositions(RunPositions(t, ops[..|ops| - 1]), ops[|ops| - 1])
  }

  lemma RunPositionsLast(t: seq<int>, ops: seq<PositionOp>, op: PositionOp)
    ensures RunPositions(t, ops + [op]) == ExecPositions(RunPositions(t, ops), op)
  {
    assert (ops + [op])[..|ops|] == ops;
  }

  /** Writes of the first n chunks, queued with the first layer. */
  function PositionWrites(b: Blend, n: nat): (ops: seq<PositionOp>)
    requires n <= |b.chunks|
    ensures |ops| == n
  {
    if n == 0 then [] else PositionWrites(b, n - 1) + [Put(b.chunks[n - 1].start - From(b), b.cached[n - 1])]
  }

  /** The request as the tensor describes it when the writes of the first `early` chunks ran
      before the zeroing: those chunks are re-encoded as if stored at position 0. */
  function Raced(b: Blend, early: nat): (r: Blend)
    ensures r.chunks == b.chunks && r.slots == b.slots
  {
    b.(cached := seq(|b.cached|, j requires 0 <= j < |b.cached| =>
      if j < early then seq(|b.cached[j]|, k => 0) else b.cached[j]))
  }

  lemma {:induction false} NextPositions(b: Blend, j: nat)
    requires j < |b.chunks|
    ensures ExecPositions(PositionsSoFar(b, j), Put(b.chunks[j].start - From(b), b.cached[j])) == PositionsSoFar(b, j + 1)
  {
    hide PositionsSoFar, ExecPositions, Width;
    var put := Put(b.chunks[j].start - From(b), b.cached[j]);
    var before, after := PositionsSoFar(b, j), PositionsSoFar(b, j + 1);
    forall p: nat | p < Width(b) ensures ExecPositions(before, put)[p] == after[p] {
      NextPosition(b, j, p);
      PutAt(before, put, p);
    }
  }

  lemma {:induction false} NextPosition(b: Blend, j: nat, p: nat)
    requires j < |b.chunks| && p < Width(b)
    ensures PositionsSoFar(b, j + 1)[p]
         == if Holds(b, j, p) then b.cached[j][From(b) + p - b.chunks[j].start] else PositionsSoFar(b, j)[p]
  {
  }

  lemma PutAt(t: seq<int>, put: PositionOp, p: nat)
    requires put.Put? && p < |t|
    ensures ExecPositions(t, put)[p]
         == if put.at <= p < put.at + |put.positions| then put.positions[p - put.at] else t[p]
  {
  }

  lemma InsertLast<T>(rest: seq<T>, last: T, x: T, early: nat)
    requires early <= |rest|
    ensures (rest + [last])[..early] + [x] + (rest + [last])[early..] == (rest[..early] + [x] + rest[early..]) + [last]
  {
  }

  lemma {:induction false} AllZeroed(b: Blend, n: nat, early: nat)
    requires n <= early && n <= |b.chunks|
    ensures PositionsSoFar(Raced(b, early), n) == seq(Width(b), p => 0)
  {
    hide ChunkAt;
  }

  /** What the tensor holds when the first `early` of n writes ran before the zeroing. */
  lemma {:induction false} RaceLeaves(b: Blend, stale: seq<int>, n: nat, early: nat)
    requires early <= n <= |b.chunks| && |stale| == Width(b)
    ensures
      var writes := PositionWrites(b, n);
      RunPositions(stale, writes[..early] + [Zero] + writes[early..]) == PositionsSoFar(Raced(b, early), n)
  {
    hide RunPositions, ExecPositions, PositionsSoFar, ChunkAt, Width;
    var writes := PositionWrites(b, n);
    if n == early {
      assert writes[..early] + [Zero] + writes[early..] == writes + [Zero];
      RunPositionsLast(stale, writes, Zero);
      AllZeroed(b, n, early);
      ZeroedTensor(RunPositions(stale, writes));
    } else {
      var rest, last := PositionWrites(b, n - 1), Put(b.chunks[n - 1].start - From(b), b.cached[n - 1]);
      var before := rest[..early] + [Zero] + rest[early..];
      InsertLast(rest, last, Zero, early);
      RunPositionsLast(stale, before, last);
      RaceLeaves(b, stale, n - 1, early);
      NextPositions(Raced(b, early), n - 1);
    }
  }

  lemma NothingRuns(t: seq<int>)
    ensures RunPositions(t, []) == t
  {
  }

  lemma ZeroedTensor(t: seq<int>)
    ensures ExecPositions(t, Zero) == seq(|t|, p => 0)
  {
  }

  /** The zeroing is queued on the compute stream, the writes on the load stream, and nothing
      orders the two. Whatever the tensor held before, what it may hold afterwards is exactly
      what some number of early chunks leaves. */
  lemma {:induction false} RaceOutcomes(b: Blend, stale: seq<int>, t: seq<int>)
    requires |stale| == Width(b)
    ensures (exists c :: Interleaves([Zero], PositionWrites(b, |b.chunks|), c) && t == RunPositions(stale, c))
      <==> exists early: nat :: early <= |b.chunks| && t == PositionsSoFar(Raced(b, early), |b.chunks|)
  {
    hide RunPositions, PositionsSoFar, Raced, PositionWrites, Interleaves, Proper;
    var n, writes := |b.chunks|, PositionWrites(b, |b.chunks|);
    if c :| Interleaves([Zero], writes, c) && t == RunPositions(stale, c) {
      var early := SingleInterleaves(Zero, writes, c);
      RaceLeaves(b, stale, n, early);
    }
    if early: nat :| early <= n && t == PositionsSoFar(Raced(b, early), n) {
      SomeInterleaving([Zero], writes, early);
      RaceLeaves(b, stale, n, early);
    }
  }

  // ---- what the race does to a token ----

  lemma {:induction false} RacedChunkAt(b: Blend, early: nat, n: nat, p: int)
    requires n <= |b.chunks|
    ensures ChunkAt(Raced(b, early), n, p) == ChunkAt(b, n, p)
  {
    hide Raced;
    if n > 0 {
      RacedChunkAt(b, early, n - 1, p);
    }
  }

  lemma {:induction false} RacedLoads(b: Blend, early: nat, buffer: nat, layer: nat, n: nat)
    requires n <= |b.chunks|
    ensures Loads(Raced(b, early), buffer, layer, n) == Loads(b, buffer, layer, n)
  {
    hide Raced;
    if n > 0 {
      RacedLoads(b, early, buffer, layer, n - 1);
    }
  }

  /** The race changes neither where tokens go nor which positions are zeroed. */
  lemma {:induction false} RacedShape(b: Blend, early: nat)
    ensures Window(Raced(b, early)) == Window(b) && HasGap(Raced(b, early)) == HasGap(b)
    ensures forall p :: Gap(Raced(b, early), p) == Gap(b, p)
  {
    hide Raced, ChunkAt, Proper;
    forall p ensures Gap(Raced(b, early), p) == Gap(b, p) {
      RacedChunkAt(b, early, |b.chunks|, p);
    }
    assert HasGap(Raced(b, early)) ==> HasGap(b) by {
      if p :| 0 <= p < Width(Raced(b, early)) && Gap(Raced(b, early), p) {
        assert Gap(b, p);
      }
    }
    assert HasGap(b) ==> HasGap(Raced(b, early)) by {
      if p :| 0 <= p < Width(b) && Gap(b, p) {
        assert Gap(Raced(b, early), p);
      }
    }
  }

  /** A key of token k of chunk j is re-encoded from position 0 as from its stored position. */
  predicate EncodesAlike(b: Blend, rot: Rotary, j: nat, k: nat, key: int)
    requires HasToken(b.chunks, j, k)
  {
    rot(0, b.chunks[j].start + k, key) == rot(b.cached[j][k], b.chunks[j].start + k, key)
  }

  /** The tokens of the first n chunks may as well have been stored at position 0. */
  ghost predicate Indifferent(b: Blend, rot: Rotary, n: nat) {
    forall j: nat, k: nat, key: int :: j < n && HasToken(b.chunks, j, k) ==> EncodesAlike(b, rot, j, k, key)
  }

  lemma {:induction false} RacedPlain(m: Memory, b: Blend, early: nat, rot: Rotary, layer: nat, p: int)
    ensures
      var j := ChunkAt(b, |b.chunks|, p);
      Plain(m, Raced(b, early), rot, layer, p)
      == if 0 <= j < early then
           var kv := m(Host(0, layer, j, Within(b, j, p)));
           KV(rot(0, From(b) + p, kv.key), kv.value)
         else Plain(m, b, rot, layer, p)
  {
    hide ChunkAt;
    RacedChunkAt(b, early, |b.chunks|, p);
  }

  lemma {:induction false} ChunkOfToken(b: Blend, n: nat, j: nat, k: nat)
    requires HasToken(b.chunks, j, k) && j < n <= |b.chunks|
    ensures ChunkAt(b, n, b.chunks[j].start + k - From(b)) == j
    ensures 0 <= b.chunks[j].start + k - From(b) < Width(b)
  {
    hide Width;
    ChunkInside(b, j);
    assert Holds(b, j, b.chunks[j].start + k - From(b));
  }

  /** For one outcome of the race: whatever the memory objects hold, every token of the plain
      result is the one asked for, exactly when the early chunks are indifferent. */
  lemma {:induction false} RaceExact(b: Blend, rot: Rotary, early: nat)
    requires early <= |b.chunks|
    ensures Indifferent(b, rot, early) <==>
      forall m: Memory, layer: nat, p: nat :: p < Width(b) ==> Plain(m, Raced(b, early), rot, layer, p) == Plain(m, b, rot, layer, p)
  {
    hide Plain, Raced, Width, Proper, Indifferent;
    if Indifferent(b, rot, early) {
      forall m: Memory, layer: nat, p: nat | p < Width(b) ensures Plain(m, Raced(b, early), rot, layer, p) == Plain(m, b, rot, layer, p) {
        RaceHarmless(m, b, rot, early, layer, p);
      }
    } else {
      var m, p := RaceHarms(b, rot, early);
      assert Plain(m, Raced(b, early), rot, 0, p) != Plain(m, b, rot, 0, p);
    }
  }

  lemma {:induction false} RaceHarmless(m: Memory, b: Blend, rot: Rotary, early: nat, layer: nat, p: nat)
    requires Indifferent(b, rot, early) && p < Width(b)
    ensures Plain(m, Raced(b, early), rot, layer, p) == Plain(m, b, rot, layer, p)
  {
    hide ChunkAt, Width;
    RacedPlain(m, b, early, rot, layer, p);
    var j := ChunkAt(b, |b.chunks|, p);
    if 0 <= j < early {
      var k := Within(b, j, p);
      assert HasToken(b.chunks, j, k);
      assert EncodesAlike(b, rot, j, k, m(Host(0, layer, j, k)).key);
    }
  }

  /** A memory in which every key is the one that tells the two re-encodings apart. */
  lemma {:induction false} RaceHarms(b: Blend, rot: Rotary, early: nat) returns (m: Memory, p: nat)
    requires early <= |b.chunks| && !Indifferent(b, rot, early)
    ensures p < Width(b) && !Gap(b, p)
    ensures exists key :: m == Constant(key)
    ensures forall layer: nat :: Plain(m, Raced(b, early), rot, layer, p).key != Plain(m, b, rot, layer, p).key
  {
    hide ChunkAt, Width;
    var j: nat, k: nat, key: int :| j < early && HasToken(b.chunks, j, k) && !EncodesAlike(b, rot, j, k, key);
    m, p := Constant(key), b.chunks[j].start + k - From(b);
    ChunkOfToken(b, |b.chunks|, j, k);
    forall layer: nat ensures Plain(m, Raced(b, early), rot, layer, p).key != Plain(m, b, rot, layer, p).key {
      RacedPlain(m, b, early, rot, layer, p);
    }
  }

  function Constant(key: int): Memory {
    (loc: Loc) => KV(key, 0)
  }

  /** Memory with the pages that the plain loop leaves. */
  function Flushed(m0: Memory, b: Blend, rot: Rotary, layers: nat): Memory {
    (loc: Loc) => if loc.Page? then PageAfter(m0, b, rot, layers, loc) else m0(loc)
  }

  lemma FlushedPages(m0: Memory, b: Blend, rot: Rotary, layers: nat)
    ensures PagesAre(m0, Flushed(m0, b, rot, layers), b, rot, layers)
  {
  }

  // ---- paged memory, token by token ----

  /** Position t lies between the first chunk's start and the last one's end. */
  ghost predicate Between(chunks: seq<Chunk>, t: nat)
    requires chunks != []
  {
    chunks[0].start <= t < chunks[|chunks| - 1].end
  }

  ghost predicate InChunk(chunks: seq<Chunk>, t: nat) {
    exists j: nat :: j < |chunks| && chunks[j].start <= t < chunks[j].end
  }

  /** Some position between the chunks' ends has this slot. */
  ghost predicate SlotBetween(r: Request, slot: nat)
    requires Proper(r)
  {
    exists t: nat :: t < |r.slots| && Between(r.chunks, t) && r.slots[t] == slot
  }

  /** A token of a memory object, its key re-encoded from the position it was stored at to its
      own. */
  function Asked(m0: Memory, r: Request, rot: Rotary, layer: nat, j: nat, k: nat): KV
    requires HasToken(r.chunks, j, k) && j < |r.cached| && k < |r.cached[j]|
  {
    var kv := m0(Host(0, layer, j, k));
    KV(rot(r.cached[j][k], r.chunks[j].start + k, kv.key), kv.value)
  }

  /** Token k of chunk j is in the slot of its own position. */
  ghost predicate InSlot(m0: Memory, m: Memory, r: Request, rot: Rotary, layer: nat, j: nat, k: nat)
    requires Proper(r) && HasToken(r.chunks, j, k)
  {
    m(Page(layer, r.slots[r.chunks[j].start + k])) == Asked(m0, r, rot, layer, j, k)
  }

  /** The slot of every chunk token holds the token, its key re-encoded from the position it
      was stored at to its own; the slots of positions in the gaps hold zero; no other slot
      and no other layer has changed. */
  ghost predicate SlotsLoaded(m0: Memory, m: Memory, r: Request, rot: Rotary, layers: nat)
    requires Proper(r)
  {
    && (forall layer: nat, j: nat, k: nat :: layer < layers && HasToken(r.chunks, j, k) ==> InSlot(m0, m, r, rot, layer, j, k))
    && (forall layer: nat, t: nat :: layer < layers && t < |r.slots| && Between(r.chunks, t) && !InChunk(r.chunks, t) ==>
          m(Page(layer, r.slots[t])) == KV(0, 0))
    && (forall layer: nat, slot: nat :: layer >= layers || !SlotBetween(r, slot) ==> m(Page(layer, slot)) == m0(Page(layer, slot)))
  }

  lemma {:induction false} TokenLoaded(m0: Memory, m: Memory, b: Blend, rot: Rotary, layers: nat, layer: nat, j: nat, k: nat)
    requires PagesAre(m0, m, b, rot, layers) && Distinct(b.slots) && layer < layers && HasToken(b.chunks, j, k)
    ensures InSlot(m0, m, b, rot, layer, j, k)
  {
    hide ChunkAt, PagesAre;
    ChunkOfToken(b, |b.chunks|, j, k);
    PageOfToken(m0, m, b, rot, layers, layer, b.chunks[j].start + k - From(b));
  }

  lemma {:induction false} GapAt(b: Blend, n: nat, t: nat)
    requires n <= |b.chunks| && !InChunk(b.chunks, t)
    ensures ChunkAt(b, n, t - From(b)) == -1
  {
    if n > 0 {
      GapAt(b, n - 1, t);
    }
  }

  lemma {:induction false} WindowBetween(b: Blend, slot: nat)
    ensures slot in Window(b) ==> SlotBetween(b, slot)
  {
    if slot in Window(b) {
      var i := IndexOf(Window(b), slot);
      assert Between(b.chunks, From(b) + i) && b.slots[From(b) + i] == slot;
    }
  }

  lemma {:induction false} GapLoaded(m0: Memory, m: Memory, b: Blend, rot: Rotary, layers: nat, layer: nat, t: nat)
    requires PagesAre(m0, m, b, rot, layers) && Distinct(b.slots) && layer < layers
    requires t < |b.slots| && Between(b.chunks, t) && !InChunk(b.chunks, t)
    ensures m(Page(layer, b.slots[t])) == KV(0, 0)
  {
    hide ChunkAt, PagesAre;
    var p := t - From(b);
    GapAt(b, |b.chunks|, t);
    PageOfToken(m0, m, b, rot, layers, layer, p);
  }

  /** The buffer holds, from the first chunk's start on, the re-encoded chunk tokens and zeros
      in the gaps. */
  ghost predicate BufferHolds(m0: Memory, m: Memory, r: Request, rot: Rotary, buffer: nat, layer: nat)
    requires Proper(r)
  {
    && (forall j: nat, k: nat :: HasToken(r.chunks, j, k) ==>
          m(Buffer(buffer, r.chunks[j].start + k - r.chunks[0].start)) == Asked(m0, r, rot, layer, j, k))
    && (forall t: nat :: Between(r.chunks, t) && !InChunk(r.chunks, t) ==> m(Buffer(buffer, t - r.chunks[0].start)) == KV(0, 0))
  }

  lemma {:induction false} DecodedHolds(m0: Memory, m: Memory, b: Blend, rot: Rotary, buffer: nat, layer: nat)
    requires DecodedInto(m0, m, b, rot, buffer, layer)
    ensures BufferHolds(m0, m, b, rot, buffer, layer)
  {
    hide ChunkAt, Width;
    forall j: nat, k: nat | HasToken(b.chunks, j, k)
      ensures m(Buffer(buffer, b.chunks[j].start + k - b.chunks[0].start)) == Asked(m0, b, rot, layer, j, k)
    {
      ChunkOfToken(b, |b.chunks|, j, k);
    }
    ChunkInside(b, |b.chunks| - 1);
    forall t: nat | Between(b.chunks, t) && !InChunk(b.chunks, t) ensures m(Buffer(buffer, t - b.chunks[0].start)) == KV(0, 0) {
      GapAt(b, |b.chunks|, t);
    }
  }

  /** With distinct slots the plain loop's pages are those. */
  lemma {:induction false} PagesAreLoaded(m0: Memory, m: Memory, b: Blend, rot: Rotary, layers: nat)
    requires PagesAre(m0, m, b, rot, layers) && Distinct(b.slots)
    ensures SlotsLoaded(m0, m, b, rot, layers)
  {
    hide ChunkAt, Plain, Distinct, InSlot;
    forall layer: nat, j: nat, k: nat | layer < layers && HasToken(b.chunks, j, k)
      ensures InSlot(m0, m, b, rot, layer, j, k)
    {
      TokenLoaded(m0, m, b, rot, layers, layer, j, k);
    }
    forall layer: nat, t: nat | layer < layers && t < |b.slots| && Between(b.chunks, t) && !InChunk(b.chunks, t)
      ensures m(Page(layer, b.slots[t])) == KV(0, 0)
    {
      GapLoaded(m0, m, b, rot, layers, layer, t);
    }
    forall layer: nat, slot: nat | layer >= layers || !SlotBetween(b, slot) ensures m(Page(layer, slot)) == m0(Page(layer, slot)) {
      OtherKept(m0, m, b, rot, layers, layer, slot);
    }
  }

  lemma {:induction false} OtherKept(m0: Memory, m: Memory, b: Blend, rot: Rotary, layers: nat, layer: nat, slot: nat)
    requires PagesAre(m0, m, b, rot, layers) && (layer >= layers || !SlotBetween(b, slot))
    ensures m(Page(layer, slot)) == m0(Page(layer, slot))
  {
    hide Plain;
    assert m(Page(layer, slot)) == PageAfter(m0, b, rot, layers, Page(layer, slot));
    WindowBetween(b, slot);
  }

  /** Paged memory is the one asked for, whatever the memory objects hold and however the race
      ends, exactly when every chunk is indifferent. */
  lemma {:induction false} PagesExact(b: Blend, rot: Rotary, layers: nat)
    requires layers > 0 && Distinct(b.slots)
    ensures Indifferent(b, rot, |b.chunks|) <==>
      forall m0, final, early: nat :: early <= |b.chunks| && SlotsLoaded(m0, final, Raced(b, early), rot, layers)
        ==> SlotsLoaded(m0, final, b, rot, layers)
  {
    hide SlotsLoaded, Raced, Indifferent;
    var n := |b.chunks|;
    if Indifferent(b, rot, n) {
      forall m0, final, early: nat | early <= n && SlotsLoaded(m0, final, Raced(b, early), rot, layers)
        ensures SlotsLoaded(m0, final, b, rot, layers)
      {
        RacedSlots(m0, final, b, rot, early, layers);
      }
    } else {
      var m0, final, j, k := RacedApart(b, rot, layers);
      assert !SlotsLoaded(m0, final, b, rot, layers) by { TokenOff(m0, final, b, rot, layers, j, k); }
    }
  }

  /** When the chunks are indifferent, however the race ended. */
  lemma {:induction false} RacedSlots(m0: Memory, final: Memory, b: Blend, rot: Rotary, early: nat, layers: nat)
    requires early <= |b.chunks| && Indifferent(b, rot, |b.chunks|) && SlotsLoaded(m0, final, Raced(b, early), rot, layers)
    ensures SlotsLoaded(m0, final, b, rot, layers)
  {
    forall layer: nat, j: nat, k: nat | layer < layers && HasToken(b.chunks, j, k)
      ensures InSlot(m0, final, b, rot, layer, j, k)
    {
      assert InSlot(m0, final, Raced(b, early), rot, layer, j, k);
      assert EncodesAlike(b, rot, j, k, m0(Host(0, layer, j, k)).key);
    }
    forall slot ensures SlotBetween(Raced(b, early), slot) <==> SlotBetween(b, slot) {
    }
  }

  /** A key that the two re-encodings tell apart, everywhere. */
  lemma {:induction false} RacedApart(b: Blend, rot: Rotary, layers: nat) returns (m0: Memory, final: Memory, j: nat, k: nat)
    requires layers > 0 && Distinct(b.slots) && !Indifferent(b, rot, |b.chunks|)
    ensures SlotsLoaded(m0, final, Raced(b, |b.chunks|), rot, layers)
    ensures HasToken(b.chunks, j, k) && !InSlot(m0, final, b, rot, 0, j, k)
    ensures exists key :: m0 == Constant(key)
  {
    hide PagesAre, SlotsLoaded, InSlot, EncodesAlike, Raced, Flushed;
    var key: int;
    j, k, key :| j < |b.chunks| && HasToken(b.chunks, j, k) && !EncodesAlike(b, rot, j, k, key);
    var raced := Raced(b, |b.chunks|);
    m0, final := Constant(key), Flushed(Constant(key), raced, rot, layers);
    FlushedPages(m0, raced, rot, layers);
    PagesAreLoaded(m0, final, raced, rot, layers);
    TokenOn(m0, final, raced, rot, layers, j, k);
    OneSlot(final, b, rot, j, k, key);
  }

  lemma TokenOn(m0: Memory, m: Memory, b: Blend, rot: Rotary, layers: nat, j: nat, k: nat)
    requires layers > 0 && HasToken(b.chunks, j, k) && SlotsLoaded(m0, m, b, rot, layers)
    ensures InSlot(m0, m, b, rot, 0, j, k)
  {
  }

  /** A slot cannot hold both re-encodings of a key that they tell apart. */
  lemma OneSlot(final: Memory, b: Blend, rot: Rotary, j: nat, k: nat, key: int)
    requires HasToken(b.chunks, j, k) && !EncodesAlike(b, rot, j, k, key)
    requires InSlot(Constant(key), final, Raced(b, |b.chunks|), rot, 0, j, k)
    ensures !InSlot(Constant(key), final, b, rot, 0, j, k)
  {
    assert Raced(b, |b.chunks|).cached[j][k] == 0;
  }

  lemma TokenOff(m0: Memory, m: Memory, b: Blend, rot: Rotary, layers: nat, j: nat, k: nat)
    requires layers > 0 && HasToken(b.chunks, j, k) && !InSlot(m0, m, b, rot, 0, j, k)
    ensures !SlotsLoaded(m0, m, b, rot, layers)
  {
  }

  /** Two tokens stored at positions 2 and 3, keys re-encoded by adding the distance: if the
      write of their positions runs before the zeroing, the second token's key is off by 3. */
  lemma RaceExample()
    ensures
      var b: Blend, rot := Request([Chunk(2, 4)], [0, 1, 2, 3], [[2, 3]]), (from: int, to: int, key: int) => key + to - from;
      forall m0: Memory, final: Memory ::
        && (SlotsLoaded(m0, final, b, rot, 1) ==> final(Page(0, 3)).key == m0(Host(0, 0, 0, 1)).key)
        && (SlotsLoaded(m0, final, Raced(b, 1), rot, 1) ==> final(Page(0, 3)).key == m0(Host(0, 0, 0, 1)).key + 3)
  {
    var r := Request([Chunk(2, 4)], [0, 1, 2, 3], [[2, 3]]);
    assert Proper(r);
    var b: Blend := r;
    assert HasToken(b.chunks, 0, 1) && Raced(b, 1).cached[0][1] == 0;
    var rot := (from: int, to: int, key: int) => key + to - from;
    forall m0: Memory, final: Memory
      ensures SlotsLoaded(m0, final, b, rot, 1) ==> final(Page(0, 3)).key == m0(Host(0, 0, 0, 1)).key
      ensures SlotsLoaded(m0, final, Raced(b, 1), rot, 1) ==> final(Page(0, 3)).key == m0(Host(0, 0, 0, 1)).key + 3
    {
      assert SlotsLoaded(m0, final, b, rot, 1) ==> InSlot(m0, final, b, rot, 0, 0, 1);
      assert SlotsLoaded(m0, final, Raced(b, 1), rot, 1) ==> InSlot(m0, final, Raced(b, 1), rot, 0, 0, 1);
    }
  }

  lemma NothingQueued(b: Blend, buffer: nat, layer: nat)
    ensures Loads(b, buffer, layer, 0) == [] && PositionWrites(b, 0) == []
  {
  }

  lemma QueuedNext(b: Blend, buffer: nat, layer: nat, j: nat)
    requires j < |b.chunks|
    ensures
      var c := b.chunks[j];
      && Loads(b, buffer, layer, j + 1) == Loads(b, buffer, layer, j) + [CopyIn(buffer, 0, layer, j, c.start - From(b), c.end - c.start)]
      && PositionWrites(b, j + 1) == PositionWrites(b, j) + [Put(c.start - From(b), b.cached[j])]
  {
  }

  /** What `SwapIn` queues is the re-encoding of the request as the tensor describes it. */
  lemma RacedDecode(b: Blend, early: nat, buffer: nat, rot: Rotary, stored: seq<int>)
    requires stored == PositionsSoFar(Raced(b, early), |b.chunks|)
    ensures Decode(Raced(b, early), buffer, rot)
         == [Rewrite(buffer, Reencode(b, rot, stored))] + if HasGap(b) then [Rewrite(buffer, ZeroGaps(b))] else []
  {
    hide Raced, Gap, PositionsSoFar, Proper;
    RacedShape(b, early);
    assert Reencode(Raced(b, early), rot, stored) == Reencode(b, rot, stored);
    assert ZeroGaps(Raced(b, early)) == ZeroGaps(b);
  }

  /** The layers before this one are in paged memory, this one is loaded into the buffer. */
  ghost predicate Staged(m0: Memory, m: Memory, b: Blend, rot: Rotary, buffer: nat, layer: nat) {
    PagesAre(m0, m, b, rot, layer) && HostsAre(m0, m) && LoadedInto(m0, m, b, buffer, layer)
  }

  lemma {:induction false} RacedFirst(m0: Memory, b: Blend, early: nat, rot: Rotary, buffer: nat, c: seq<Op>)
    requires Interleaves([], Loads(b, buffer, 0, |b.chunks|), c)
    ensures Staged(m0, Run(m0, c), Raced(b, early), rot, buffer, 0)
  {
    hide Run, PageAfter, PagesAre, HostsAre, LoadedInto, Interleaves, Proper, Raced, Loads;
    RacedLoads(b, early, buffer, 0, |b.chunks|);
    FirstStep(m0, Raced(b, early), rot, buffer, c);
  }

  lemma {:induction false} RacedOverlap(
      m0: Memory, m: Memory, b: Blend, early: nat, rot: Rotary, buffer: nat, other: nat, layer: nat, c: seq<Op>)
    requires buffer != other
    requires Staged(m0, m, Raced(b, early), rot, buffer, layer)
    requires Interleaves(
      Decode(Raced(b, early), buffer, rot) + [Flush(b, buffer, layer)], Loads(b, other, layer + 1, |b.chunks|), c)
    ensures Staged(m0, Run(m, c), Raced(b, early), rot, other, layer + 1)
  {
    hide Run, PageAfter, PagesAre, HostsAre, LoadedInto, Interleaves, Proper, Raced, Loads, Decode, Window;
    RacedLoads(b, early, other, layer + 1, |b.chunks|);
    RacedShape(b, early);
    OverlapStep(m0, m, Raced(b, early), rot, buffer, other, layer, c);
  }

  class BufferConnector {
    const numLayers: nat
    const rot: Rotary
    /** The request being loaded. */
    var asked: Blend
    var at: Point
    /** The two device buffers, by number. */
    var compute: nat
    var load: nat
    var mapping: map<nat, nat>
    /** Memory at the last `torch.cuda.synchronize`, and what either stream queued since. */
    ghost var memory: Memory
    var computeStream: seq<Op>
    var loadStream: seq<Op>
    /** The position tensor at that moment, and what either stream queued on it since. */
    var oldPositions: seq<int>
    var zeroing: seq<PositionOp>
    var writes: seq<PositionOp>
    /** How many chunks' positions were written before the zeroing. */
    ghost var early: nat
    /** Layers copied to paged memory so far. */
    var flushed: seq<nat>

    /** The request as the position tensor describes it. */
    ghost function Blended(): Blend
      reads this
    {
      Raced(asked, early)
    }

    /** `torch.cuda.synchronize()`: all queues have run, in some interleaving. */
    method Synchronize()
      modifies this`memory, this`computeStream, this`loadStream, this`oldPositions, this`zeroing, this`writes
      ensures computeStream == [] && loadStream == [] && zeroing == [] && writes == []
      ensures exists c :: Interleaves(old(computeStream), old(loadStream), c) && memory == Run(old(memory), c)
      ensures exists c :: Interleaves(old(zeroing), old(writes), c) && oldPositions == RunPositions(old(oldPositions), c)
    {
      hide Run, RunPositions, Interleaves;
      SomeInterleaving(computeStream, loadStream, 0);
      ghost var c: seq<Op> :| Interleaves(computeStream, loadStream, c);
      memory := Run(memory, c);
      var n: nat :| n <= |writes|;
      SomeInterleaving(zeroing, writes, n);
      oldPositions := RunPositions(oldPositions, writes[..n] + zeroing + writes[n..]);
      computeStream, loadStream, zeroing, writes := [], [], [], [];
    }

    /** Queues the copies of one layer's memory objects into the buffer that nobody maps, and
        with the first layer the chunks' stored positions. */
    method QueueLoads(layer: nat)
      requires load !in mapping.Values
      modifies this`loadStream, this`writes
      ensures loadStream == old(loadStream) + Loads(asked, load, layer, |asked.chunks|)
      ensures writes == old(writes) + if layer == 0 then PositionWrites(asked, |asked.chunks|) else []
    {
      hide Loads, PositionWrites, Width;
      NothingQueued(asked, load, layer);
      for j := 0 to |asked.chunks|
        invariant loadStream == old(loadStream) + Loads(asked, load, layer, j)
        invariant writes == old(writes) + if layer == 0 then PositionWrites(asked, j) else []
      {
        var c := asked.chunks[j];
        ChunkInside(asked, j);
        QueuedNext(asked, load, layer, j);
        loadStream := loadStream + [CopyIn(load, 0, layer, j, c.start - From(asked), c.end - c.start)];
        if layer == 0 {
          writes := writes + [Put(c.start - From(asked), asked.cached[j])];
        }
      }
    }

    /** The generator waits for the objects of layer `l`, or is past the last layer. Layers
        before `l - 1` are in paged memory, layer `l - 1` is mapped and its re-encoding
        queued, and nothing is being loaded. The tensor is settled with the first layer. */
    ghost predicate Ready(m0: Memory, l: nat)
      reads this
    {
      && at == (if l < numLayers then AwaitLayer(l) else AfterLast)
      && compute != load && loadStream == [] && writes == [] && |oldPositions| == Width(asked)
      && flushed == Upto(if l == 0 then 0 else l - 1)
      && mapping == (if l == 0 then map[] else map[l - 1 := compute])
      && (l == 0 ==> zeroing == [Zero] && computeStream == [] && memory == m0)
      && (l > 0 ==> zeroing == [] && Settled() && computeStream == Decode(Blended(), compute, rot))
      && (l > 0 ==> Staged(m0, memory, Blended(), rot, compute, l - 1))
    }

    /** The tensor holds what the race left. */
    ghost predicate Settled()
      reads this
    {
      early <= |asked.chunks| && oldPositions == PositionsSoFar(Blended(), |asked.chunks|)
    }

    /** Nothing of another request is mapped or being loaded. The compute stream may still
        hold its last layer. */
    ghost predicate Idle()
      reads this
    {
      (at.Created? || at.Done?) && mapping == map[] && loadStream == [] && zeroing == [] && writes == []
    }

    /** The first next: finding the gaps waits for the compute stream, then two buffers and the
        position tensor are allocated and the zeroing is queued. `stale` is what the tensor's
        memory held. */
    method Begin(request: Blend, stale: seq<int>)
      requires numLayers > 0 && Idle() && |stale| == Width(request)
      modifies this
      ensures asked == request && Ready(memory, 0) && memory == Run(old(memory), old(computeStream))
    {
      hide Width, Decode, Staged, Run, Raced, Proper;
      asked, flushed := request, [];
      memory, computeStream := Run(memory, computeStream), [];
      compute, load := 0, 1;
      oldPositions, zeroing := stale, [Zero];
      at := AwaitLayer(0);
    }

    /** Copies the mapped buffer of a layer to paged memory and unmaps it. */
    method FlushLayer(layer: nat)
      requires layer in mapping
      modifies this`computeStream, this`mapping, this`flushed
      ensures computeStream == old(computeStream) + [Flush(asked, old(mapping)[layer], layer)]
      ensures mapping == old(mapping) - {layer} && flushed == old(flushed) + [layer]
    {
      computeStream := computeStream + [Scatter(mapping[layer], layer, Window(asked))];
      mapping := mapping - {layer};
      flushed := flushed + [layer];
    }

    /** What is queued on the tensor once layer l is: everything with the first layer, nothing
        later. */
    ghost predicate TensorQueued(l: nat)
      reads this
    {
      && |oldPositions| == Width(asked)
      && (if l == 0 then zeroing == [Zero] && writes == PositionWrites(asked, |asked.chunks|)
          else zeroing == [] && writes == [] && Settled())
    }

    /** The first synchronisation settles the position tensor, later ones find nothing queued
        on it. */
    method SettlingSynchronize(ghost l: nat)
      requires TensorQueued(l)
      modifies this`memory, this`computeStream, this`loadStream, this`oldPositions, this`zeroing, this`writes, this`early
      ensures computeStream == [] && loadStream == [] && zeroing == [] && writes == []
      ensures exists c :: Interleaves(old(computeStream), old(loadStream), c) && memory == Run(old(memory), c)
      ensures Settled() && |oldPositions| == Width(asked) && (l > 0 ==> early == old(early))
    {
      hide Run, RunPositions, PositionsSoFar, Raced, PositionWrites, Interleaves, Proper, Width;
      Synchronize();
      if l == 0 {
        RaceOutcomes(asked, old(oldPositions), oldPositions);
        ghost var n: nat :| n <= |asked.chunks| && oldPositions == PositionsSoFar(Raced(asked, n), |asked.chunks|);
        early := n;
      } else {
        ghost var c: seq<PositionOp> :| Interleaves([], [], c) && oldPositions == RunPositions(old(oldPositions), c);
        NothingInterleaves([], c);
        NothingRuns(old(oldPositions));
      }
    }

    /** Waits for both streams, swaps the buffers, re-encodes the loaded one and maps it. */
    method SwapIn(layer: nat)
      requires TensorQueued(layer)
      modifies this`memory, this`computeStream, this`loadStream, this`oldPositions, this`zeroing, this`writes, this`early
      modifies this`compute, this`load, this`mapping
      ensures exists c :: Interleaves(old(computeStream), old(loadStream), c) && memory == Run(old(memory), c)
      ensures compute == old(load) && load == old(compute) && loadStream == [] && zeroing == [] && writes == []
      ensures Settled() && |oldPositions| == Width(asked) && (layer > 0 ==> early == old(early))
      ensures computeStream == Decode(Blended(), compute, rot) && mapping == old(mapping)[layer := compute]
    {
      hide Run, PositionsSoFar, PositionWrites, Interleaves, Reencode, ZeroGaps, HasGap, Proper, Raced, Width, Decode;
      SettlingSynchronize(layer);
      compute, load := load, compute;
      computeStream := computeStream + [Rewrite(compute, Reencode(asked, rot, oldPositions))];
      if HasGap(asked) {
        computeStream := computeStream + [Rewrite(compute, ZeroGaps(asked))];
      }
      RacedDecode(asked, early, compute, rot, oldPositions);
      mapping := mapping[layer := compute];
    }

    /** Layer l is queued and the layer before it is about to be flushed. */
    ghost predicate Filling(m0: Memory, l: nat)
      reads this
    {
      && at == AwaitLayer(l) && compute != load && flushed == Upto(l) && mapping == map[]
      && TensorQueued(l) && loadStream == Loads(asked, load, l, |asked.chunks|)
      && (if l == 0 then computeStream == [] && memory == m0
          else
            && computeStream == Decode(Blended(), compute, rot) + [Flush(asked, compute, l - 1)]
            && Staged(m0, memory, Blended(), rot, compute, l - 1))
    }

    /** Queues layer l and the flush of the layer before it. */
    method Fill(ghost m0: Memory, l: nat)
      requires l < numLayers && Ready(m0, l)
      modifies this`loadStream, this`writes, this`computeStream, this`mapping, this`flushed
      ensures Filling(m0, l)
    {
      hide Decode, Staged, PositionsSoFar, Run, Proper, Raced, Loads, Window, PositionWrites, Width, Flush;
      QueueLoads(l);
      if l > 0 {
        FlushLayer(l - 1);
      }
    }

    /** `send(memory_objs_layer)`: queue the layer's copies, flush the layer before it, then
        swap. The buffer being filled is not the mapped one, and whatever order the two
        streams ran in, the layer before is in paged memory and this one is loaded. */
    method Send(ghost m0: Memory, l: nat)
      requires l < numLayers && Ready(m0, l)
      modifies this
      ensures Ready(m0, l + 1) && asked == old(asked)
    {
      hide Decode, Staged, Interleaves, PositionsSoFar, Run, Proper, Raced, Loads, Window, PositionWrites, Width, Flush;
      Fill(m0, l);
      ghost var m, queued, loads, from, to := memory, computeStream, loadStream, compute, load;
      SwapIn(l);
      ghost var c :| Interleaves(queued, loads, c) && memory == Run(m, c);
      if l > 0 {
        RacedOverlap(m0, m, asked, early, rot, from, to, l - 1, c);
      } else {
        RacedFirst(m0, asked, early, rot, to, c);
      }
      at := if l + 1 < numLayers then AwaitLayer(l + 1) else AfterLast;
    }

    /** The last next: the last layer is flushed and both buffers are given back; the mapping
        is empty, as the generator asserts. */
    method Finish(ghost m0: Memory)
      requires numLayers > 0 && Ready(m0, numLayers)
      modifies this
      ensures at == Done && Idle() && flushed == Upto(numLayers) && asked == old(asked) && Settled()
      ensures memory == old(memory) && PagesAre(m0, Run(memory, computeStream), Blended(), rot, numLayers)
    {
      hide Decode, PageAfter, PagesAre, HostsAre, LoadedInto, PositionsSoFar, Run, Proper, Raced, Window;
      RacedShape(asked, early);
      FlushedStep(m0, memory, Blended(), rot, compute, numLayers - 1);
      FlushLayer(numLayers - 1);
      at := Done;
    }

    /** The whole generator, one request after another. It refines the plain loop that loads a
        layer's chunks, re-encodes their keys, zeroes the gaps and writes the layer to paged
        memory: for the positions that the race on the tensor leaves, and for the positions
        asked for when the chunks are indifferent to them. */
    method LoadAllLayers(request: Blend, stale: seq<int>)
      requires numLayers > 0 && Idle() && |stale| == Width(request)
      modifies this
      ensures at == Done && Idle() && flushed == Upto(numLayers) && asked == request
      ensures
        var m0, final := Run(old(memory), old(computeStream)), Run(memory, computeStream);
        && early <= |request.chunks| && PagesAre(m0, final, Raced(request, early), rot, numLayers)
        && (Distinct(request.slots) ==> SlotsLoaded(m0, final, Raced(request, early), rot, numLayers))
        && (Distinct(request.slots) && Indifferent(request, rot, |request.chunks|) ==> SlotsLoaded(m0, final, request, rot, numLayers))
    {
      hide Run, PagesAre, SlotsLoaded, Indifferent, Raced, PositionsSoFar;
      Begin(request, stale);
      ghost var m0 := memory;
      for l := 0 to numLayers
        invariant Ready(m0, l) && asked == request
      {
        Send(m0, l);
      }
      Finish(m0);
      if Distinct(request.slots) {
        PagesAreLoaded(m0, Run(memory, computeStream), Raced(request, early), rot, numLayers);
        if Indifferent(request, rot, |request.chunks|) {
          RacedSlots(m0, Run(memory, computeStream), request, rot, early, numLayers);
        }
      }
    }

    /** `get_kv`: only the layer just swapped in is available, and its buffer then holds the
        layer's plain result, gaps included, once the compute stream gets there. */
    method GetKv(ghost m0: Memory, ghost l: nat, layer: nat) returns (r: Option<nat>)
      requires Ready(m0, l)
      ensures r.Some? <==> l == layer + 1
      ensures r.Some? ==> r.value != load && DecodedInto(m0, Run(memory, computeStream), Blended(), rot, r.value, layer)
      ensures r.Some? ==> BufferHolds(m0, Run(memory, computeStream), Blended(), rot, r.value, layer)
    {
      hide Decode, Run, PositionsSoFar, Raced, DecodedInto, BufferHolds;
      if layer !in mapping {
        return None;
      }
      DecodeStep(m0, memory, Blended(), rot, compute, layer);
      DecodedHolds(m0, Run(memory, computeStream), Blended(), rot, compute, layer);
      return Some(mapping[layer]);
    }
  }
}
