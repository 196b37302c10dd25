/** Device streams: each one is a queue of operations on memory, executed in order, but at
    any moment only some prefix of it has run. */
module Streams {
  /** A token's key and value vectors in one layer, each standing as one number. */
  datatype KV = KV(key: int, value: int)

  /** Where a token's key and value can live: a slot of a layer's paged memory, a staging
      buffer on the device, or a memory object of the cache. */
  datatype Loc =
    | Page(layer: nat, slot: nat)
    | Buffer(id: nat, index: int)
    | Host(owner: nat, layer: nat, chunk: nat, index: int)

  type Memory = Loc -> KV

  datatype Op =
    /** Memory object of a chunk -> positions at .. at + len of a buffer. */
    | CopyIn(buffer: nat, owner: nat, layer: nat, chunk: nat, at: int, len: nat)
    /** Buffer -> slots of a layer's paged memory. */
    | Scatter(buffer: nat, layer: nat, slots: seq<nat>)
    /** Slots of a layer's paged memory -> buffer. */
    | Gather(buffer: nat, layer: nat, slots: seq<nat>)
    /** Buffer from position `at` on -> the len tokens of a chunk's memory object; when the
        slice is one token wide it is repeated. */
    | CopyOut(buffer: nat, owner: nat, layer: nat, chunk: nat, at: int, len: nat, repeated: bool)
    /** Rewrites every token of a buffer in place. */
    | Rewrite(buffer: nat, via: seq<KV -> KV>)
    /** Waits until the compute stream has passed this many layers. */
    | Await(layers: nat)
    /** A layer's forward pass puts keys and values of its tokens into the layer's pages. */
    | Compute(layer: nat, written: map<nat, KV>)

  predicate Writes(op: Op, loc: Loc) {
    match op
    case CopyIn(buffer, _, _, _, at, len) => loc.Buffer? && loc.id == buffer && at <= loc.index < at + len
    case Scatter(_, layer, slots) => loc.Page? && loc.layer == layer && loc.slot in slots
    case Gather(buffer, _, slots) => loc.Buffer? && loc.id == buffer && 0 <= loc.index < |slots|
    case CopyOut(_, owner, layer, chunk, _, len, _) =>
      loc.Host? && loc.owner == owner && loc.layer == layer && loc.chunk == chunk && 0 <= loc.index < len
    case Rewrite(buffer, via) => loc.Buffer? && loc.id == buffer && 0 <= loc.index < |via|
    case Await(_) => false
    case Compute(layer, written) => loc.Page? && loc.layer == layer && loc.slot in written
  }

  /** Where the value written to a location comes from. */
  function Source(op: Op, loc: Loc): Loc
    requires Writes(op, loc)
  {
    match op
    case CopyIn(_, owner, layer, chunk, at, _) => Host(owner, layer, chunk, loc.index - at)
    case Scatter(buffer, _, slots) => Buffer(buffer, IndexOf(slots, loc.slot))
    case Gather(_, layer, slots) => Page(layer, slots[loc.index])
    case CopyOut(buffer, _, _, _, at, _, repeated) => Buffer(buffer, if repeated then at else at + loc.index)
    case Rewrite(_, _) | Await(_) | Compute(_, _) => loc
  }

  function Exec(m: Memory, op: Op): Memory {
    (loc: Loc) =>
      if !Writes(op, loc) then m(loc)
      else if op.Rewrite? then op.via[loc.index](m(loc))
      else if op.Compute? then op.written[loc.slot]
      else m(Source(op, loc))
  }

  lemma ExecCopyIn(m: Memory, buffer: nat, owner: nat, layer: nat, chunk: nat, at: int, len: nat, p: int)
    ensures Exec(m, CopyIn(buffer, owner, layer, chunk, at, len))(Buffer(buffer, p))
         == m(if at <= p < at + len then Host(owner, layer, chunk, p - at) else Buffer(buffer, p))
  {
    var op, loc := CopyIn(buffer, owner, layer, chunk, at, len), Buffer(buffer, p);
    if at <= p < at + len {
      assert Writes(op, loc) && Source(op, loc) == Host(owner, layer, chunk, p - at);
    } else {
      assert !Writes(op, loc);
    }
  }

  lemma ExecCopyOut(m: Memory, buffer: nat, owner: nat, layer: nat, chunk: nat, at: int, len: nat, repeated: bool, j: nat, k: nat)
    ensures Exec(m, CopyOut(buffer, owner, layer, chunk, at, len, repeated))(Host(owner, layer, j, k))
         == m(if j == chunk && k < len then Buffer(buffer, if repeated then at else at + k) else Host(owner, layer, j, k))
  {
    var op, loc := CopyOut(buffer, owner, layer, chunk, at, len, repeated), Host(owner, layer, j, k);
    if j == chunk && k < len {
      assert Writes(op, loc) && Source(op, loc) == Buffer(buffer, if repeated then at else at + k);
    } else {
      assert !Writes(op, loc);
    }
  }

  function IndexOf(s: seq<nat>, x: nat): (i: nat)
    requires x in s
    ensures i < |s| && s[i] == x
  {
    if s[0] == x then 0 else 1 + IndexOf(s[1..], x)
  }

  /** Memory after a whole queue has run. */
  function Run(m: Memory, ops: seq<Op>): Memory {
    if ops == [] then m else Exec(Run(m, ops[..|ops| - 1]), ops[|ops| - 1])
  }

  ghost predicate Same(a: Memory, b: Memory) {
    forall loc :: a(loc) == b(loc)
  }

  lemma {:induction false} RunConcat(m: Memory, a: seq<Op>, b: seq<Op>)
    ensures Run(m, a + b) == Run(Run(m, a), b)
  {
    if b == [] {
      assert a + b == a;
    } else {
      var n := |b| - 1;
      RunConcat(m, a, b[..n]);
      assert (a + b)[..|a + b| - 1] == a + b[..n] && (a + b)[|a + b| - 1] == b[n];
    }
  }

  lemma RunLast(m: Memory, ops: seq<Op>, op: Op)
    ensures Run(m, ops + [op]) == Exec(Run(m, ops), op)
  {
    assert (ops + [op])[..|ops|] == ops;
  }

  ghost predicate Untouched(ops: seq<Op>, loc: Loc) {
    forall i :: 0 <= i < |ops| ==> !Writes(ops[i], loc)
  }

  lemma {:induction false} RunKeeps(m: Memory, ops: seq<Op>, loc: Loc)
    requires Untouched(ops, loc)
    ensures Run(m, ops)(loc) == m(loc)
  {
    if ops != [] {
      RunKeeps(m, ops[..|ops| - 1], loc);
    }
  }

  lemma UntouchedConcat(a: seq<Op>, b: seq<Op>, loc: Loc)
    ensures Untouched(a + b, loc) <==> Untouched(a, loc) && Untouched(b, loc)
  {
    forall i | 0 <= i < |a| && Untouched(a + b, loc) ensures !Writes(a[i], loc) {
      assert (a + b)[i] == a[i];
    }
    forall i | 0 <= i < |b| && Untouched(a + b, loc) ensures !Writes(b[i], loc) {
      assert (a + b)[|a| + i] == b[i];
    }
  }

  lemma {:induction false} GatherFills(m: Memory, buffer: nat, layer: nat, slots: seq<nat>, p: nat)
    requires p < |slots|
    ensures Run(m, [Await(layer + 1), Gather(buffer, layer, slots)])(Buffer(buffer, p)) == m(Page(layer, slots[p]))
  {
    var gather := Gather(buffer, layer, slots);
    RunLast(m, [Await(layer + 1)], gather);
    assert [Await(layer + 1)] + [gather] == [Await(layer + 1), gather];
    assert Writes(gather, Buffer(buffer, p)) && Source(gather, Buffer(buffer, p)) == Page(layer, slots[p]);
    RunKeeps(m, [Await(layer + 1)], Page(layer, slots[p]));
  }

  // ---- a queue filled layer by layer ----

  /** What each request queues for each layer. */
  type Plan = (nat, nat) -> seq<Op>

  /** One layer of the first n requests. */
  function Block(plan: Plan, layer: nat, n: nat): seq<Op> {
    if n == 0 then [] else Block(plan, layer, n - 1) + plan(n - 1, layer)
  }

  /** The first `layers` layers of `count` requests, layer by layer. */
  function Queue(plan: Plan, count: nat, layers: nat): seq<Op> {
    if layers == 0 then [] else Queue(plan, count, layers - 1) + Block(plan, layers - 1, count)
  }

  /** Everything queued before what request i queues for the layer. */
  function Before(plan: Plan, count: nat, layer: nat, i: nat): seq<Op> {
    Queue(plan, count, layer) + Block(plan, layer, i)
  }

  ghost predicate LeavesAlone(plan: Plan, i: nat, layer: nat, loc: Loc) {
    Untouched(plan(i, layer), loc)
  }

  lemma {:induction false} BlockKeeps(m: Memory, plan: Plan, layer: nat, n: nat, loc: Loc)
    requires forall i :: 0 <= i < n ==> LeavesAlone(plan, i, layer, loc)
    ensures Run(m, Block(plan, layer, n))(loc) == m(loc)
  {
    if n > 0 {
      BlockKeeps(m, plan, layer, n - 1, loc);
      RunConcat(m, Block(plan, layer, n - 1), plan(n - 1, layer));
      assert LeavesAlone(plan, n - 1, layer, loc);
      RunKeeps(Run(m, Block(plan, layer, n - 1)), plan(n - 1, layer), loc);
    }
  }

  lemma {:induction false} BeforeKeeps(m: Memory, plan: Plan, count: nat, layer: nat, i: nat, loc: Loc)
    requires i <= count
    requires forall j: nat, l: nat :: j < count ==> LeavesAlone(plan, j, l, loc)
    ensures Run(m, Before(plan, count, layer, i))(loc) == m(loc)
  {
    RunConcat(m, Queue(plan, count, layer), Block(plan, layer, i));
    BlockKeeps(Run(m, Queue(plan, count, layer)), plan, layer, i, loc);
    if layer > 0 {
      BeforeKeeps(m, plan, count, layer - 1, count, loc);
    }
  }

  lemma {:induction false} QueueNext(plan: Plan, count: nat, layers: nat)
    ensures Queue(plan, count, layers + 1) == Queue(plan, count, layers) + Block(plan, layers, count)
  {
  }

  lemma {:induction false} BlockUntouched(plan: Plan, layer: nat, n: nat, loc: Loc)
    requires forall i :: 0 <= i < n ==> LeavesAlone(plan, i, layer, loc)
    ensures Untouched(Block(plan, layer, n), loc)
  {
    if n > 0 {
      BlockUntouched(plan, layer, n - 1, loc);
      assert LeavesAlone(plan, n - 1, layer, loc);
      UntouchedConcat(Block(plan, layer, n - 1), plan(n - 1, layer), loc);
    }
  }

  /** What a longer queue adds leaves a location alone that only one layer writes. */
  lemma {:induction false} QueueGrows(plan: Plan, count: nat, from: nat, layers: nat, loc: Loc) returns (rest: seq<Op>)
    requires from <= layers
    requires forall j: nat, l: nat :: j < count && l >= from ==> LeavesAlone(plan, j, l, loc)
    ensures Queue(plan, count, layers) == Queue(plan, count, from) + rest && Untouched(rest, loc)
  {
    hide Queue, Block, Untouched, LeavesAlone;
    if from == layers {
      rest := [];
      assert Untouched([], loc) by { NothingTouches(loc); }
    } else {
      QueueNext(plan, count, layers - 1);
      var head := QueueGrows(plan, count, from, layers - 1, loc);
      var block := Block(plan, layers - 1, count);
      rest := head + block;
      BlockUntouched(plan, layers - 1, count, loc);
      UntouchedConcat(head, block, loc);
    }
  }

  lemma NothingTouches(loc: Loc)
    ensures Untouched([], loc)
  {
  }

  /** What request j's operations on the layer leave at the location, after everything queued
      before them. */
  function Left(m: Memory, plan: Plan, count: nat, layer: nat, j: nat, loc: Loc): KV {
    Run(Run(m, Before(plan, count, layer, j)), plan(j, layer))(loc)
  }

  /** Every request that writes the location in this layer leaves the same value there. */
  ghost predicate WritersAgree(m: Memory, plan: Plan, count: nat, layer: nat, loc: Loc, value: KV) {
    forall j: nat :: j < count ==> LeavesAlone(plan, j, layer, loc) || Left(m, plan, count, layer, j, loc) == value
  }

  lemma {:induction false} BeforeNext(m: Memory, plan: Plan, count: nat, layer: nat, n: nat)
    ensures Run(m, Before(plan, count, layer, n + 1)) == Run(Run(m, Before(plan, count, layer, n)), plan(n, layer))
  {
    hide Run;
    assert Before(plan, count, layer, n + 1) == Before(plan, count, layer, n) + plan(n, layer);
    RunConcat(m, Before(plan, count, layer, n), plan(n, layer));
  }

  lemma {:induction false} BlockAgrees(m: Memory, plan: Plan, count: nat, layer: nat, n: nat, i: nat, loc: Loc, value: KV)
    requires i < n <= count && WritersAgree(m, plan, count, layer, loc, value) && Left(m, plan, count, layer, i, loc) == value
    ensures Run(m, Before(plan, count, layer, n))(loc) == value
  {
    hide Run, Before;
    BeforeNext(m, plan, count, layer, n - 1);
    if i < n - 1 {
      BlockAgrees(m, plan, count, layer, n - 1, i, loc, value);
      if LeavesAlone(plan, n - 1, layer, loc) {
        RunKeeps(Run(m, Before(plan, count, layer, n - 1)), plan(n - 1, layer), loc);
      }
    }
  }

  /** Whatever prefix of the queue has run, as long as it covers the layer: a location that
      only this layer writes holds what its writers agree on. */
  lemma {:induction false} PrefixAgrees(
      m: Memory, plan: Plan, count: nat, layers: nat, layer: nat, n: nat, i: nat, loc: Loc, value: KV)
    requires i < count && layer < layers
    requires |Queue(plan, count, layer + 1)| <= n <= |Queue(plan, count, layers)|
    requires forall j: nat, l: nat :: j < count && l != layer ==> LeavesAlone(plan, j, l, loc)
    requires WritersAgree(m, plan, count, layer, loc, value) && Left(m, plan, count, layer, i, loc) == value
    ensures Run(m, Queue(plan, count, layers)[..n])(loc) == value
  {
    hide Run, Queue, Left, WritersAgree, LeavesAlone;
    var done := Queue(plan, count, layer + 1);
    var rest := QueueGrows(plan, count, layer + 1, layers, loc);
    var extra := rest[..n - |done|];
    assert Queue(plan, count, layers)[..n] == done + extra;
    assert rest == extra + rest[n - |done|..];
    UntouchedConcat(extra, rest[n - |done|..], loc);
    RunConcat(m, done, extra);
    RunKeeps(Run(m, done), extra, loc);
    QueueNext(plan, count, layer);
    BlockAgrees(m, plan, count, layer, count, i, loc, value);
  }

  /** No other request or layer writes the location. */
  ghost predicate OnlyWriter(plan: Plan, count: nat, i: nat, layer: nat, loc: Loc) {
    forall j: nat, l: nat :: j < count && (j != i || l != layer) ==> LeavesAlone(plan, j, l, loc)
  }

  /** A location that only request i's operations on one layer write holds what they left. */
  lemma {:induction false} PrefixSettles(m: Memory, plan: Plan, count: nat, layers: nat, layer: nat, n: nat, i: nat, loc: Loc)
    requires i < count && layer < layers && OnlyWriter(plan, count, i, layer, loc)
    requires |Queue(plan, count, layer + 1)| <= n <= |Queue(plan, count, layers)|
    ensures Run(m, Queue(plan, count, layers)[..n])(loc) == Left(m, plan, count, layer, i, loc)
  {
    hide Run, Queue, Left, LeavesAlone;
    PrefixAgrees(m, plan, count, layers, layer, n, i, loc, Left(m, plan, count, layer, i, loc));
  }

  // ---- two streams at once ----

  ghost predicate Reads(op: Op, loc: Loc) {
    exists target :: Writes(op, target) && Source(op, target) == loc
  }

  /** Neither operation writes what the other reads or writes. */
  ghost predicate Independent(x: Op, y: Op) {
    && (forall loc :: Writes(x, loc) ==> !Writes(y, loc) && !Reads(y, loc))
    && (forall loc :: Writes(y, loc) ==> !Reads(x, loc))
  }

  ghost predicate AllIndependent(a: seq<Op>, b: seq<Op>) {
    forall i, j :: 0 <= i < |a| && 0 <= j < |b| ==> Independent(a[i], b[j])
  }

  /** c is some interleaving of the queues a and b. */
  ghost predicate Interleaves<T>(a: seq<T>, b: seq<T>, c: seq<T>)
    decreases |c|
  {
    if c == [] then a == [] && b == []
    else
      var last, rest := c[|c| - 1], c[..|c| - 1];
      || (a != [] && a[|a| - 1] == last && Interleaves(a[..|a| - 1], b, rest))
      || (b != [] && b[|b| - 1] == last && Interleaves(a, b[..|b| - 1], rest))
  }

  lemma {:induction false} ExecSame(a: Memory, b: Memory, op: Op)
    requires Same(a, b)
    ensures Same(Exec(a, op), Exec(b, op))
  {
    forall loc ensures Exec(a, op)(loc) == Exec(b, op)(loc) {
      assert Writes(op, loc) ==> a(Source(op, loc)) == b(Source(op, loc));
    }
  }

  lemma {:induction false} ExecCommutes(m: Memory, x: Op, y: Op)
    requires Independent(x, y)
    ensures Same(Exec(Exec(m, y), x), Exec(Exec(m, x), y))
  {
    forall loc ensures Exec(Exec(m, y), x)(loc) == Exec(Exec(m, x), y)(loc) {
      if Writes(x, loc) {
        assert Reads(x, Source(x, loc));
      } else if Writes(y, loc) {
        assert Reads(y, Source(y, loc));
      }
    }
  }

  /** An operation independent of a whole queue can run before or after it. */
  lemma {:induction false} RunCommutes(m: Memory, x: Op, b: seq<Op>)
    requires forall j :: 0 <= j < |b| ==> Independent(x, b[j])
    ensures Same(Exec(Run(m, b), x), Run(Exec(m, x), b))
  {
    if b != [] {
      var n := |b| - 1;
      RunCommutes(m, x, b[..n]);
      ExecCommutes(Run(m, b[..n]), x, b[n]);
      ExecSame(Exec(Run(m, b[..n]), x), Run(Exec(m, x), b[..n]), b[n]);
    }
  }

  /** However the two streams interleave, independent queues leave the memory that running
      one after the other leaves. */
  lemma {:induction false} InterleavingsAgree(m: Memory, a: seq<Op>, b: seq<Op>, c: seq<Op>)
    requires AllIndependent(a, b) && Interleaves(a, b, c)
    ensures Same(Run(m, c), Run(Run(m, a), b))
    decreases |c|
  {
    if c != [] {
      var last, rest := c[|c| - 1], c[..|c| - 1];
      if a != [] && a[|a| - 1] == last && Interleaves(a[..|a| - 1], b, rest) {
        InterleavingsAgree(m, a[..|a| - 1], b, rest);
        ExecSame(Run(m, rest), Run(Run(m, a[..|a| - 1]), b), last);
        RunCommutes(Run(m, a[..|a| - 1]), last, b);
      } else {
        InterleavingsAgree(m, a, b[..|b| - 1], rest);
        ExecSame(Run(m, rest), Run(Run(m, a), b[..|b| - 1]), last);
      }
    }
  }

  /** The queue a may run as a whole between any two elements of b. */
  lemma {:induction false} SomeInterleaving<T>(a: seq<T>, b: seq<T>, n: nat)
    requires n <= |b|
    ensures Interleaves(a, b, b[..n] + a + b[n..])
    decreases |a| + |b|
  {
    var c := b[..n] + a + b[n..];
    if n < |b| {
      var rest := b[..|b| - 1];
      SomeInterleaving(a, rest, n);
      assert c[..|c| - 1] == rest[..n] + a + rest[n..];
    } else if a != [] {
      SomeInterleaving(a[..|a| - 1], b, n);
      assert c[..|c| - 1] == b[..n] + a[..|a| - 1] + b[n..];
    } else if b != [] {
      SomeInterleaving(a, b[..|b| - 1], n - 1);
      assert c == b && c[..|c| - 1] == b[..|b| - 1][..n - 1] + a + b[..|b| - 1][n - 1..];
    }
  }

  /** An interleaving with a queue of one element: the element runs after some prefix. */
  lemma {:induction false} SingleInterleaves<T>(x: T, b: seq<T>, c: seq<T>) returns (n: nat)
    requires Interleaves([x], b, c)
    ensures n <= |b| && c == b[..n] + [x] + b[n..]
    decreases |c|
  {
    var rest := c[..|c| - 1];
    if b != [] && b[|b| - 1] == c[|c| - 1] && Interleaves([x], b[..|b| - 1], rest) {
      n := SingleInterleaves(x, b[..|b| - 1], rest);
      assert c == rest + [b[|b| - 1]];
    } else {
      assert Interleaves([], b, rest) by { assert [x][..0] == []; }
      NothingInterleaves(b, rest);
      n := |b|;
      assert c == b + [x];
    }
  }

  lemma {:induction false} NothingInterleaves<T>(b: seq<T>, c: seq<T>)
    requires Interleaves([], b, c)
    ensures c == b
  {
    if c != [] {
      NothingInterleaves(b[..|b| - 1], c[..|c| - 1]);
    }
  }
}
