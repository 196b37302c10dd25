/** A store stream that waits for the compute of the layers it stores. */
module ComputeStreams {
  import opened Streams

  /** The compute stream of a forward pass: one operation for each layer, in order. */
  ghost predicate ForwardPass(compute: seq<Op>) {
    forall l :: 0 <= l < |compute| ==> compute[l].Compute? && compute[l].layer == l
  }

  /** What a slot holds once layers `done` and later have been computed. */
  function Computed(m: Memory, compute: seq<Op>, done: nat, layer: nat, slot: nat): KV
    requires forall l :: 0 <= l < |compute| ==> compute[l].Compute?
  {
    if done <= layer < |compute| && slot in compute[layer].written then compute[layer].written[slot] else m(Page(layer, slot))
  }

  predicate Stores(op: Op) {
    op.Await? || op.Gather? || op.CopyOut?
  }

  ghost predicate StoresOnly(ops: seq<Op>) {
    forall i :: 0 <= i < |ops| ==> Stores(ops[i])
  }

  /** From `base` on, each gather of a layer comes after a wait for that layer's compute. */
  ghost predicate Guarded(ops: seq<Op>, base: nat) {
    forall i :: base <= i < |ops| && ops[i].Gather? ==> GuardedAt(ops, base, i)
  }

  ghost predicate GuardedAt(ops: seq<Op>, base: nat, i: nat)
    requires i < |ops| && ops[i].Gather?
  {
    exists k: nat :: base <= k < i && ops[k].Await? && ops[k].layers > ops[i].layer
  }

  /** c is a run of layers `done` .. a of the compute stream and of the first s operations of
      the store stream. From `base` on, a wait of the store stream passes only once as many
      layers are computed as it asks for; what is queued before waits for earlier passes. */
  ghost predicate Runs(compute: seq<Op>, done: nat, a: nat, store: seq<Op>, base: nat, s: nat, c: seq<Op>)
    requires done <= a <= |compute| && s <= |store|
    decreases |c|
  {
    if c == [] then a == done && s == 0
    else
      var last, rest := c[|c| - 1], c[..|c| - 1];
      || (a > done && last == compute[a - 1] && Runs(compute, done, a - 1, store, base, s, rest))
      || (s > 0 && last == store[s - 1] && Passes(last, s - 1, base, a) && Runs(compute, done, a, store, base, s - 1, rest))
  }

  predicate Passes(op: Op, i: nat, base: nat, a: nat) {
    op.Await? && i >= base ==> op.layers <= a
  }

  lemma ExecCompute(m: Memory, op: Op, layer: nat, slot: nat)
    requires op.Compute?
    ensures Exec(m, op)(Page(layer, slot))
         == if op.layer == layer && slot in op.written then op.written[slot] else m(Page(layer, slot))
  {
    assert Writes(op, Page(layer, slot)) <==> op.layer == layer && slot in op.written;
  }

  /** Paged memory is what the layers computed so far have made of it. */
  lemma {:induction false} PagesFollow(
      m: Memory, compute: seq<Op>, done: nat, a: nat, store: seq<Op>, base: nat, s: nat, c: seq<Op>, layer: nat, slot: nat)
    requires done <= a <= |compute| && s <= |store| && ForwardPass(compute) && StoresOnly(store)
    requires Runs(compute, done, a, store, base, s, c)
    ensures Run(m, c)(Page(layer, slot)) == if layer < a then Computed(m, compute, done, layer, slot) else m(Page(layer, slot))
    decreases |c|
  {
    if c != [] {
      var last, rest := c[|c| - 1], c[..|c| - 1];
      if a > done && last == compute[a - 1] && Runs(compute, done, a - 1, store, base, s, rest) {
        PagesFollow(m, compute, done, a - 1, store, base, s, rest, layer, slot);
        ExecCompute(Run(m, rest), last, layer, slot);
      } else {
        PagesFollow(m, compute, done, a, store, base, s - 1, rest, layer, slot);
        assert Stores(last) && !Writes(last, Page(layer, slot));
      }
    }
  }

  lemma {:induction false} WaitPassed(compute: seq<Op>, done: nat, a: nat, store: seq<Op>, base: nat, s: nat, c: seq<Op>, i: nat)
    requires done <= a <= |compute| && base <= i < s <= |store| && store[i].Await?
    requires Runs(compute, done, a, store, base, s, c)
    ensures store[i].layers <= a
    decreases |c|
  {
    var last, rest := c[|c| - 1], c[..|c| - 1];
    if a > done && last == compute[a - 1] && Runs(compute, done, a - 1, store, base, s, rest) {
      WaitPassed(compute, done, a - 1, store, base, s, rest, i);
    } else if i < s - 1 {
      WaitPassed(compute, done, a, store, base, s - 1, rest, i);
    }
  }

  /** Pages from one memory, everything else from another. */
  function WithPages(m: Memory, compute: seq<Op>, done: nat, others: Memory): Memory
    requires forall l :: 0 <= l < |compute| ==> compute[l].Compute?
  {
    (loc: Loc) => if loc.Page? then Computed(m, compute, done, loc.layer, loc.slot) else others(loc)
  }

  ghost predicate SameOffPages(a: Memory, b: Memory) {
    forall loc: Loc :: !loc.Page? ==> a(loc) == b(loc)
  }

  lemma {:induction false} StoresKeepPages(m: Memory, ops: seq<Op>, layer: nat, slot: nat)
    requires StoresOnly(ops)
    ensures Run(m, ops)(Page(layer, slot)) == m(Page(layer, slot))
  {
    forall i | 0 <= i < |ops| ensures !Writes(ops[i], Page(layer, slot)) {
      assert Stores(ops[i]);
    }
    RunKeeps(m, ops, Page(layer, slot));
  }

  /** One store operation does the same to two memories that agree off the pages, and on what
      it gathers. */
  lemma StoreAgrees(a: Memory, b: Memory, op: Op)
    requires Stores(op) && SameOffPages(a, b)
    requires op.Gather? ==> forall slot :: a(Page(op.layer, slot)) == b(Page(op.layer, slot))
    ensures SameOffPages(Exec(a, op), Exec(b, op))
  {
    forall loc: Loc | !loc.Page? ensures Exec(a, op)(loc) == Exec(b, op)(loc) {
      assert Writes(op, loc) ==> a(Source(op, loc)) == b(Source(op, loc));
    }
  }

  lemma ComputeKeepsOthers(a: Memory, op: Op)
    requires op.Compute?
    ensures SameOffPages(Exec(a, op), a)
  {
    forall loc: Loc | !loc.Page? ensures Exec(a, op)(loc) == a(loc) {
      assert !Writes(op, loc);
    }
  }

  /** However compute and the store stream run, guarded store operations leave what they would
      leave if every layer had been computed before. */
  lemma {:induction false} StoreSees(m: Memory, compute: seq<Op>, done: nat, a: nat, store: seq<Op>, base: nat, s: nat, c: seq<Op>)
    returns (others: Memory)
    requires done <= a <= |compute| && base <= s <= |store| && ForwardPass(compute) && StoresOnly(store) && Guarded(store, base)
    requires Runs(compute, done, a, store, base, s, c)
    ensures SameOffPages(Run(m, c), Run(WithPages(m, compute, done, others), store[base..s]))
    ensures base == 0 ==> SameOffPages(others, m)
    decreases |c|
  {
    hide Guarded, StoresOnly, ForwardPass, Computed;
    if c == [] {
      others := m;
      assert store[base..s] == [];
    } else {
      var last, rest := c[|c| - 1], c[..|c| - 1];
      if a > done && last == compute[a - 1] && Runs(compute, done, a - 1, store, base, s, rest) {
        others := StoreSees(m, compute, done, a - 1, store, base, s, rest);
        assert last.Compute? by { LayerOf(compute, a - 1); }
        ComputeKeepsOthers(Run(m, rest), last);
      } else if s > base {
        others := StoreSees(m, compute, done, a, store, base, s - 1, rest);
        StoreSeesNext(m, compute, done, a, store, base, s, rest, others);
      } else {
        others := Run(m, c);
        assert store[base..s] == [];
        assert base > 0;
      }
    }
  }

  lemma LayerOf(compute: seq<Op>, l: nat)
    requires ForwardPass(compute) && l < |compute|
    ensures compute[l].Compute? && compute[l].layer == l
  {
  }

  lemma {:induction false} StoreSeesNext(
      m: Memory, compute: seq<Op>, done: nat, a: nat, store: seq<Op>, base: nat, s: nat, rest: seq<Op>, others: Memory)
    requires done <= a <= |compute| && base < s <= |store| && ForwardPass(compute) && StoresOnly(store) && Guarded(store, base)
    requires Runs(compute, done, a, store, base, s - 1, rest)
    requires SameOffPages(Run(m, rest), Run(WithPages(m, compute, done, others), store[base..s - 1]))
    ensures SameOffPages(Exec(Run(m, rest), store[s - 1]), Run(WithPages(m, compute, done, others), store[base..s]))
  {
    hide Run, Exec, Runs, SameOffPages, Computed;
    var view, op := WithPages(m, compute, done, others), store[s - 1];
    assert Stores(op);
    RunLast(view, store[base..s - 1], op);
    assert store[base..s] == store[base..s - 1] + [op];
    if op.Gather? {
      assert GuardedAt(store, base, s - 1);
      var k: nat :| base <= k < s - 1 && store[k].Await? && store[k].layers > op.layer;
      WaitPassed(compute, done, a, store, base, s - 1, rest, k);
      forall slot ensures Run(m, rest)(Page(op.layer, slot)) == Run(view, store[base..s - 1])(Page(op.layer, slot)) {
        PagesFollow(m, compute, done, a, store, base, s - 1, rest, op.layer, slot);
        StoresKeepPages(view, store[base..s - 1], op.layer, slot);
      }
    }
    StoreAgrees(Run(m, rest), Run(view, store[base..s - 1]), op);
  }

  /** Computing first and storing afterwards is a run. */
  lemma {:induction false} ComputeThenStore(compute: seq<Op>, done: nat, a: nat, store: seq<Op>, base: nat, s: nat)
    requires done <= a <= |compute| && s <= |store|
    requires forall i :: base <= i < s && store[i].Await? ==> store[i].layers <= a
    ensures Runs(compute, done, a, store, base, s, compute[done..a] + store[..s])
    decreases s, a
  {
    var c := compute[done..a] + store[..s];
    if s > 0 {
      ComputeThenStore(compute, done, a, store, base, s - 1);
      assert c[..|c| - 1] == compute[done..a] + store[..s - 1];
    } else if a > done {
      ComputeThenStore(compute, done, a - 1, store, base, s);
      assert c[..|c| - 1] == compute[done..a - 1] + store[..s];
    }
  }

  lemma NothingGuarded()
    ensures Guarded([], 0) && StoresOnly([])
  {
  }

  lemma ForwardIsCompute(compute: seq<Op>)
    requires ForwardPass(compute)
    ensures forall l :: 0 <= l < |compute| ==> compute[l].Compute?
  {
  }

  lemma StoresConcat(a: seq<Op>, b: seq<Op>)
    requires StoresOnly(a) && StoresOnly(b)
    ensures StoresOnly(a + b)
  {
  }

  lemma GuardedConcat(a: seq<Op>, b: seq<Op>)
    requires Guarded(a, 0) && Guarded(b, 0)
    ensures Guarded(a + b, 0)
  {
    forall i | 0 <= i < |a + b| && (a + b)[i].Gather? ensures GuardedAt(a + b, 0, i) {
      if i < |a| {
        assert GuardedAt(a, 0, i);
        var k: nat :| k < i && a[k].Await? && a[k].layers > a[i].layer;
        assert (a + b)[k] == a[k];
      } else {
        assert GuardedAt(b, 0, i - |a|);
        var k: nat :| k < i - |a| && b[k].Await? && b[k].layers > b[i - |a|].layer;
        assert (a + b)[|a| + k] == b[k];
      }
    }
  }

  /** Queueing behind other operations keeps the waits. */
  lemma GuardedBehind(base: seq<Op>, ops: seq<Op>)
    requires Guarded(ops, 0)
    ensures Guarded(base + ops, |base|)
  {
    forall i | |base| <= i < |base + ops| && (base + ops)[i].Gather? ensures GuardedAt(base + ops, |base|, i) {
      assert GuardedAt(ops, 0, i - |base|);
      var k: nat :| k < i - |base| && ops[k].Await? && ops[k].layers > ops[i - |base|].layer;
      assert (base + ops)[|base| + k] == ops[k];
    }
  }
}
