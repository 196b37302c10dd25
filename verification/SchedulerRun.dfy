/** Whole runs of one request: the tracker refines vLLM's own state, and the saves it
    emits cover every token it counts as saved. */
module SchedulerRun {
  import opened Results
  import opened BlockTable
  import opened PagedSlots
  import opened RequestTracker
  import TensorIndex

  /** vLLM's own record of the request after a scheduling step, what its first step fixed, and
      whether a later step scheduled exactly one token. */
  datatype Truth = Truth(
    all: seq<int>, computed: nat, scheduled: nat, table: seq<nat>, promptLen: nat, skips: bool, decoding: bool)

  datatype Event =
    | New(prompt: seq<int>, computed: nat, scheduled: nat, blocks: BlockUpdate, table: seq<nat>,
          load: Option<LoadSpec>, skipSave: bool, requestSkip: bool)
    | Again(all: seq<int>, computed: nat, scheduled: nat, blocks: BlockUpdate, added: seq<nat>, load: Option<LoadSpec>)
    | Resumed(all: seq<int>, computed: nat, scheduled: nat, blocks: BlockUpdate, table: seq<nat>, spec: LoadSpec)

  function Hits(load: Option<LoadSpec>): nat {
    if load.Some? then load.value.lmcacheCached else 0
  }

  /** The tracker as handed to metadata building, after the step of a scheduled request. */
  function Refreshed(v: View, e: Event, c: Config): View
    requires !e.New?
  {
    var back := RolledBack(v, e.computed, e.all, c.blockSize);
    var newTokens := Slice(e.all, e.computed, e.scheduled);
    if e.Again? then Updated(back, newTokens, e.blocks, false, Hits(e.load), if e.load.Some? then e.load.value.vllmCached else 0, None)
    else Updated(back, newTokens, e.blocks, true, e.spec.lmcacheCached, e.spec.vllmCached, Some(e.all))
  }

  function LoadOf(e: Event): Option<LoadSpec> {
    if e.Resumed? then Some(e.spec) else e.load
  }

  // ---- worker side ----

  /** Arguments of one `lmcache_engine.store` call. */
  datatype Store = Store(tokens: seq<int>, mask: seq<bool>, slots: seq<nat>, offset: nat)

  /** What `wait_for_save` does with one request (role "both", no blending). */
  function StoreOf(meta: ReqMeta, chunk: nat): Option<Store>
    requires chunk > 0
  {
    if !meta.save.canSave || |meta.slots| != |meta.tokens| || meta.save.skipLeading == |meta.tokens| then None
    else
      var offset := AlignDown(meta.save.skipLeading, chunk);
      var n := if meta.lastPrefill then |meta.tokens| else AlignDown(|meta.tokens|, chunk);
      Some(Store(meta.tokens[..n], seq(n, i => i >= offset), meta.slots[..n], offset))
  }

  function AllStores(metas: seq<ReqMeta>, chunk: nat): seq<Store>
    requires chunk > 0
  {
    if metas == [] then [] else
      var last := StoreOf(metas[|metas| - 1], chunk);
      AllStores(metas[..|metas| - 1], chunk) + if last.Some? then [last.value] else []
  }

  /** Every request's store is issued, in order. */
  lemma {:induction false} AllStoresJoin(a: seq<ReqMeta>, b: seq<ReqMeta>, chunk: nat)
    requires chunk > 0
    ensures AllStores(a + b, chunk) == AllStores(a, chunk) + AllStores(b, chunk)
  {
    hide StoreOf;
    if b == [] {
      assert a + b == a;
    } else {
      var n := |b| - 1;
      AllStoresJoin(a, b[..n], chunk);
      assert (a + b)[..|a + b| - 1] == a + b[..n] && (a + b)[|a + b| - 1] == b[n];
    }
  }

  lemma OneStore(meta: ReqMeta, chunk: nat)
    requires chunk > 0
    ensures AllStores([meta], chunk) == if StoreOf(meta, chunk).Some? then [StoreOf(meta, chunk).value] else []
  {
    assert [meta][..0] == [];
    assert AllStores([], chunk) == [];
  }

  /** The save spec after the call: on the last pipeline rank it counts what was stored. */
  function SpecAfter(meta: ReqMeta, chunk: nat, lastRank: bool): SaveSpec
    requires chunk > 0
  {
    if lastRank && StoreOf(meta, chunk).Some? then meta.save.(skipLeading := |StoreOf(meta, chunk).value.tokens|) else meta.save
  }

  /** On the last rank a request whose whole metadata was stored would not be stored again; on
      the other ranks its save spec is left alone. */
  lemma StoredOnce(meta: ReqMeta, chunk: nat)
    requires chunk > 0 && StoreOf(meta, chunk).Some? && StoreOf(meta, chunk).value.tokens == meta.tokens
    ensures StoreOf(meta.(save := SpecAfter(meta, chunk, true)), chunk) == None
    ensures SpecAfter(meta, chunk, true).skipLeading == |meta.tokens| && SpecAfter(meta, chunk, true).canSave
    ensures SpecAfter(meta, chunk, false) == meta.save
  {
  }

  method WaitForSave(metas: seq<ReqMeta>, chunk: nat, lastRank: bool) returns (stores: seq<Store>, specs: seq<SaveSpec>)
    requires chunk > 0
    ensures stores == AllStores(metas, chunk)
    ensures |specs| == |metas| && forall i :: 0 <= i < |metas| ==> specs[i] == SpecAfter(metas[i], chunk, lastRank)
  {
    stores, specs := [], [];
    for i := 0 to |metas|
      invariant stores == AllStores(metas[..i], chunk)
      invariant |specs| == i && forall j :: 0 <= j < i ==> specs[j] == SpecAfter(metas[j], chunk, lastRank)
    {
      var meta := metas[i];
      assert metas[..i + 1][..i] == metas[..i];
      if !meta.save.canSave || |meta.slots| != |meta.tokens| || meta.save.skipLeading == |meta.tokens| {
        specs := specs + [meta.save];
        continue;
      }
      var tokens, slots := meta.tokens, meta.slots;
      var offset := AlignDown(meta.save.skipLeading, chunk);
      var mask := seq(|tokens|, j => j >= offset);
      if !meta.lastPrefill {
        var aligned := AlignDown(|tokens|, chunk);
        tokens, mask, slots := tokens[..aligned], mask[..aligned], slots[..aligned];
      }
      assert tokens == StoreOf(meta, chunk).value.tokens && slots == StoreOf(meta, chunk).value.slots;
      assert mask == StoreOf(meta, chunk).value.mask;
      stores := stores + [Store(tokens, mask, slots, offset)];
      specs := specs + [if lastRank then meta.save.(skipLeading := |tokens|) else meta.save];
    }
    assert metas[..|metas|] == metas;
  }

  // ---- facts about one emission ----

  /** A save is due: nothing forbids it, and unless nothing was saved yet, a chunk boundary
      lies beyond the frontier and inside the tokens. */
  ghost predicate SaveDue(v: View, c: Config)
    requires c.chunk > 0
  {
    && !v.skipSave && !v.requestSkip && (v.decode ==> c.saveDecode)
    && (v.saved == 0 || exists m: nat :: v.saved < m <= |v.tokens| && m % c.chunk == 0)
  }

  /** n tokens are everything, once the prompt is complete and partial chunks are kept, and
      otherwise all whole chunks. */
  ghost predicate WholePart(v: View, c: Config, n: nat)
    requires c.chunk > 0
  {
    if |v.tokens| >= v.promptLen && !c.discardPartial then n == |v.tokens|
    else n <= |v.tokens| < n + c.chunk && n % c.chunk == 0
  }

  lemma SaveDueExact(v: View, c: Config)
    requires Legal(c)
    ensures SaveDue(v, c) <==> !SkipsSave(v, c)
  {
    var next := NextBoundary(v.saved, c.chunk);
    if |v.tokens| >= next {
      assert v.saved < next <= |v.tokens| && next % c.chunk == 0;
    }
    forall m: nat | v.saved < m <= |v.tokens| && m % c.chunk == 0 ensures |v.tokens| >= next {
      BoundaryIsNext(v.saved, m, c.chunk);
    }
  }

  /** No chunk boundary lies between n and the next one. */
  lemma BoundaryIsNext(n: nat, m: nat, chunk: nat)
    requires chunk > 0 && n < m && m % chunk == 0
    ensures NextBoundary(n, chunk) <= m
  {
    if m < NextBoundary(n, chunk) {
      TensorIndex.MultiplesApart(m, NextBoundary(n, chunk), chunk);
    }
  }

  /** What a step emits: metadata exactly when a save is due or something is to be loaded, for
      the whole part of the tokens, with their slots, the frontier to skip and the load spec;
      and the frontier moves to its end exactly when the save is due. */
  lemma EmissionExact(v: View, c: Config, load: Option<LoadSpec>)
    requires Legal(c) && AllIds(v.table)
    ensures
      var (after, meta) := Emitted(v, c, load);
      && (meta.Some? <==> SaveDue(v, c) || load.Some?)
      && (if SaveDue(v, c) then WholePart(v, c, after.saved) else after.saved == v.saved)
      && (meta.Some? ==>
            && meta.value.tokens <= v.tokens && WholePart(v, c, |meta.value.tokens|)
            && meta.value.slots == SlotMapping(IdsOf(v.table), c.blockSize, |meta.value.tokens|)
            && (meta.value.lastPrefill <==> |v.tokens| >= v.promptLen)
            && meta.value.save == SaveSpec(v.saved, SaveDue(v, c)) && meta.value.load == load)
  {
    SaveDueExact(v, c);
  }

  /** After any step of a request that may save, no whole chunk is left behind the frontier. */
  lemma NoWholeChunkLeft(v: View, c: Config, load: Option<LoadSpec>)
    requires Legal(c) && AllIds(v.table) && !v.skipSave && !v.requestSkip && (v.decode ==> c.saveDecode)
    ensures |v.tokens| < Emitted(v, c, load).0.saved + c.chunk
  {
    EmissionExact(v, c, load);
  }

  /** A save after a non-zero frontier reaches at least the next chunk boundary. */
  lemma EmissionAdvances(v: View, c: Config, load: Option<LoadSpec>)
    requires Legal(c) && AllIds(v.table) && !SkipsSave(v, c) && v.saved > 0
    ensures Emitted(v, c, load).0.saved >= NextBoundary(v.saved, c.chunk) > v.saved
  {
    MultipleFits(NextBoundary(v.saved, c.chunk), |v.tokens|, c.chunk);
  }

  /** The worker stores exactly the tokens from the last chunk boundary at or below the
      frontier up to the end of the metadata: its truncation never drops a token, and the
      mask is a chunk-aligned block of Falses followed by Trues. */
  lemma StoreIsWhole(v: View, c: Config, load: Option<LoadSpec>)
    requires Legal(c) && AllIds(v.table) && !SkipsSave(v, c)
    requires |v.tokens| <= |v.table| * c.blockSize
    ensures
      var (after, meta) := Emitted(v, c, load);
      && meta.Some?
      && (v.saved == after.saved ==> StoreOf(meta.value, c.chunk) == None)
      && (v.saved != after.saved ==>
            StoreOf(meta.value, c.chunk) == Some(Store(
              v.tokens[..after.saved],
              seq(after.saved, i => i >= AlignDown(v.saved, c.chunk)),
              SlotMapping(IdsOf(v.table), c.blockSize, after.saved),
              AlignDown(v.saved, c.chunk))))
  {
    var (after, meta) := Emitted(v, c, load);
    if v.saved > 0 {
      EmissionAdvances(v, c, load);
    }
    var n := after.saved;
    assert meta.value.tokens[..n] == v.tokens[..n] && meta.value.slots[..n] == meta.value.slots;
    if !meta.value.lastPrefill {
      AlignDownIdempotent(|v.tokens|, c.chunk);
    }
  }

  lemma AlignDownIdempotent(n: nat, chunk: nat)
    requires chunk > 0
    ensures AlignDown(AlignDown(n, chunk), chunk) == AlignDown(n, chunk)
  {
    TensorIndex.DivMod(n / chunk, 0, chunk);
  }

  /** Metadata of a request that loads a whole number of chunks holds all its tokens. */
  lemma LoadIsCovered(v: View, c: Config, spec: LoadSpec)
    requires Legal(c) && AllIds(v.table)
    requires spec.lmcacheCached % c.chunk == 0 && spec.lmcacheCached <= |v.tokens|
    ensures Emitted(v, c, Some(spec)).1.Some?
    ensures spec.lmcacheCached <= |Emitted(v, c, Some(spec)).1.value.tokens|
    ensures Emitted(v, c, Some(spec)).1.value.tokens[..spec.lmcacheCached] == v.tokens[..spec.lmcacheCached]
  {
    MultipleFits(spec.lmcacheCached, |v.tokens|, c.chunk);
  }

  // ---- runs ----

  /** Token positions lo..hi of the request that were handed to `store` or reported as hits. */
  datatype Interval = Interval(lo: nat, hi: nat)

  ghost predicate Held(stored: seq<Interval>, p: nat) {
    exists i :: 0 <= i < |stored| && stored[i].lo <= p < stored[i].hi
  }

  ghost predicate HeldBelow(stored: seq<Interval>, n: nat) {
    forall p: nat :: p < n ==> Held(stored, p)
  }

  /** Adding an interval that starts at or below n extends the held prefix to its end. */
  lemma HeldGrows(stored: seq<Interval>, n: nat, more: Interval)
    requires HeldBelow(stored, n) && more.lo <= n
    ensures HeldBelow(stored + [more], Max(n, more.hi))
  {
    var all := stored + [more];
    forall p: nat | p < Max(n, more.hi) ensures Held(all, p) {
      if p < n {
        assert Held(stored, p);
        var i :| 0 <= i < |stored| && stored[i].lo <= p < stored[i].hi;
        assert all[i] == stored[i];
      } else {
        assert all[|stored|] == more;
      }
    }
  }

  /** Tracker, truth, the parts of the request that are covered, and the hits of the last
      lookup (0 once vLLM rolled the request back after it). */
  datatype World = Idle | Live(view: View, truth: Truth, stored: seq<Interval>, lookup: nat)

  ghost predicate Covers(table: seq<nat>, tokens: nat, c: Config) {
    tokens <= |table| * c.blockSize
  }

  ghost predicate Carries(u: BlockUpdate, table: seq<nat>) {
    (table != [] && u == Listed(Ids(table))) || u == Grouped([table])
  }

  /** What the scheduler promises: tokens are only appended, no more tokens are reported
      computed than are tracked, and the table has distinct ids and a slot for every token.
      A lookup may report any number of hits. */
  ghost predicate Allowed(w: World, e: Event, c: Config) {
    match e
    case New(prompt, computed, scheduled, blocks, table, load, _, _) =>
      && w.Idle?
      && Distinct(table) && Carries(blocks, table)
      && Covers(table, Min(computed + scheduled, |prompt|), c)
    case Again(all, computed, scheduled, blocks, added, load) =>
      && w.Live? && w.truth.all <= all
      && computed <= |w.view.tokens|
      && Distinct(w.truth.table + added) && Announces(blocks, w.truth.table, added)
      && Covers(w.truth.table + added, Min(computed + scheduled, |all|), c)
    case Resumed(all, computed, scheduled, blocks, table, spec) =>
      && w.Live? && w.truth.all <= all
      && computed == Max(spec.lmcacheCached, spec.vllmCached)
      && Distinct(table) && Carries(blocks, table)
      && Covers(table, Min(computed + scheduled, |all|), c)
  }

  ghost function TruthAfter(w: World, e: Event): Truth
    requires w.Idle? <==> e.New?
  {
    match e
    case New(prompt, computed, scheduled, _, table, _, skipSave, requestSkip) =>
      Truth(prompt, computed, scheduled, table, |prompt|, skipSave || requestSkip, false)
    case Again(all, computed, scheduled, _, added, _) =>
      w.truth.(all := all, computed := computed, scheduled := scheduled, table := w.truth.table + added,
               decoding := w.truth.decoding || Min(computed + scheduled, |all|) == computed + 1)
    case Resumed(all, computed, scheduled, _, table, _) =>
      w.truth.(all := all, computed := computed, scheduled := scheduled, table := table,
               decoding := w.truth.decoding || Min(computed + scheduled, |all|) == computed + 1)
  }

  ghost function Ready(w: World, e: Event, c: Config): View
    requires Allowed(w, e, c)
  {
    if e.New? then Started(e.prompt, e.blocks, e.computed + e.scheduled, Hits(e.load), e.skipSave, e.requestSkip)
    else Refreshed(w.view, e, c)
  }

  ghost function StoredBy(meta: Option<ReqMeta>, c: Config): seq<Interval>
    requires Legal(c)
  {
    if meta.Some? && StoreOf(meta.value, c.chunk).Some?
    then var s := StoreOf(meta.value, c.chunk).value; [Interval(s.offset, |s.tokens|)]
    else []
  }

  /** Cached positions known before the step's own save: earlier ones and the hits that a
      fresh lookup reported. */
  ghost function Known(w: World, e: Event): seq<Interval>
    requires w.Idle? <==> e.New?
  {
    match e
    case New(_, _, _, _, _, load, _, _) => [Interval(0, Hits(load))]
    case Again(_, _, _, _, _, _) => w.stored
    case Resumed(_, _, _, _, _, spec) => w.stored + [Interval(0, spec.lmcacheCached)]
  }

  ghost function LookupAfter(w: World, e: Event): nat
    requires w.Idle? <==> e.New?
  {
    match e
    case New(_, _, _, _, _, load, _, _) => Hits(load)
    case Again(_, computed, _, _, _, _) => if computed < |w.view.tokens| then 0 else w.lookup
    case Resumed(_, _, _, _, _, spec) => spec.lmcacheCached
  }

  ghost function Next(w: World, e: Event, c: Config): World
    requires Legal(c) && Allowed(w, e, c) && AllIds(Ready(w, e, c).table)
  {
    var (view, meta) := Emitted(Ready(w, e, c), c, LoadOf(e));
    Live(view, TruthAfter(w, e), Known(w, e) + StoredBy(meta, c), LookupAfter(w, e))
  }

  ghost function Intervals(stores: seq<Store>): seq<Interval> {
    seq(|stores|, i requires 0 <= i < |stores| => Interval(stores[i].offset, |stores[i].tokens|))
  }

  /** The world when the step left this tracker and handed this metadata to the worker. */
  ghost function Landed(w: World, e: Event, view: View, metas: seq<ReqMeta>, c: Config): World
    requires Legal(c) && (w.Idle? <==> e.New?)
  {
    Live(view, TruthAfter(w, e), Known(w, e) + Intervals(AllStores(metas, c.chunk)), LookupAfter(w, e))
  }

  lemma LandedIsNext(w: World, e: Event, c: Config, metas: seq<ReqMeta>)
    requires Legal(c) && Allowed(w, e, c) && AllIds(Ready(w, e, c).table)
    requires
      var meta := Emitted(Ready(w, e, c), c, LoadOf(e)).1;
      metas == if meta.Some? then [meta.value] else []
    ensures Landed(w, e, Emitted(Ready(w, e, c), c, LoadOf(e)).0, metas, c) == Next(w, e, c)
  {
    var meta := Emitted(Ready(w, e, c), c, LoadOf(e)).1;
    if meta.Some? { OneStore(meta.value, c.chunk); }
    assert Intervals(AllStores(metas, c.chunk)) == StoredBy(meta, c);
  }

  ghost predicate Refines(v: View, t: Truth, c: Config) {
    && v.tokens == Take(t.all, t.computed + t.scheduled)
    && v.table == Ids(t.table)
    && |v.tokens| <= |t.table| * c.blockSize
    && v.promptLen == t.promptLen && (v.skipSave || v.requestSkip <==> t.skips) && v.decode == t.decoding
  }

  /** The frontier is inside the tokens exactly when the last lookup's hits are; until then
      it stays where the lookup put it. */
  ghost predicate FrontierBound(v: View, lookup: nat) {
    if lookup <= |v.tokens| then v.saved <= |v.tokens| else v.saved == lookup
  }

  ghost predicate Invariant(w: World, c: Config) {
    w.Live? ==>
      && Refines(w.view, w.truth, c)
      && FrontierBound(w.view, w.lookup)
      && HeldBelow(w.stored, w.view.saved)
  }

  /** Where the frontier stands before a step emits anything: at the hits of a fresh lookup,
      or where it was, moved back to the computed tokens by a rollback. */
  ghost function Frontier(w: World, e: Event): nat
    requires w.Idle? <==> e.New?
  {
    match e
    case New(_, _, _, _, _, load, _, _) => Hits(load)
    case Again(_, computed, _, _, _, _) => if computed < |w.view.tokens| then Min(w.view.saved, computed) else w.view.saved
    case Resumed(_, _, _, _, _, spec) => spec.lmcacheCached
  }

  lemma AgainRefines(w: World, e: Event, c: Config)
    requires Legal(c) && Invariant(w, c) && Allowed(w, e, c) && e.Again?
    ensures Refines(Ready(w, e, c), TruthAfter(w, e), c)
    ensures Ready(w, e, c).saved == Frontier(w, e) && FrontierBound(Ready(w, e, c), LookupAfter(w, e))
  {
    var back := RolledBack(w.view, e.computed, e.all, c.blockSize);
    assert back.tokens == Take(e.all, e.computed);
    TakeSlice(e.all, e.computed, e.scheduled);
    ShadowStep(w.truth.table, e.added, e.blocks);
  }

  lemma ResumedRefines(w: World, e: Event, c: Config)
    requires Legal(c) && Invariant(w, c) && Allowed(w, e, c) && e.Resumed?
    ensures Refines(Ready(w, e, c), TruthAfter(w, e), c)
    ensures Ready(w, e, c).saved == Frontier(w, e) && FrontierBound(Ready(w, e, c), LookupAfter(w, e))
  {
    FlatOfIds(e.table);
    TakeSlice(e.all, e.computed, e.scheduled);
  }

  /** The refreshed tracker agrees with vLLM before anything is emitted. */
  lemma ReadyRefines(w: World, e: Event, c: Config)
    requires Legal(c) && Invariant(w, c) && Allowed(w, e, c)
    ensures Refines(Ready(w, e, c), TruthAfter(w, e), c)
    ensures Ready(w, e, c).saved == Frontier(w, e) && FrontierBound(Ready(w, e, c), LookupAfter(w, e))
    ensures HeldBelow(Known(w, e), Frontier(w, e))
  {
    match e
    case New(_, _, _, _, _, load, _, _) =>
      HeldGrows([], 0, Interval(0, Hits(load)));
      assert [] + [Interval(0, Hits(load))] == [Interval(0, Hits(load))];
    case Again(_, _, _, _, _, _) => AgainRefines(w, e, c);
    case Resumed(_, _, _, _, _, spec) =>
      ResumedRefines(w, e, c);
      HeldGrows(w.stored, 0, Interval(0, spec.lmcacheCached));
  }

  /** An emission keeps everything below the frontier covered, and never takes the
      frontier past the tokens. */
  lemma EmissionHeld(v: View, c: Config, load: Option<LoadSpec>, stored: seq<Interval>)
    requires Legal(c) && AllIds(v.table) && |v.tokens| <= |v.table| * c.blockSize
    requires HeldBelow(stored, v.saved)
    ensures
      var (after, meta) := Emitted(v, c, load);
      && after == v.(saved := after.saved)
      && (if v.saved <= |v.tokens| then after.saved <= |v.tokens| else after.saved == v.saved)
      && HeldBelow(stored + StoredBy(meta, c), after.saved)
  {
    var (after, meta) := Emitted(v, c, load);
    assert stored + [] == stored;
    if !SkipsSave(v, c) {
      StoreIsWhole(v, c, load);
      HeldGrows(stored, v.saved, Interval(AlignDown(v.saved, c.chunk), after.saved));
    }
  }

  lemma StepKeepsInvariant(w: World, e: Event, c: Config)
    requires Legal(c) && Invariant(w, c) && Allowed(w, e, c)
    ensures AllIds(Ready(w, e, c).table) && Invariant(Next(w, e, c), c)
  {
    ReadyRefines(w, e, c);
    EmissionHeld(Ready(w, e, c), c, LoadOf(e), Known(w, e));
  }

  /** State after a run, and whether every step of it was allowed. */
  ghost predicate Reaches(events: seq<Event>, w: World, c: Config)
    requires Legal(c)
    decreases |events|
  {
    if events == [] then w == Idle
    else
      var last := events[|events| - 1];
      exists prev :: Reaches(events[..|events| - 1], prev, c) && Allowed(prev, last, c)
        && AllIds(Ready(prev, last, c).table) && w == Next(prev, last, c)
  }

  /** Over every run of new, rescheduled, rolled-back and preempted steps the tracked
      tokens are all_token_ids[:num_computed + num_scheduled], the shadow table is the
      scheduler's table, and every token below the save frontier is covered. The
      frontier is inside the tokens exactly when the last lookup's hits are, unless a
      rollback has brought it back since. */
  lemma {:induction false} RunsKeepInvariant(events: seq<Event>, w: World, c: Config)
    requires Legal(c) && Reaches(events, w, c)
    ensures Invariant(w, c)
  {
    if events != [] {
      var last := events[|events| - 1];
      var prev :| Reaches(events[..|events| - 1], prev, c) && Allowed(prev, last, c)
        && AllIds(Ready(prev, last, c).table) && w == Next(prev, last, c);
      RunsKeepInvariant(events[..|events| - 1], prev, c);
      StepKeepsInvariant(prev, last, c);
    }
  }

  /** No allowed step can be refused by the metadata builder: a run goes on from every
      reachable state. */
  lemma RunsContinue(events: seq<Event>, w: World, e: Event, c: Config)
    requires Legal(c) && Reaches(events, w, c) && Allowed(w, e, c)
    ensures AllIds(Ready(w, e, c).table) && Reaches(events + [e], Next(w, e, c), c)
  {
    RunsKeepInvariant(events, w, c);
    StepKeepsInvariant(w, e, c);
    var longer := events + [e];
    assert longer[..|longer| - 1] == events && longer[|longer| - 1] == e;
  }

  /** Whatever the step was, everything below the frontier it starts from is covered,
      and a save it issues starts less than one chunk before that frontier, leaves no gap
      behind it, carries the request's own tokens, and after a non-zero frontier ends at or
      beyond the next chunk boundary. */
  lemma SaveResumesAtFrontier(w: World, e: Event, c: Config)
    requires Legal(c) && Invariant(w, c) && Allowed(w, e, c)
    requires !SkipsSave(Ready(w, e, c), c)
    ensures AllIds(Ready(w, e, c).table) && HeldBelow(Known(w, e), Frontier(w, e))
    ensures
      var frontier := Frontier(w, e);
      var (after, meta) := Emitted(Ready(w, e, c), c, LoadOf(e));
      && meta.Some?
      && (frontier > 0 ==> after.saved >= NextBoundary(frontier, c.chunk))
      && (after.saved != frontier ==>
            var s := StoreOf(meta.value, c.chunk);
            && s.Some? && s.value.offset <= frontier < s.value.offset + c.chunk
            && s.value.tokens == Take(TruthAfter(w, e).all, after.saved) && |s.value.tokens| == after.saved
            && |s.value.mask| == |s.value.slots| == after.saved
            && forall p :: 0 <= p < after.saved ==> (s.value.mask[p] <==> p >= s.value.offset))
  {
    ReadyRefines(w, e, c);
    hide Allowed, Ready, Known, HeldBelow, FrontierBound;
    var v := Ready(w, e, c);
    StoreIsWhole(v, c, LoadOf(e));
    if v.saved > 0 {
      EmissionAdvances(v, c, LoadOf(e));
    }
  }

  // ---- where the promises are needed ----

  /** Rolling back and extending restores the true prefix exactly when vLLM reports no more
      tokens than tracked and, on a rollback, the shadow table has slots for what remains. */
  lemma RollbackExact(v: View, all: seq<int>, computed: nat, scheduled: nat, u: BlockUpdate, c: Config)
    requires v.tokens <= all && computed <= |all|
    ensures Updated(RolledBack(v, computed, all, c.blockSize), Slice(all, computed, scheduled), u, false, 0, 0, None).tokens
         == Take(all, computed + scheduled)
      <==> computed <= |v.tokens| && (computed < |v.tokens| ==> computed <= |v.table| * c.blockSize)
  {
    var back := RolledBack(v, computed, all, c.blockSize);
    var added := Slice(all, computed, scheduled);
    assert |Take(all, computed + scheduled)| == computed + |added|;
    TakeSlice(all, computed, scheduled);
    if |back.tokens| == computed {
      assert back.tokens == Take(all, computed);
    }
  }

  /** A new request starts with a frontier inside its tokens exactly when the lookup did
      not report more hits than tokens scheduled so far. */
  lemma FrontierExact(prompt: seq<int>, blocks: BlockUpdate, compute: nat, hits: nat, c: Config, load: Option<LoadSpec>)
    requires Legal(c) && ((blocks.Listed? && blocks.entries != []) || (blocks.Grouped? && blocks.groups != []))
    requires AllIds(FirstTable(blocks))
    ensures
      var v := Emitted(Started(prompt, blocks, compute, hits, false, false), c, load).0;
      v.saved <= |v.tokens| <==> hits <= Min(compute, |prompt|)
  {
    var v := Started(prompt, blocks, compute, hits, false, false);
    if hits > |v.tokens| {
      assert SkipsSave(v, c);
    }
  }
}
