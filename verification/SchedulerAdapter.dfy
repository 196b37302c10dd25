/** Scheduler-side connector: load specs, request trackers and `build_connector_meta`. */
module SchedulerAdapter {
  import opened Results
  import opened BlockTable
  import opened RequestTracker
  import opened SchedulerRun

  type ReqId = string

  const MOCK: string := "mock_req"

  datatype NewRequest = NewRequest(
    id: ReqId, prompt: seq<int>, blocks: BlockUpdate, computed: nat, scheduled: nat, requestSkip: bool)

  datatype CachedRequest = CachedRequest(id: ReqId, scheduled: nat, blocks: BlockUpdate, resumed: bool)

  /** The part of a vLLM request object that is read while metadata is built. */
  datatype VllmRequest = VllmRequest(all: seq<int>, computed: nat)

  // ---- load arithmetic ----

  /** `get_num_new_matched_tokens` after the lookup: the count returned and the spec kept. */
  function Matched(hits: nat, computed: nat, numTokens: nat, minRetrieve: nat): (r: (nat, LoadSpec)) {
    var need := hits - computed - if hits == numTokens then 1 else 0;
    var below := minRetrieve > 0 && need < minRetrieve;
    (if below || need <= 0 then 0 else need, LoadSpec(computed, hits, false))
  }

  /** The assertion of `update_state_after_alloc`, reached when tokens are to be loaded. */
  predicate CountAgrees(spec: LoadSpec, numTokens: nat, external: nat) {
    external == spec.lmcacheCached - spec.vllmCached - if spec.lmcacheCached == numTokens then 1 else 0
  }

  /** Allocating the returned count passes the assertion exactly when the request did not
      move into or out of the fully cached case between the two calls. */
  lemma MatchedCountAgrees(hits: nat, computed: nat, numTokens: nat, later: nat, minRetrieve: nat)
    ensures
      var (n, spec) := Matched(hits, computed, numTokens, minRetrieve);
      n > 0 ==> (CountAgrees(spec, later, n) <==> (hits == numTokens <==> hits == later))
  {
  }

  /** A positive count with at most num_tokens hits leaves a token to compute. */
  lemma MatchedLeavesWork(hits: nat, computed: nat, numTokens: nat, minRetrieve: nat)
    requires hits <= numTokens
    ensures
      var n := Matched(hits, computed, numTokens, minRetrieve).0;
      n > 0 ==> computed + n < numTokens
  {
  }

  /** vLLM counts local plus external tokens as computed. A resumed request then passes the
      assertion of `build_connector_meta` exactly when nothing had to be held back: the hit
      is not longer than the local prefix, or it is neither the whole request nor below the
      retrieval minimum. */
  lemma ResumeAssertionExact(hits: nat, computed: nat, numTokens: nat, minRetrieve: nat)
    ensures
      var n := Matched(hits, computed, numTokens, minRetrieve).0;
      computed + n == Max(hits, computed) <==>
        hits <= computed || (hits != numTokens && hits - computed >= minRetrieve)
  {
  }

  /** 300 hits under a retrieval minimum of 512: nothing is to be retrieved, yet the spec is
      kept, and a first prefill step of 100 tokens starts the frontier beyond them. */
  lemma FrontierBeyondTokens(prompt: seq<int>, blocks: seq<nat>)
    requires |prompt| == 1000 && blocks != []
    ensures
      var (n, spec) := Matched(300, 0, |prompt|, 512);
      var v := Started(prompt, Grouped([blocks]), 100, spec.lmcacheCached, false, false);
      n == 0 && v.saved > |v.tokens|
  {
  }

  // ---- metadata of one scheduling step ----

  /** Connector state while a scheduling step is processed; `ok` is false once it raised. */
  datatype Batch = Batch(
    views: map<ReqId, View>, specs: map<ReqId, LoadSpec>, priority: map<ReqId, int>, metas: seq<ReqMeta>, ok: bool)

  /** What decides whether a new request is ever saved. */
  datatype SavePolicy = SavePolicy(never: bool, limit: Option<int>)

  function SkipsBy(p: SavePolicy, priority: map<ReqId, int>, id: ReqId): bool {
    p.never || (p.limit.Some? && (if id in priority then priority[id] else 0) > p.limit.value)
  }

  function Pop(specs: map<ReqId, LoadSpec>, id: ReqId): (Option<LoadSpec>, map<ReqId, LoadSpec>) {
    (if id in specs then Some(specs[id]) else None, specs - {id})
  }

  ghost predicate Plain(u: BlockUpdate) { !Nested(u) }

  ghost predicate HasFirst(u: BlockUpdate) {
    Plain(u) && ((u.Listed? && u.entries != []) || (u.Grouped? && u.groups != []))
  }

  ghost predicate PlainTables(views: map<ReqId, View>) {
    forall id :: id in views ==> AllIds(views[id].table)
  }

  lemma GuardedPlain(table: seq<Entry>, u: BlockUpdate, preempted: bool)
    requires AllIds(table) && Plain(u)
    ensures AllIds(Guarded(table, u, preempted))
  {
  }

  function Append(metas: seq<ReqMeta>, m: Option<ReqMeta>): seq<ReqMeta> {
    if m.Some? then metas + [m.value] else metas
  }

  ghost function NewStep(b: Batch, q: NewRequest, p: SavePolicy, c: Config): (r: Batch)
    requires c.chunk > 0 && HasFirst(q.blocks) && PlainTables(b.views)
    ensures PlainTables(r.views) && b.metas <= r.metas
  {
    if MOCK <= q.id then b
    else
      var (load, specs) := Pop(b.specs, q.id);
      var v := Started(q.prompt, q.blocks, q.computed + q.scheduled, Hits(load), SkipsBy(p, b.priority, q.id), q.requestSkip);
      var (after, meta) := Emitted(v, c, load);
      Batch(b.views[q.id := after], specs, b.priority - {q.id}, Append(b.metas, meta), b.ok)
  }

  function EventOf(q: CachedRequest, r: VllmRequest, load: Option<LoadSpec>): (e: Event)
    requires q.resumed ==> load.Some?
    ensures !e.New?
  {
    if q.resumed then Resumed(r.all, r.computed, q.scheduled, q.blocks, [], load.value)
    else Again(r.all, r.computed, q.scheduled, q.blocks, [], load)
  }

  /** One scheduled request that already has a tracker; raising stops the batch. */
  ghost function CachedStep(b: Batch, q: CachedRequest, vllm: map<ReqId, VllmRequest>, c: Config): (r: Batch)
    requires c.chunk > 0 && Plain(q.blocks) && PlainTables(b.views)
    ensures PlainTables(r.views) && b.metas <= r.metas
  {
    if !b.ok || q.id !in b.views || q.id !in vllm then b.(ok := false)
    else
      var (load, specs) := Pop(b.specs, q.id);
      var request := vllm[q.id];
      if q.resumed && (load.None? || request.computed != Max(load.value.lmcacheCached, load.value.vllmCached))
      then b.(specs := specs, ok := false)
      else
        var v := Refreshed(b.views[q.id], EventOf(q, request, load), c);
        RefreshedPlain(b.views[q.id], EventOf(q, request, load), c);
        var (after, meta) := Emitted(v, c, load);
        Batch(b.views[q.id := after], specs, b.priority, Append(b.metas, meta), true)
  }

  lemma RefreshedPlain(v: View, e: Event, c: Config)
    requires !e.New? && AllIds(v.table) && Plain(e.blocks)
    ensures AllIds(Refreshed(v, e, c).table)
  {
    GuardedPlain(v.table, e.blocks, e.Resumed?);
  }

  ghost function NewSteps(b: Batch, qs: seq<NewRequest>, p: SavePolicy, c: Config): (r: Batch)
    requires c.chunk > 0 && PlainTables(b.views)
    requires forall i :: 0 <= i < |qs| ==> HasFirst(qs[i].blocks)
    ensures PlainTables(r.views)
  {
    if qs == [] then b else NewStep(NewSteps(b, qs[..|qs| - 1], p, c), qs[|qs| - 1], p, c)
  }

  ghost function CachedSteps(b: Batch, qs: seq<CachedRequest>, vllm: map<ReqId, VllmRequest>, c: Config): (r: Batch)
    requires c.chunk > 0 && PlainTables(b.views)
    requires forall i :: 0 <= i < |qs| ==> Plain(qs[i].blocks)
    ensures PlainTables(r.views)
  {
    if qs == [] then b
    else CachedStep(CachedSteps(b, qs[..|qs| - 1], vllm, c), qs[|qs| - 1], vllm, c)
  }

  /** A request's own step, from its tracker, its load spec and its vLLM request. */
  ghost function OwnStep(v: View, load: Option<LoadSpec>, q: CachedRequest, r: VllmRequest, c: Config): View
    requires c.chunk > 0 && AllIds(v.table) && Plain(q.blocks) && (q.resumed ==> load.Some?)
  {
    RefreshedPlain(v, EventOf(q, r, load), c);
    Emitted(Refreshed(v, EventOf(q, r, load), c), c, load).0
  }

  ghost predicate PlainRequests(qs: seq<CachedRequest>) {
    forall i :: 0 <= i < |qs| ==> Plain(qs[i].blocks)
  }

  /** A tracker whose request is not in the batch is left alone. */
  lemma {:induction false} BatchLeavesOthers(b: Batch, qs: seq<CachedRequest>, vllm: map<ReqId, VllmRequest>, c: Config, id: ReqId)
    requires c.chunk > 0 && PlainTables(b.views) && PlainRequests(qs)
    requires forall i :: 0 <= i < |qs| ==> qs[i].id != id
    ensures
      var after := CachedSteps(b, qs, vllm, c);
      && (id in after.views <==> id in b.views)
      && (id in b.views ==> after.views[id] == b.views[id])
      && Pop(after.specs, id).0 == Pop(b.specs, id).0
  {
    if qs != [] {
      BatchLeavesOthers(b, qs[..|qs| - 1], vllm, c, id);
    }
  }

  /** In a batch of distinct requests that does not raise, each tracker takes exactly its
      own step. */
  lemma {:induction false} BatchIsPerRequest(b: Batch, qs: seq<CachedRequest>, vllm: map<ReqId, VllmRequest>, c: Config, i: nat)
    requires c.chunk > 0 && PlainTables(b.views) && PlainRequests(qs) && i < |qs|
    requires forall i, j :: 0 <= i < j < |qs| ==> qs[i].id != qs[j].id
    requires CachedSteps(b, qs, vllm, c).ok
    ensures
      var q, after := qs[i], CachedSteps(b, qs, vllm, c);
      && q.id in b.views && q.id in vllm && q.id in after.views && (q.resumed ==> q.id in b.specs)
      && after.views[q.id] == OwnStep(b.views[q.id], Pop(b.specs, q.id).0, q, vllm[q.id], c)
  {
    var n := |qs| - 1;
    if i == n {
      BatchLeavesOthers(b, qs[..n], vllm, c, qs[n].id);
    } else {
      BatchIsPerRequest(b, qs[..n], vllm, c, i);
      assert qs[..n][i].id != qs[n].id;
    }
  }

  /** Metadata a request's own step emits, from the state before the batch. */
  ghost function OwnMeta(b: Batch, q: CachedRequest, vllm: map<ReqId, VllmRequest>, c: Config): Option<ReqMeta>
    requires c.chunk > 0 && Plain(q.blocks) && PlainTables(b.views)
  {
    var load := Pop(b.specs, q.id).0;
    if q.id !in b.views || q.id !in vllm || (q.resumed && load.None?) then None
    else
      RefreshedPlain(b.views[q.id], EventOf(q, vllm[q.id], load), c);
      Emitted(Refreshed(b.views[q.id], EventOf(q, vllm[q.id], load), c), c, load).1
  }

  ghost function OwnMetas(b: Batch, qs: seq<CachedRequest>, vllm: map<ReqId, VllmRequest>, c: Config): seq<ReqMeta>
    requires c.chunk > 0 && PlainTables(b.views) && PlainRequests(qs)
  {
    if qs == [] then []
    else
      var meta := OwnMeta(b, qs[|qs| - 1], vllm, c);
      OwnMetas(b, qs[..|qs| - 1], vllm, c) + if meta.Some? then [meta.value] else []
  }

  /** A step that does not raise emits its own metadata, whatever the batch did before to other
      requests. */
  lemma StepMeta(b: Batch, now: Batch, q: CachedRequest, vllm: map<ReqId, VllmRequest>, c: Config)
    requires c.chunk > 0 && Plain(q.blocks) && PlainTables(b.views) && PlainTables(now.views)
    requires CachedStep(now, q, vllm, c).ok
    requires (q.id in now.views <==> q.id in b.views) && (q.id in b.views ==> now.views[q.id] == b.views[q.id])
    requires Pop(now.specs, q.id).0 == Pop(b.specs, q.id).0
    ensures now.ok
    ensures
      var meta := OwnMeta(b, q, vllm, c);
      CachedStep(now, q, vllm, c).metas == now.metas + if meta.Some? then [meta.value] else []
  {
    hide Emitted, Refreshed;
  }

  /** The metadata emitted by a batch of distinct requests is, in order, what each request's
      own step emits. */
  lemma {:induction false} MetasArePerRequest(b: Batch, qs: seq<CachedRequest>, vllm: map<ReqId, VllmRequest>, c: Config)
    requires c.chunk > 0 && PlainTables(b.views) && PlainRequests(qs)
    requires forall i, j :: 0 <= i < j < |qs| ==> qs[i].id != qs[j].id
    requires CachedSteps(b, qs, vllm, c).ok
    ensures CachedSteps(b, qs, vllm, c).metas == b.metas + OwnMetas(b, qs, vllm, c)
  {
    hide CachedStep, OwnMeta;
    if qs != [] {
      var n := |qs| - 1;
      BatchLeavesOthers(b, qs[..n], vllm, c, qs[n].id);
      StepMeta(b, CachedSteps(b, qs[..n], vllm, c), qs[n], vllm, c);
      MetasArePerRequest(b, qs[..n], vllm, c);
    }
  }

  // ---- new requests of a step ----

  ghost predicate AllFirst(qs: seq<NewRequest>) {
    forall i :: 0 <= i < |qs| ==> HasFirst(qs[i].blocks)
  }

  lemma {:induction false} NewLeaveOthers(b: Batch, qs: seq<NewRequest>, p: SavePolicy, c: Config, id: ReqId)
    requires c.chunk > 0 && PlainTables(b.views) && AllFirst(qs)
    requires forall i :: 0 <= i < |qs| ==> qs[i].id != id
    ensures
      var after := NewSteps(b, qs, p, c);
      && (id in after.views <==> id in b.views)
      && (id in b.views ==> after.views[id] == b.views[id])
      && Pop(after.specs, id).0 == Pop(b.specs, id).0
      && SkipsBy(p, after.priority, id) == SkipsBy(p, b.priority, id)
  {
    hide Emitted, Started;
    if qs != [] {
      NewLeaveOthers(b, qs[..|qs| - 1], p, c, id);
    }
  }

  /** Among distinct new requests each tracker starts and saves exactly as it would alone. */
  lemma {:induction false} NewArePerRequest(b: Batch, qs: seq<NewRequest>, p: SavePolicy, c: Config, i: nat)
    requires c.chunk > 0 && PlainTables(b.views) && AllFirst(qs) && i < |qs| && !(MOCK <= qs[i].id)
    requires forall i, j :: 0 <= i < j < |qs| ==> qs[i].id != qs[j].id
    ensures
      var q, after := qs[i], NewSteps(b, qs, p, c);
      q.id in after.views && after.views[q.id] == NewStep(b, q, p, c).views[q.id]
  {
    hide Emitted, Started;
    var n := |qs| - 1;
    if i == n {
      NewLeaveOthers(b, qs[..n], p, c, qs[n].id);
    } else {
      NewArePerRequest(b, qs[..n], p, c, i);
      assert qs[..n][i].id != qs[n].id;
    }
  }

  /** Metadata a new request's own step emits, from the state before the batch. */
  ghost function OwnNewMeta(b: Batch, q: NewRequest, p: SavePolicy, c: Config): Option<ReqMeta>
    requires c.chunk > 0 && HasFirst(q.blocks)
  {
    if MOCK <= q.id then None
    else
      var load := Pop(b.specs, q.id).0;
      var skipSave := SkipsBy(p, b.priority, q.id);
      Emitted(Started(q.prompt, q.blocks, q.computed + q.scheduled, Hits(load), skipSave, q.requestSkip), c, load).1
  }

  ghost function OwnNewMetas(b: Batch, qs: seq<NewRequest>, p: SavePolicy, c: Config): seq<ReqMeta>
    requires c.chunk > 0 && AllFirst(qs)
  {
    if qs == [] then []
    else
      var meta := OwnNewMeta(b, qs[|qs| - 1], p, c);
      OwnNewMetas(b, qs[..|qs| - 1], p, c) + if meta.Some? then [meta.value] else []
  }

  /** The metadata emitted for distinct new requests is, in order, what each one's own step
      emits. */
  lemma {:induction false} NewMetasArePerRequest(b: Batch, qs: seq<NewRequest>, p: SavePolicy, c: Config)
    requires c.chunk > 0 && PlainTables(b.views) && AllFirst(qs)
    requires forall i, j :: 0 <= i < j < |qs| ==> qs[i].id != qs[j].id
    ensures NewSteps(b, qs, p, c).metas == b.metas + OwnNewMetas(b, qs, p, c)
  {
    hide Emitted, Started, SkipsBy;
    if qs != [] {
      var n := |qs| - 1;
      NewMetasArePerRequest(b, qs[..n], p, c);
      NewLeaveOthers(b, qs[..n], p, c, qs[n].id);
    }
  }

  /** The load spec and the priority of every new request are taken, no others. */
  lemma {:induction false} NewTakeSpecs(b: Batch, qs: seq<NewRequest>, p: SavePolicy, c: Config, id: ReqId)
    requires c.chunk > 0 && PlainTables(b.views) && AllFirst(qs)
    ensures
      var after, taken := NewSteps(b, qs, p, c), exists i :: 0 <= i < |qs| && qs[i].id == id && !(MOCK <= id);
      && (id in after.specs <==> id in b.specs && !taken) && (id in after.specs ==> after.specs[id] == b.specs[id])
      && (id in after.priority <==> id in b.priority && !taken)
  {
    hide Emitted, Started, SkipsBy;
    if qs != [] {
      var n := |qs| - 1;
      NewTakeSpecs(b, qs[..n], p, c, id);
      assert forall i :: 0 <= i < n ==> qs[..n][i] == qs[i];
    }
  }

  /** So are the load specs of the rescheduled requests of a step that does not raise. */
  lemma {:induction false} CachedTakeSpecs(b: Batch, qs: seq<CachedRequest>, vllm: map<ReqId, VllmRequest>, c: Config, id: ReqId)
    requires c.chunk > 0 && PlainTables(b.views) && PlainRequests(qs) && CachedSteps(b, qs, vllm, c).ok
    ensures
      var after, taken := CachedSteps(b, qs, vllm, c), exists i :: 0 <= i < |qs| && qs[i].id == id;
      && (id in after.specs <==> id in b.specs && !taken) && (id in after.specs ==> after.specs[id] == b.specs[id])
      && after.priority == b.priority
  {
    hide Emitted, Refreshed;
    if qs != [] {
      var n := |qs| - 1;
      CachedTakeSpecs(b, qs[..n], vllm, c, id);
      assert forall i :: 0 <= i < n ==> qs[..n][i] == qs[i];
    }
  }

  /** A rescheduled request is known, and when it resumes its computed tokens are the larger of
      what its lookup hit and what vLLM had cached. */
  ghost predicate Reschedulable(b: Batch, q: CachedRequest, vllm: map<ReqId, VllmRequest>) {
    && q.id in b.views && q.id in vllm
    && (q.resumed ==>
      && q.id in b.specs
      && var computed, spec := vllm[q.id].computed, b.specs[q.id];
         && computed >= spec.lmcacheCached && computed >= spec.vllmCached
         && (computed == spec.lmcacheCached || computed == spec.vllmCached))
  }

  /** A batch of distinct requests raises exactly when one of them, judged by the state before
      the batch, is not reschedulable. */
  lemma {:induction false} BatchRaisesExact(b: Batch, qs: seq<CachedRequest>, vllm: map<ReqId, VllmRequest>, c: Config)
    requires c.chunk > 0 && PlainTables(b.views) && PlainRequests(qs) && b.ok
    requires forall i, j :: 0 <= i < j < |qs| ==> qs[i].id != qs[j].id
    ensures CachedSteps(b, qs, vllm, c).ok <==> forall i :: 0 <= i < |qs| ==> Reschedulable(b, qs[i], vllm)
  {
    hide Emitted, Refreshed;
    if qs != [] {
      var n := |qs| - 1;
      BatchRaisesExact(b, qs[..n], vllm, c);
      BatchLeavesOthers(b, qs[..n], vllm, c, qs[n].id);
      assert forall i :: 0 <= i < n ==> qs[..n][i] == qs[i];
    }
  }

  /** A batch that raised stays where it stopped. */
  lemma {:induction false} StaysStopped(b: Batch, qs: seq<CachedRequest>, n: nat, vllm: map<ReqId, VllmRequest>, c: Config)
    requires c.chunk > 0 && PlainTables(b.views) && PlainRequests(qs) && n <= |qs|
    requires !CachedSteps(b, qs[..n], vllm, c).ok
    ensures CachedSteps(b, qs, vllm, c) == CachedSteps(b, qs[..n], vllm, c)
    decreases |qs| - n
  {
    if n < |qs| {
      assert qs[..n + 1][..n] == qs[..n];
      StaysStopped(b, qs, n + 1, vllm, c);
    } else {
      assert qs[..n] == qs;
    }
  }

  /** `_unfinished_requests` with the current value of each request object. */
  function Unfinished(objects: map<ReqId, VllmRequest>, ids: set<ReqId>): (vllm: map<ReqId, VllmRequest>)
    ensures ids <= objects.Keys ==> vllm.Keys == ids
  {
    map id | id in ids && id in objects :: objects[id]
  }

  // ---- the connector object ----

  class SchedulerConnector {
    const config: Config
    const savePolicy: SavePolicy
    const minRetrieve: nat
    const isProducer: bool
    const producerReuse: bool
    var requestTrackers: map<ReqId, RequestTracker>
    var loadSpecs: map<ReqId, LoadSpec>
    var requestsPriority: map<ReqId, int>
    /** Keys of `_unfinished_requests`. */
    var unfinished: set<ReqId>

    ghost predicate Valid()
      reads this, requestTrackers.Values
    {
      && config.chunk > 0
      && (forall a, b :: a in requestTrackers && b in requestTrackers && a != b ==> requestTrackers[a] != requestTrackers[b])
      && PlainTables(Views())
    }

    /** Mock requests, and every request of a producer whose lookup cannot reuse. */
    ghost predicate Ignored(id: ReqId) {
      MOCK <= id || (isProducer && !producerReuse)
    }

    ghost function Views(): map<ReqId, View>
      reads this, requestTrackers.Values
    {
      map id | id in requestTrackers :: requestTrackers[id].State()
    }

    /** The lookup result is a parameter: None while an asynchronous lookup is running; `first`
        says that no result was cached, so the lookup is made now. */
    method GetNumNewMatchedTokens(id: ReqId, numTokens: nat, computed: nat, priority: int, first: bool, lookup: Option<nat>)
      returns (n: Option<nat>)
      modifies this`loadSpecs, this`requestsPriority
      ensures Ignored(id) ==> n == Some(0) && loadSpecs == old(loadSpecs) && requestsPriority == old(requestsPriority)
      ensures !Ignored(id) ==> requestsPriority == if first then old(requestsPriority)[id := priority] else old(requestsPriority)
      ensures !Ignored(id) && lookup.None? ==> n == None && loadSpecs == old(loadSpecs)
      ensures !Ignored(id) && lookup.Some? ==>
        var (count, spec) := Matched(lookup.value, computed, numTokens, minRetrieve);
        n == Some(count) && loadSpecs == old(loadSpecs)[id := spec]
      ensures !Ignored(id) && lookup.Some? ==>
        var need := lookup.value - computed - if lookup.value == numTokens then 1 else 0;
        && n == Some(if need <= 0 || need < minRetrieve then 0 else need)
        && loadSpecs[id] == LoadSpec(computed, lookup.value, false)
    {
      if MOCK <= id {
        return Some(0);
      }
      if isProducer && !producerReuse {
        return Some(0);
      }
      if first {
        requestsPriority := requestsPriority[id := priority];
      }
      if lookup.None? {
        return None;
      }
      var hits := lookup.value;
      var need: int := hits - computed;
      if hits == numTokens {
        need := need - 1;
      }
      var below := minRetrieve > 0 && need < minRetrieve;
      loadSpecs := loadSpecs[id := LoadSpec(computed, hits, false)];
      if below || need <= 0 {
        return Some(0);
      }
      return Some(need);
    }

    /** False when the assertion on the token count fails. */
    method UpdateStateAfterAlloc(id: ReqId, numTokens: nat, external: nat) returns (ok: bool)
      modifies this`loadSpecs, this`unfinished
      ensures unfinished == old(unfinished) + {id}
      ensures ok <==> id !in old(loadSpecs) || external == 0 || CountAgrees(old(loadSpecs)[id], numTokens, external)
      ensures loadSpecs == if id in old(loadSpecs) && ok then old(loadSpecs)[id := old(loadSpecs)[id].(canLoad := external != 0)]
                           else old(loadSpecs)
    {
      unfinished := unfinished + {id};
      if id !in loadSpecs {
        return true;
      }
      var spec := loadSpecs[id];
      if external == 0 {
        loadSpecs := loadSpecs[id := spec.(canLoad := false)];
        return true;
      }
      var recalc := if spec.lmcacheCached == numTokens then 1 else 0;
      if external != spec.lmcacheCached - spec.vllmCached - recalc {
        return false;
      }
      loadSpecs := loadSpecs[id := spec.(canLoad := true)];
      return true;
    }

    ghost function Now(metas: seq<ReqMeta>, ok: bool): Batch
      reads this, requestTrackers.Values
    {
      Batch(Views(), loadSpecs, requestsPriority, metas, ok)
    }

    /** One tracker through its step and its metadata. */
    method Reschedule(tracker: RequestTracker, q: CachedRequest, request: VllmRequest, load: Option<LoadSpec>)
      returns (meta: Option<ReqMeta>)
      requires config.chunk > 0 && AllIds(tracker.allocatedBlockIds) && Plain(q.blocks) && (q.resumed ==> load.Some?)
      modifies tracker
      ensures AllIds(Refreshed(old(tracker.State()), EventOf(q, request, load), config).table)
      ensures (tracker.State(), meta) == Emitted(Refreshed(old(tracker.State()), EventOf(q, request, load), config), config, load)
    {
      var newTokens := Slice(request.all, request.computed, q.scheduled);
      var hits := Hits(load);
      var vllmCached := if load.Some? then load.value.vllmCached else 0;
      RefreshedPlain(tracker.State(), EventOf(q, request, load), config);
      tracker.RollBack(request.computed, request.all, config.blockSize);
      tracker.Update(newTokens, q.blocks, q.resumed, hits, vllmCached, if q.resumed then Some(request.all) else None);
      meta := tracker.BuildMeta(config, load);
    }

    /** `load_specs.pop` */
    method PopSpec(id: ReqId) returns (load: Option<LoadSpec>)
      requires Valid()
      modifies this`loadSpecs
      ensures Valid() && Views() == old(Views())
      ensures (load, loadSpecs) == Pop(old(loadSpecs), id)
    {
      var (spec, specs) := Pop(loadSpecs, id);
      load, loadSpecs := spec, specs;
    }

    /** The body of the loop over `scheduled_cached_reqs`; `vllm` holds the current value of
        every request object in `_unfinished_requests`. */
    method BuildOneCached(q: CachedRequest, vllm: map<ReqId, VllmRequest>, metas: seq<ReqMeta>)
      returns (out: seq<ReqMeta>, ok: bool)
      requires Valid() && Plain(q.blocks)
      modifies this`loadSpecs, requestTrackers.Values
      ensures Valid() && requestTrackers == old(requestTrackers)
      ensures Now(out, ok) == CachedStep(old(Now(metas, true)), q, vllm, config)
    {
      hide Emitted, Refreshed;
      if q.id !in requestTrackers || q.id !in vllm {
        return metas, false;
      }
      var tracker, request := requestTrackers[q.id], vllm[q.id];
      var load := PopSpec(q.id);
      assert old(Views())[q.id] == tracker.State() && AllIds(tracker.State().table);
      if q.resumed && (load.None? || request.computed != Max(load.value.lmcacheCached, load.value.vllmCached)) {
        return metas, false;
      }
      var meta := Reschedule(tracker, q, request, load);
      assert Views() == old(Views())[q.id := tracker.State()];
      return Append(metas, meta), true;
    }

    method BuildCached(qs: seq<CachedRequest>, vllm: map<ReqId, VllmRequest>, metas: seq<ReqMeta>)
      returns (out: seq<ReqMeta>, ok: bool)
      requires Valid() && PlainRequests(qs)
      modifies this`loadSpecs, requestTrackers.Values
      ensures Valid() && requestTrackers == old(requestTrackers)
      ensures Now(out, ok) == CachedSteps(old(Now(metas, true)), qs, vllm, config)
    {
      ghost var start := Now(metas, true);
      out, ok := metas, true;
      var i := 0;
      while i < |qs| && ok
        invariant 0 <= i <= |qs| && Valid() && requestTrackers == old(requestTrackers)
        invariant Now(out, ok) == CachedSteps(start, qs[..i], vllm, config)
      {
        assert qs[..i + 1][..i] == qs[..i];
        out, ok := BuildOneCached(qs[i], vllm, out);
        i := i + 1;
      }
      if ok {
        assert qs[..i] == qs;
      } else {
        StaysStopped(start, qs, i, vllm, config);
      }
    }

    method Track(q: NewRequest, load: Option<LoadSpec>, skipSave: bool) returns (tracker: RequestTracker, meta: Option<ReqMeta>)
      requires Valid() && HasFirst(q.blocks)
      ensures Valid() && Views() == old(Views()) && fresh(tracker) && tracker !in requestTrackers.Values
      ensures AllIds(FirstTable(q.blocks))
      ensures (tracker.State(), meta) == Emitted(
        Started(q.prompt, q.blocks, q.computed + q.scheduled, Hits(load), skipSave, q.requestSkip), config, load)
    {
      tracker := new RequestTracker.FromNewRequest(
        q.prompt, q.blocks, q.computed + q.scheduled, Hits(load), skipSave, q.requestSkip);
      meta := tracker.BuildMeta(config, load);
    }

    method Install(id: ReqId, tracker: RequestTracker)
      requires Valid() && tracker !in requestTrackers.Values && AllIds(tracker.allocatedBlockIds)
      modifies this`requestTrackers
      ensures Valid() && requestTrackers.Values <= old(requestTrackers.Values) + {tracker}
      ensures Views() == old(Views())[id := tracker.State()]
    {
      requestTrackers := requestTrackers[id := tracker];
      assert Views() == old(Views())[id := tracker.State()];
    }

    /** `load_specs.pop` and `_requests_priority.pop` with the save decision. */
    method TakeSpec(id: ReqId) returns (load: Option<LoadSpec>, skipSave: bool)
      requires Valid()
      modifies this`loadSpecs, this`requestsPriority
      ensures Valid() && Views() == old(Views())
      ensures (load, loadSpecs) == Pop(old(loadSpecs), id)
      ensures skipSave == SkipsBy(savePolicy, old(requestsPriority), id) && requestsPriority == old(requestsPriority) - {id}
      ensures
        var priority := if id in old(requestsPriority) then old(requestsPriority)[id] else 0;
        skipSave == (savePolicy.never || (savePolicy.limit.Some? && priority > savePolicy.limit.value))
    {
      var (spec, specs) := Pop(loadSpecs, id);
      load, loadSpecs := spec, specs;
      skipSave := SkipsBy(savePolicy, requestsPriority, id);
      requestsPriority := requestsPriority - {id};
    }

    /** The body of the loop over `scheduled_new_reqs`. */
    method BuildOneNew(q: NewRequest, metas: seq<ReqMeta>) returns (out: seq<ReqMeta>)
      requires Valid() && HasFirst(q.blocks)
      modifies this`loadSpecs, this`requestTrackers, this`requestsPriority
      ensures Valid()
      ensures fresh(requestTrackers.Values - old(requestTrackers.Values))
      ensures Now(out, true) == NewStep(old(Now(metas, true)), q, savePolicy, config)
    {
      hide Emitted, Pop, SkipsBy, Hits;
      if MOCK <= q.id {
        return metas;
      }
      var load, skipSave := TakeSpec(q.id);
      var tracker, meta := Track(q, load, skipSave);
      Install(q.id, tracker);
      return Append(metas, meta);
    }

    method BuildNew(qs: seq<NewRequest>, metas: seq<ReqMeta>) returns (out: seq<ReqMeta>)
      requires Valid() && forall i :: 0 <= i < |qs| ==> HasFirst(qs[i].blocks)
      modifies this`loadSpecs, this`requestTrackers, this`requestsPriority
      ensures Valid()
      ensures fresh(requestTrackers.Values - old(requestTrackers.Values))
      ensures Now(out, true) == NewSteps(old(Now(metas, true)), qs, savePolicy, config)
    {
      out := metas;
      for i := 0 to |qs|
        invariant Valid()
        invariant fresh(requestTrackers.Values - old(requestTrackers.Values))
        invariant Now(out, true) == NewSteps(old(Now(metas, true)), qs[..i], savePolicy, config)
      {
        assert qs[..i + 1][..i] == qs[..i];
        out := BuildOneNew(qs[i], out);
      }
      assert qs[..|qs|] == qs;
    }

    /** `build_connector_meta`: finished requests are dropped, then new and rescheduled
        requests are processed in order. `objects` holds the current value of every request
        object that `_unfinished_requests` refers to; only those not finished are looked up. */
    method BuildConnectorMeta(finished: set<ReqId>, newReqs: seq<NewRequest>, cachedReqs: seq<CachedRequest>,
                              objects: map<ReqId, VllmRequest>)
      returns (metas: seq<ReqMeta>, ok: bool)
      requires unfinished <= objects.Keys
      requires Valid() && PlainRequests(cachedReqs) && forall i :: 0 <= i < |newReqs| ==> HasFirst(newReqs[i].blocks)
      modifies this, requestTrackers.Values
      ensures Valid() && unfinished == old(unfinished) - finished
      ensures
        var start := old(Now([], true)).(views := old(Views()) - finished);
        Now(metas, ok) == CachedSteps(
          NewSteps(start, newReqs, savePolicy, config), cachedReqs, Unfinished(objects, old(unfinished) - finished), config)
    {
      requestTrackers := requestTrackers - finished;
      unfinished := unfinished - finished;
      assert Views() == old(Views()) - finished;
      metas := BuildNew(newReqs, []);
      metas, ok := BuildCached(cachedReqs, Unfinished(objects, unfinished), metas);
    }
  }
}
