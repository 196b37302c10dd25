/** Runs of the scheduler-side connector: every tracker it holds refines vLLM's record. */
module ConnectorRun {
  import opened BlockTable
  import opened RequestTracker
  import opened SchedulerRun
  import opened SchedulerAdapter

  /** vLLM's side of every request that has a tracker. */
  type Worlds = map<ReqId, World>

  /** Every tracker is the one of its request's world, and that world satisfies the invariant. */
  ghost predicate Agrees(views: map<ReqId, View>, ws: Worlds, c: Config) {
    forall id :: id in views ==> id in ws && ws[id].Live? && ws[id].view == views[id] && Invariant(ws[id], c)
  }

  /** The scheduler's table of a new or resumed request, or what was added to it. */
  type Tables = map<ReqId, seq<nat>>

  function TableOf(t: Tables, id: ReqId): seq<nat> {
    if id in t then t[id] else []
  }

  function NewEvent(b: Batch, q: NewRequest, p: SavePolicy, t: Tables): (e: Event)
    ensures e.New?
  {
    New(q.prompt, q.computed, q.scheduled, q.blocks, TableOf(t, q.id), Pop(b.specs, q.id).0,
        SkipsBy(p, b.priority, q.id), q.requestSkip)
  }

  function CachedEvent(b: Batch, q: CachedRequest, r: VllmRequest, t: Tables): (e: Event)
    requires q.resumed ==> q.id in b.specs
    ensures !e.New?
  {
    var load := Pop(b.specs, q.id).0;
    if q.resumed then Resumed(r.all, r.computed, q.scheduled, q.blocks, TableOf(t, q.id), load.value)
    else Again(r.all, r.computed, q.scheduled, q.blocks, TableOf(t, q.id), load)
  }

  /** Metadata that a step of the batch added. */
  ghost function Added(before: Batch, after: Batch): seq<ReqMeta>
    requires before.metas <= after.metas
  {
    after.metas[|before.metas|..]
  }

  /** The worlds after one new request: its tracker and the metadata that the batch got for it
      decide what is stored. */
  ghost predicate NewFollows(b: Batch, q: NewRequest, p: SavePolicy, c: Config, t: Tables, ws: Worlds, after: Worlds)
    requires Legal(c) && HasFirst(q.blocks) && PlainTables(b.views)
  {
    if MOCK <= q.id then after == ws
    else
      var e, done := NewEvent(b, q, p, t), NewStep(b, q, p, c);
      && Allowed(Idle, e, c) && q.id in done.views
      && after == ws[q.id := Landed(Idle, e, done.views[q.id], Added(b, done), c)]
  }

  /** The worlds after one request that already has a tracker; nothing moves once a step raised. */
  ghost predicate CachedFollows(
      b: Batch, q: CachedRequest, vllm: map<ReqId, VllmRequest>, c: Config, t: Tables, ws: Worlds, after: Worlds)
    requires Legal(c) && Plain(q.blocks) && PlainTables(b.views)
  {
    if !CachedStep(b, q, vllm, c).ok then after == ws
    else
      q.id in vllm && q.id in ws && ws[q.id].Live? && (q.resumed ==> q.id in b.specs)
      && var e, done := CachedEvent(b, q, vllm[q.id], t), CachedStep(b, q, vllm, c);
         && Allowed(ws[q.id], e, c) && q.id in done.views
         && after == ws[q.id := Landed(ws[q.id], e, done.views[q.id], Added(b, done), c)]
  }

  lemma NewStepAgrees(b: Batch, q: NewRequest, p: SavePolicy, c: Config, t: Tables, ws: Worlds, after: Worlds)
    requires Legal(c) && HasFirst(q.blocks) && PlainTables(b.views) && Agrees(b.views, ws, c)
    requires NewFollows(b, q, p, c, t, ws, after)
    ensures Agrees(NewStep(b, q, p, c).views, after, c)
  {
    hide Invariant, Allowed, Emitted, Known, StoredBy, LookupAfter, TruthAfter, Landed, Refreshed;
    if !(MOCK <= q.id) {
      var e := NewEvent(b, q, p, t);
      StepKeepsInvariant(Idle, e, c);
      LandedIsNext(Idle, e, c, Added(b, NewStep(b, q, p, c)));
    }
  }

  /** What the batch gets for a request that does not raise is its own emission. */
  lemma CachedEmits(b: Batch, q: CachedRequest, vllm: map<ReqId, VllmRequest>, c: Config, t: Tables, w: World)
    requires Legal(c) && Plain(q.blocks) && PlainTables(b.views) && CachedStep(b, q, vllm, c).ok
    requires q.id in vllm && q.id in b.views && (q.resumed ==> q.id in b.specs) && w.Live? && w.view == b.views[q.id]
    requires
      var e := CachedEvent(b, q, vllm[q.id], t);
      Allowed(w, e, c) && AllIds(Ready(w, e, c).table)
    ensures
      var e, done := CachedEvent(b, q, vllm[q.id], t), CachedStep(b, q, vllm, c);
      var (view, meta) := Emitted(Ready(w, e, c), c, LoadOf(e));
      && done.views == b.views[q.id := view]
      && Added(b, done) == if meta.Some? then [meta.value] else []
  {
    hide Allowed, Emitted;
    var e := CachedEvent(b, q, vllm[q.id], t);
    assert Refreshed(w.view, e, c) == Refreshed(b.views[q.id], EventOf(q, vllm[q.id], Pop(b.specs, q.id).0), c);
  }

  lemma CachedStepAgrees(
      b: Batch, q: CachedRequest, vllm: map<ReqId, VllmRequest>, c: Config, t: Tables, ws: Worlds, after: Worlds)
    requires Legal(c) && Plain(q.blocks) && PlainTables(b.views) && Agrees(b.views, ws, c)
    requires CachedFollows(b, q, vllm, c, t, ws, after)
    ensures Agrees(CachedStep(b, q, vllm, c).views, after, c)
  {
    hide Invariant, Allowed, Emitted, Known, StoredBy, LookupAfter, TruthAfter, Landed;
    if CachedStep(b, q, vllm, c).ok {
      var e, done := CachedEvent(b, q, vllm[q.id], t), CachedStep(b, q, vllm, c);
      StepKeepsInvariant(ws[q.id], e, c);
      CachedEmits(b, q, vllm, c, t, ws[q.id]);
      hide CachedStep;
      LandedIsNext(ws[q.id], e, c, Added(b, done));
    }
  }

  /** The worlds between the new requests of a step. */
  ghost predicate NewTrace(b: Batch, qs: seq<NewRequest>, p: SavePolicy, c: Config, t: Tables, trace: seq<Worlds>)
    requires Legal(c) && AllFirst(qs) && PlainTables(b.views)
  {
    |trace| == |qs| + 1
    && forall i :: 0 <= i < |qs| ==> NewFollows(NewSteps(b, qs[..i], p, c), qs[i], p, c, t, trace[i], trace[i + 1])
  }

  ghost predicate CachedTrace(
      b: Batch, qs: seq<CachedRequest>, vllm: map<ReqId, VllmRequest>, c: Config, t: Tables, trace: seq<Worlds>)
    requires Legal(c) && PlainRequests(qs) && PlainTables(b.views)
  {
    |trace| == |qs| + 1
    && forall i :: 0 <= i < |qs| ==> CachedFollows(CachedSteps(b, qs[..i], vllm, c), qs[i], vllm, c, t, trace[i], trace[i + 1])
  }

  lemma {:induction false} NewTraceAgrees(b: Batch, qs: seq<NewRequest>, p: SavePolicy, c: Config, t: Tables, trace: seq<Worlds>)
    requires Legal(c) && AllFirst(qs) && PlainTables(b.views) && NewTrace(b, qs, p, c, t, trace) && Agrees(b.views, trace[0], c)
    ensures Agrees(NewSteps(b, qs, p, c).views, trace[|qs|], c)
  {
    hide Agrees, NewFollows, NewStep;
    if qs != [] {
      var n := |qs| - 1;
      forall i | 0 <= i < n
        ensures NewFollows(NewSteps(b, qs[..n][..i], p, c), qs[..n][i], p, c, t, trace[..n + 1][i], trace[..n + 1][i + 1])
      {
        assert qs[..n][..i] == qs[..i];
      }
      NewTraceAgrees(b, qs[..n], p, c, t, trace[..n + 1]);
      NewStepAgrees(NewSteps(b, qs[..n], p, c), qs[n], p, c, t, trace[n], trace[n + 1]);
    }
  }

  lemma {:induction false} CachedTraceAgrees(
      b: Batch, qs: seq<CachedRequest>, vllm: map<ReqId, VllmRequest>, c: Config, t: Tables, trace: seq<Worlds>)
    requires Legal(c) && PlainRequests(qs) && PlainTables(b.views) && CachedTrace(b, qs, vllm, c, t, trace)
    requires Agrees(b.views, trace[0], c)
    ensures Agrees(CachedSteps(b, qs, vllm, c).views, trace[|qs|], c)
  {
    hide Agrees, CachedFollows, CachedStep;
    if qs != [] {
      var n := |qs| - 1;
      forall i | 0 <= i < n
        ensures CachedFollows(CachedSteps(b, qs[..n][..i], vllm, c), qs[..n][i], vllm, c, t, trace[..n + 1][i], trace[..n + 1][i + 1])
      {
        assert qs[..n][..i] == qs[..i];
      }
      CachedTraceAgrees(b, qs[..n], vllm, c, t, trace[..n + 1]);
      CachedStepAgrees(CachedSteps(b, qs[..n], vllm, c), qs[n], vllm, c, t, trace[n], trace[n + 1]);
    }
  }

  // ---- runs of the connector ----

  /** One scheduling step: the arguments of `build_connector_meta`, the load specs and
      priorities that the calls before it left, and vLLM's side of each request as the step
      goes on. */
  datatype Turn = Turn(
    finished: set<ReqId>, news: seq<NewRequest>, cached: seq<CachedRequest>, vllm: map<ReqId, VllmRequest>, tables: Tables,
    specs: map<ReqId, LoadSpec>, priority: map<ReqId, int>, newTrace: seq<Worlds>, cachedTrace: seq<Worlds>)

  ghost function Opening(views: map<ReqId, View>, turn: Turn): Batch {
    Batch(views - turn.finished, turn.specs, turn.priority, [], true)
  }

  /** The trackers after the step: what `build_connector_meta` leaves. */
  ghost function Closing(views: map<ReqId, View>, turn: Turn, p: SavePolicy, c: Config): map<ReqId, View>
    requires Legal(c) && PlainTables(views) && AllFirst(turn.news) && PlainRequests(turn.cached)
  {
    CachedSteps(NewSteps(Opening(views, turn), turn.news, p, c), turn.cached, turn.vllm, c).views
  }

  /** vLLM's side takes the step too, each request by an allowed event. */
  ghost predicate Taken(views: map<ReqId, View>, ws: Worlds, turn: Turn, p: SavePolicy, c: Config, after: Worlds)
    requires Legal(c)
  {
    && PlainTables(views) && AllFirst(turn.news) && PlainRequests(turn.cached)
    && NewTrace(Opening(views, turn), turn.news, p, c, turn.tables, turn.newTrace) && turn.newTrace[0] == ws
    && CachedTrace(NewSteps(Opening(views, turn), turn.news, p, c), turn.cached, turn.vllm, c, turn.tables, turn.cachedTrace)
    && turn.cachedTrace[0] == turn.newTrace[|turn.news|] && after == turn.cachedTrace[|turn.cached|]
  }

  ghost predicate Runs(turns: seq<Turn>, views: map<ReqId, View>, ws: Worlds, p: SavePolicy, c: Config)
    requires Legal(c)
    decreases |turns|
  {
    if turns == [] then views == map[] && ws == map[]
    else
      var turn := turns[|turns| - 1];
      exists before, was :: Runs(turns[..|turns| - 1], before, was, p, c) && Taken(before, was, turn, p, c, ws)
        && views == Closing(before, turn, p, c)
  }

  lemma TurnAgrees(views: map<ReqId, View>, ws: Worlds, turn: Turn, p: SavePolicy, c: Config, after: Worlds)
    requires Legal(c) && Agrees(views, ws, c) && Taken(views, ws, turn, p, c, after)
    ensures Agrees(Closing(views, turn, p, c), after, c)
  {
    hide NewTrace, CachedTrace, Invariant;
    var opening := Opening(views, turn);
    assert Agrees(opening.views, ws, c);
    NewTraceAgrees(opening, turn.news, p, c, turn.tables, turn.newTrace);
    CachedTraceAgrees(NewSteps(opening, turn.news, p, c), turn.cached, turn.vllm, c, turn.tables, turn.cachedTrace);
  }

  /** Over every sequence of scheduling steps, whatever lookups and allocations come between
      them and wherever a step raises, every tracker the connector holds has its request's
      tokens, table and a frontier below which everything was stored or reported as a hit. */
  lemma {:induction false} TrackersAgree(turns: seq<Turn>, views: map<ReqId, View>, ws: Worlds, p: SavePolicy, c: Config)
    requires Legal(c) && Runs(turns, views, ws, p, c)
    ensures Agrees(views, ws, c)
  {
    hide Agrees, Closing, NewTrace, CachedTrace;
    if turns != [] {
      var turn := turns[|turns| - 1];
      var before, was :| Runs(turns[..|turns| - 1], before, was, p, c) && Taken(before, was, turn, p, c, ws)
        && views == Closing(before, turn, p, c);
      TrackersAgree(turns[..|turns| - 1], before, was, p, c);
      TurnAgrees(before, was, turn, p, c, ws);
    } else {
      NoTrackersAgree(ws, c);
    }
  }

  lemma NoTrackersAgree(ws: Worlds, c: Config)
    ensures Agrees(map[], ws, c)
  {
  }
}
