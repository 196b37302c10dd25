/** The per-request shadow of vLLM's scheduler state and the metadata built from it. */
module RequestTracker {
  import opened Results
  import opened BlockTable
  import opened PagedSlots
  import TensorIndex

  /** Python `s[:n]` and `s[i:i+n]` for non-negative bounds. */
  function Take<T>(s: seq<T>, n: nat): (r: seq<T>)
    ensures |r| == if n < |s| then n else |s|
  {
    if n < |s| then s[..n] else s
  }

  function Slice<T>(s: seq<T>, i: nat, n: nat): seq<T> {
    if i < |s| then Take(s[i..], n) else []
  }

  lemma TakeSlice<T>(s: seq<T>, i: nat, n: nat)
    ensures Take(s, i) + Slice(s, i, n) == Take(s, i + n)
    ensures Take(s, i + |Slice(s, i, n)|) == Take(s, i + n)
  {
    if i < |s| {
      if n < |s| - i {
        assert s[..i] + s[i..][..n] == s[..i + n];
      } else {
        assert s[..i] + s[i..] == s;
      }
    }
  }

  function Max(a: nat, b: nat): nat { if a < b then b else a }
  function Min(a: nat, b: nat): nat { if a < b then a else b }

  /** `n // chunk * chunk` */
  function AlignDown(n: nat, chunk: nat): (r: nat)
    requires chunk > 0
    ensures r <= n < r + chunk && r % chunk == 0
  {
    TensorIndex.DivMod(n / chunk, 0, chunk);
    n / chunk * chunk
  }

  /** `cdiv(n + 1, chunk) * chunk`: the first chunk boundary strictly after n. */
  function NextBoundary(n: nat, chunk: nat): (r: nat)
    requires chunk > 0
    ensures n < r <= n + chunk && r % chunk == 0
  {
    var q := (n + chunk) / chunk;
    TensorIndex.DivMod(q, 0, chunk);
    q * chunk
  }

  /** A multiple of the chunk that fits below n fits below its aligned length. */
  lemma MultipleFits(m: nat, n: nat, chunk: nat)
    requires chunk > 0 && m % chunk == 0 && m <= n
    ensures m <= AlignDown(n, chunk)
  {
    if n / chunk < m / chunk {
      TensorIndex.MulMonotone(n / chunk + 1, m / chunk, chunk);
    } else {
      TensorIndex.MulMonotone(m / chunk, n / chunk, chunk);
    }
  }

  datatype LoadSpec = LoadSpec(vllmCached: nat, lmcacheCached: nat, canLoad: bool)
  datatype SaveSpec = SaveSpec(skipLeading: nat, canSave: bool)

  datatype Config = Config(blockSize: nat, chunk: nat, discardPartial: bool, saveDecode: bool)

  ghost predicate Legal(c: Config) { c.blockSize > 0 && c.chunk > 0 }

  /** The fields of a tracker. */
  datatype View = View(
    promptLen: nat, tokens: seq<int>, table: seq<Entry>, saved: nat, decode: bool, skipSave: bool, requestSkip: bool)

  datatype ReqMeta = ReqMeta(
    tokens: seq<int>, slots: seq<nat>, lastPrefill: bool, save: SaveSpec, load: Option<LoadSpec>)

  // ---- specification of each step ----

  /** Block ids of a new request: a flat list, or the first list of a nested one. */
  function FirstTable(u: BlockUpdate): seq<Entry>
    requires (u.Listed? && u.entries != []) || (u.Grouped? && u.groups != [])
  {
    match u
    case Listed(es) => if es[0].Id? then es else Ids(es[0].ids)
    case Grouped(gs) => Ids(gs[0])
  }

  /** Whatever else the container holds, a new request gets the flat list, or the first group. */
  lemma FirstTableExact(ids: seq<nat>, groups: seq<seq<nat>>, entries: seq<Entry>)
    ensures FirstTable(Grouped([ids] + groups)) == Ids(ids)
    ensures FirstTable(Listed([Group(ids)] + entries)) == Ids(ids)
    ensures ids != [] ==> FirstTable(Listed(Ids(ids))) == Ids(ids)
  {
  }

  function Started(prompt: seq<int>, blocks: BlockUpdate, compute: nat, hits: nat, skipSave: bool, requestSkip: bool): View
    requires (blocks.Listed? && blocks.entries != []) || (blocks.Grouped? && blocks.groups != [])
  {
    View(|prompt|, Take(prompt, compute), FirstTable(blocks), hits, false, skipSave, requestSkip)
  }

  function Updated(v: View, newTokens: seq<int>, u: BlockUpdate, preempted: bool, hits: nat, vllm: nat, all: Option<seq<int>>): View
    requires preempted ==> all.Some?
  {
    var table := Guarded(v.table, u, preempted);
    var decode := v.decode || |newTokens| == 1;
    if preempted then
      v.(table := table, saved := hits, decode := decode,
         tokens := Take(all.value, Max(Max(hits, vllm) + |newTokens|, hits)))
    else v.(table := table, decode := decode, tokens := v.tokens + newTokens)
  }

  /** vLLM reports fewer computed tokens than tracked. */
  function RolledBack(v: View, computed: nat, all: seq<int>, blockSize: nat): View {
    if computed < |v.tokens| then
      var slots := |v.table| * blockSize;
      var keep := if slots < computed then slots else computed;
      v.(tokens := Take(all, keep), saved := Min(v.saved, keep))
    else v
  }

  function SkipsSave(v: View, c: Config): bool
    requires c.chunk > 0
  {
    || v.skipSave
    || (v.saved > 0 && |v.tokens| < NextBoundary(v.saved, c.chunk))
    || (v.decode && !c.saveDecode)
    || v.requestSkip
  }

  function LengthToSave(v: View, c: Config): (n: nat)
    requires c.chunk > 0
    ensures n <= |v.tokens|
  {
    if |v.tokens| < v.promptLen || c.discardPartial then AlignDown(|v.tokens|, c.chunk) else |v.tokens|
  }

  function Emitted(v: View, c: Config, load: Option<LoadSpec>): (r: (View, Option<ReqMeta>))
    requires c.chunk > 0 && AllIds(v.table)
    ensures r.0 == v.(saved := r.0.saved)
  {
    if SkipsSave(v, c) && load.None? then (v, None)
    else
      var n := LengthToSave(v, c);
      var save := !SkipsSave(v, c);
      (if save then v.(saved := n) else v,
       Some(ReqMeta(v.tokens[..n], SlotMapping(IdsOf(v.table), c.blockSize, n), |v.tokens| >= v.promptLen,
                    SaveSpec(v.saved, save), load)))
  }

  // ---- the tracker object ----

  class RequestTracker {
    const promptLen: nat
    const skipSave: bool
    const requestSkip: bool
    var tokenIds: seq<int>
    var allocatedBlockIds: seq<Entry>
    var numSavedTokens: nat
    var isDecodePhase: bool

    ghost function State(): View
      reads this
    {
      View(promptLen, tokenIds, allocatedBlockIds, numSavedTokens, isDecodePhase, skipSave, requestSkip)
    }

    constructor FromNewRequest(prompt: seq<int>, blocks: BlockUpdate, numTokensToCompute: nat, lmcacheCached: nat,
                               skipSave: bool, requestSkip: bool)
      requires (blocks.Listed? && blocks.entries != []) || (blocks.Grouped? && blocks.groups != [])
      ensures State() == Started(prompt, blocks, numTokensToCompute, lmcacheCached, skipSave, requestSkip)
    {
      promptLen, this.skipSave, this.requestSkip := |prompt|, skipSave, requestSkip;
      tokenIds := Take(prompt, numTokensToCompute);
      allocatedBlockIds := FirstTable(blocks);
      numSavedTokens := lmcacheCached;
      isDecodePhase := false;
    }

    /** `RequestTracker.update` as upstream wrote it: block ids are always appended. */
    method UpdateUnguarded(newTokens: seq<int>, newBlocks: BlockUpdate, preempted: bool,
                           lmcacheCached: nat, vllmCached: nat, all: Option<seq<int>>)
      requires preempted ==> all.Some?
      modifies this
      ensures State() == Updated(old(State()), newTokens, newBlocks, preempted, lmcacheCached, vllmCached, all)
        .(table := if preempted then Ids(Carried(newBlocks)) else old(allocatedBlockIds) + Ids(Carried(newBlocks)))
    {
      var blockIds := Carried(newBlocks);
      if preempted {
        allocatedBlockIds := Ids(blockIds);
        numSavedTokens := lmcacheCached;
        var numComputed := Max(lmcacheCached, vllmCached);
        tokenIds := Take(all.value, Max(numComputed + |newTokens|, lmcacheCached));
      } else {
        allocatedBlockIds := allocatedBlockIds + Ids(blockIds);
        tokenIds := tokenIds + newTokens;
      }
      if |newTokens| == 1 {
        isDecodePhase := true;
      }
    }

    /** The update with the block-table guard installed over it. */
    method Update(newTokens: seq<int>, newBlocks: BlockUpdate, preempted: bool,
                  lmcacheCached: nat, vllmCached: nat, all: Option<seq<int>>)
      requires preempted ==> all.Some?
      modifies this
      ensures State() == Updated(old(State()), newTokens, newBlocks, preempted, lmcacheCached, vllmCached, all)
    {
      var oldBlocks := allocatedBlockIds;
      var incoming := Incoming(newBlocks);
      UpdateUnguarded(newTokens, newBlocks, preempted, lmcacheCached, vllmCached, all);
      if preempted || incoming.None? {
        return;
      }
      if oldBlocks <= incoming.value {
        allocatedBlockIds := incoming.value;
      }
    }

    /** Truncation when vLLM rolled the request back. */
    method RollBack(computed: nat, all: seq<int>, blockSize: nat)
      modifies this
      ensures State() == RolledBack(old(State()), computed, all, blockSize)
    {
      if computed < |tokenIds| {
        var numSlots := |allocatedBlockIds| * blockSize;
        var keep := computed;
        if numSlots < computed {
          keep := numSlots;
        }
        tokenIds := Take(all, keep);
        numSavedTokens := Min(numSavedTokens, keep);
      }
    }

    /** `ReqMeta.from_request_tracker` without disaggregation. */
    method BuildMeta(c: Config, load: Option<LoadSpec>) returns (meta: Option<ReqMeta>)
      requires c.chunk > 0 && AllIds(allocatedBlockIds)
      modifies this
      ensures (State(), meta) == Emitted(old(State()), c, load)
    {
      var skipLeading := numSavedTokens;
      var boundary := NextBoundary(numSavedTokens, c.chunk);
      var skip := skipSave || (numSavedTokens > 0 && |tokenIds| < boundary) || (isDecodePhase && !c.saveDecode) || requestSkip;
      if skip && load.None? {
        return None;
      }
      var lastPrefill := |tokenIds| >= promptLen;
      var n := |tokenIds|;
      if !lastPrefill || c.discardPartial {
        n := AlignDown(|tokenIds|, c.chunk);
      }
      if !skip {
        numSavedTokens := n;
      }
      return Some(ReqMeta(tokenIds[..n], SlotMapping(IdsOf(allocatedBlockIds), c.blockSize, n), lastPrefill,
                          SaveSpec(skipLeading, !skip), load));
    }
  }
}
