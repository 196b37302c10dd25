/** `LMCacheEngine.retrieve`: merging directly loaded chunks with fetched ones, and the
    reference counts of what was fetched. */
module TokenMerge {
  import opened Masks
  import opened Results

  type Key = nat
  type Obj = nat

  datatype Block = Block(key: Key, start: nat, end: nat)
  datatype Chunk = Chunk(key: Key, obj: Obj, start: nat, end: nat)

  /** One entry of the block mapping: its chunks, which of them direct I/O loaded, and the
      objects its backend can return (`batched_get` answers key by key). */
  datatype Location = Location(blocks: seq<Block>, direct: seq<bool>, contents: map<Key, Obj>)

  ghost predicate Legal(l: Location, len: nat) {
    && |l.direct| == |l.blocks|
    && forall i :: 0 <= i < |l.blocks| ==> l.blocks[i].start <= l.blocks[i].end <= len
  }

  function Get(contents: map<Key, Obj>, key: Key): Option<Obj> {
    if key in contents then Some(contents[key]) else None
  }

  lemma SumAssociates(a: multiset<Obj>, b: multiset<Obj>, c: multiset<Obj>)
    ensures (a + b) + c == a + (b + c)
  {
  }

  // ---- what one location contributes ----

  ghost predicate Failing(l: Location, i: nat)
    requires |l.direct| == |l.blocks| && i < |l.blocks|
  {
    !l.direct[i] && l.blocks[i].key !in l.contents
  }

  /** Index of the first block that is neither direct nor fetched, or the number of blocks. */
  ghost function FailAt(l: Location, from: nat): (n: nat)
    requires |l.direct| == |l.blocks| && from <= |l.blocks|
    ensures from <= n <= |l.blocks|
    ensures forall i :: from <= i < n ==> !Failing(l, i)
    ensures n < |l.blocks| ==> Failing(l, n)
    decreases |l.blocks| - from
  {
    if from == |l.blocks| || Failing(l, from) then from else FailAt(l, from + 1)
  }

  /** Blocks among the first n that have to be fetched. */
  function Fallback(l: Location, n: nat): (r: seq<Block>)
    requires |l.direct| == |l.blocks| && n <= |l.blocks|
    ensures |r| <= n
  {
    if n == 0 then []
    else Fallback(l, n - 1) + if l.direct[n - 1] then [] else [l.blocks[n - 1]]
  }

  ghost function MaskAfter(l: Location, n: nat, m: seq<bool>): (r: seq<bool>)
    requires |l.direct| == |l.blocks| && n <= |l.blocks|
    ensures |r| == |m|
  {
    if n == 0 then m else Marked(MaskAfter(l, n - 1, m), l.blocks[n - 1].start, l.blocks[n - 1].end)
  }

  /** Fetched chunks among the first n blocks, each with the object of its own key. */
  ghost function Kept(l: Location, n: nat): seq<Chunk>
    requires |l.direct| == |l.blocks| && n <= |l.blocks|
    requires forall i :: 0 <= i < n ==> !Failing(l, i)
  {
    if n == 0 then []
    else
      var b := l.blocks[n - 1];
      assert !Failing(l, n - 1);
      Kept(l, n - 1) + if l.direct[n - 1] then [] else [Chunk(b.key, l.contents[b.key], b.start, b.end)]
  }

  /** Objects fetched for a list of blocks. */
  ghost function Fetched(contents: map<Key, Obj>, blocks: seq<Block>): multiset<Obj> {
    if blocks == [] then multiset{}
    else
      var b := blocks[|blocks| - 1];
      Fetched(contents, blocks[..|blocks| - 1]) + if b.key in contents then multiset{contents[b.key]} else multiset{}
  }

  ghost function Objects(chunks: seq<Chunk>): multiset<Obj> {
    if chunks == [] then multiset{}
    else Objects(chunks[..|chunks| - 1]) + multiset{chunks[|chunks| - 1].obj}
  }

  lemma ObjectsAppend(chunks: seq<Chunk>, c: Chunk)
    ensures Objects(chunks + [c]) == Objects(chunks) + multiset{c.obj}
  {
    assert (chunks + [c])[..|chunks|] == chunks;
  }

  lemma FetchedAppend(contents: map<Key, Obj>, blocks: seq<Block>, b: Block)
    ensures Fetched(contents, blocks + [b])
         == Fetched(contents, blocks) + if b.key in contents then multiset{contents[b.key]} else multiset{}
  {
    assert (blocks + [b])[..|blocks|] == blocks;
  }

  lemma {:induction false} FetchedSplit(contents: map<Key, Obj>, a: seq<Block>, b: seq<Block>)
    ensures Fetched(contents, a + b) == Fetched(contents, a) + Fetched(contents, b)
  {
    if b == [] {
      assert a + b == a;
    } else {
      hide Fetched;
      var n := |b| - 1;
      FetchedSplit(contents, a, b[..n]);
      assert b == b[..n] + [b[n]] && a + b == (a + b[..n]) + [b[n]];
      FetchedAppend(contents, b[..n], b[n]);
      FetchedAppend(contents, a + b[..n], b[n]);
    }
  }

  /** The fetch list restricted to the first n blocks is a prefix of the whole list, and the
      next fetched block comes right after it: the running index stays aligned. */
  lemma {:induction false} FallbackAligned(l: Location, n: nat, m: nat)
    requires |l.direct| == |l.blocks| && n <= m <= |l.blocks|
    ensures Fallback(l, n) <= Fallback(l, m)
    ensures n < m && !l.direct[n] ==> |Fallback(l, n)| < |Fallback(l, m)| && Fallback(l, m)[|Fallback(l, n)|] == l.blocks[n]
  {
    if n < m {
      FallbackAligned(l, n, m - 1);
    }
  }

  lemma {:induction false} KeptIsFetched(l: Location, n: nat)
    requires |l.direct| == |l.blocks| && n <= |l.blocks|
    requires forall i :: 0 <= i < n ==> !Failing(l, i)
    ensures Objects(Kept(l, n)) == Fetched(l.contents, Fallback(l, n))
  {
    if n > 0 {
      KeptIsFetched(l, n - 1);
      assert !Failing(l, n - 1);
      if l.direct[n - 1] {
        assert Kept(l, n) == Kept(l, n - 1) && Fallback(l, n) == Fallback(l, n - 1);
      } else {
        var b := l.blocks[n - 1];
        ObjectsAppend(Kept(l, n - 1), Chunk(b.key, l.contents[b.key], b.start, b.end));
        FetchedAppend(l.contents, Fallback(l, n - 1), b);
      }
    }
  }

  /** Blocks from index `from` on that have to be fetched. */
  ghost function FallbackFrom(l: Location, from: nat): seq<Block>
    requires |l.direct| == |l.blocks| && from <= |l.blocks|
    decreases |l.blocks| - from
  {
    if from == |l.blocks| then []
    else (if l.direct[from] then [] else [l.blocks[from]]) + FallbackFrom(l, from + 1)
  }

  lemma {:induction false} FallbackSplits(l: Location, n: nat)
    requires |l.direct| == |l.blocks| && n <= |l.blocks|
    ensures Fallback(l, |l.blocks|) == Fallback(l, n) + FallbackFrom(l, n)
    decreases |l.blocks| - n
  {
    if n < |l.blocks| {
      FallbackSplits(l, n + 1);
    }
  }

  /** What comes after the failing block's entry in the fetch list, if anything failed. */
  lemma {:induction false} RestOfFetches(l: Location, n: nat)
    requires |l.direct| == |l.blocks| && n <= |l.blocks| && (n < |l.blocks| ==> !l.direct[n])
    ensures
      var all, k := Fallback(l, |l.blocks|), |Fallback(l, n)|;
      if n == |l.blocks| then k == |all| && all[k..] == []
      else k < |all| && all[k + 1..] == FallbackFrom(l, n + 1)
  {
    FallbackSplits(l, n);
  }

  /** No objects were fetched for an empty list. */
  lemma FetchedNothing(contents: map<Key, Obj>)
    ensures Fetched(contents, []) == multiset{}
  {
  }

  /** What the leftover loop releases: objects fetched for blocks after the failing one. */
  ghost function Leftover(l: Location): multiset<Obj>
    requires |l.direct| == |l.blocks|
  {
    var n := FailAt(l, 0);
    if n == |l.blocks| then multiset{} else Fetched(l.contents, FallbackFrom(l, n + 1))
  }

  /** The failed fetch splits the fetch list: the blocks before it, the block itself, the rest. */
  lemma {:induction false} FetchedAroundFailure(l: Location, n: nat)
    requires |l.direct| == |l.blocks| && n < |l.blocks| && Failing(l, n)
    ensures Fetched(l.contents, Fallback(l, |l.blocks|))
         == Fetched(l.contents, Fallback(l, n)) + Fetched(l.contents, FallbackFrom(l, n + 1))
  {
    FallbackSplits(l, n);
    var all, before, rest := Fallback(l, |l.blocks|), Fallback(l, n), FallbackFrom(l, n + 1);
    assert all == before + [l.blocks[n]] + rest;
    FetchedSplit(l.contents, before + [l.blocks[n]], rest);
    FetchedAppend(l.contents, before, l.blocks[n]);
  }

  /** Within a location every fetched object is either kept in one chunk or released once. */
  lemma {:induction false} LocationConserves(l: Location)
    requires |l.direct| == |l.blocks|
    ensures Fetched(l.contents, Fallback(l, |l.blocks|)) == Objects(Kept(l, FailAt(l, 0))) + Leftover(l)
  {
    var n := FailAt(l, 0);
    KeptIsFetched(l, n);
    if n < |l.blocks| {
      FetchedAroundFailure(l, n);
    }
  }

  /** Every kept chunk carries the object fetched for its own key and the bounds of its block. */
  lemma {:induction false} KeptIsPaired(l: Location, n: nat)
    requires |l.direct| == |l.blocks| && n <= |l.blocks|
    requires forall i :: 0 <= i < n ==> !Failing(l, i)
    ensures forall c :: c in Kept(l, n) ==>
      c.key in l.contents && c.obj == l.contents[c.key] && Block(c.key, c.start, c.end) in l.blocks[..n]
    ensures forall i :: 0 <= i < n && !l.direct[i] ==>
      exists o :: Get(l.contents, l.blocks[i].key) == Some(o) && Chunk(l.blocks[i].key, o, l.blocks[i].start, l.blocks[i].end) in Kept(l, n)
  {
    if n > 0 {
      KeptIsPaired(l, n - 1);
      assert l.blocks[..n] == l.blocks[..n - 1] + [l.blocks[n - 1]];
      assert !Failing(l, n - 1);
      if !l.direct[n - 1] {
        var b := l.blocks[n - 1];
        assert Kept(l, n)[|Kept(l, n - 1)|] == Chunk(b.key, l.contents[b.key], b.start, b.end);
      }
      forall i | 0 <= i < n - 1 && !l.direct[i]
        ensures exists o :: Get(l.contents, l.blocks[i].key) == Some(o) && Chunk(l.blocks[i].key, o, l.blocks[i].start, l.blocks[i].end) in Kept(l, n)
      {
        var o :| Get(l.contents, l.blocks[i].key) == Some(o) && Chunk(l.blocks[i].key, o, l.blocks[i].start, l.blocks[i].end) in Kept(l, n - 1);
      }
    }
  }

  /** Token p lies in one of the first n blocks. */
  ghost predicate InFirst(l: Location, n: nat, p: nat)
    requires n <= |l.blocks|
  {
    exists i :: 0 <= i < n && l.blocks[i].start <= p < l.blocks[i].end
  }

  lemma {:induction false} MaskIsUnion(l: Location, n: nat, m: seq<bool>, p: nat)
    requires |l.direct| == |l.blocks| && n <= |l.blocks| && p < |m|
    ensures MaskAfter(l, n, m)[p] <==> m[p] || InFirst(l, n, p)
  {
    if n > 0 {
      MaskIsUnion(l, n - 1, m, p);
      if InFirst(l, n - 1, p) {
        var i :| 0 <= i < n - 1 && l.blocks[i].start <= p < l.blocks[i].end;
        assert InFirst(l, n, p);
      }
    }
  }

  // ---- all locations ----

  datatype Merge = Merge(mask: seq<bool>, chunks: seq<Chunk>, released: multiset<Obj>, failed: Option<nat>)

  function Later(failed: Option<nat>, start: nat): Option<nat> {
    if failed.None? || failed.value < start then Some(start) else failed
  }

  ghost function AfterLocation(s: Merge, l: Location): Merge
    requires |l.direct| == |l.blocks|
  {
    var n := FailAt(l, 0);
    Merge(MaskAfter(l, n, s.mask), s.chunks + Kept(l, n), s.released + Leftover(l),
          if n < |l.blocks| then Later(s.failed, l.blocks[n].start) else s.failed)
  }

  ghost predicate Aligned(ls: seq<Location>) {
    forall i :: 0 <= i < |ls| ==> |ls[i].direct| == |ls[i].blocks|
  }

  ghost function AfterLocations(m: seq<bool>, ls: seq<Location>): (s: Merge)
    requires Aligned(ls)
    ensures |s.mask| == |m|
  {
    if ls == [] then Merge(m, [], multiset{}, None)
    else AfterLocation(AfterLocations(m, ls[..|ls| - 1]), ls[|ls| - 1])
  }

  /** The last location, after all the ones before it. */
  lemma AfterNext(m: seq<bool>, ls: seq<Location>)
    requires Aligned(ls) && ls != []
    ensures
      var before, l := AfterLocations(m, ls[..|ls| - 1]), ls[|ls| - 1];
      var n := FailAt(l, 0);
      && AfterLocations(m, ls).mask == MaskAfter(l, n, before.mask)
      && AfterLocations(m, ls).chunks == before.chunks + Kept(l, n)
      && AfterLocations(m, ls).released == before.released + Leftover(l)
      && AfterLocations(m, ls).failed == if FailStart(l).Some? then Later(before.failed, FailStart(l).value) else before.failed
  {
  }

  /** Chunks that survive the recorded failure: those ending strictly before it. */
  function Surviving(chunks: seq<Chunk>, failed: nat): seq<Chunk> {
    if chunks == [] then [] else
      var last := chunks[|chunks| - 1];
      Surviving(chunks[..|chunks| - 1], failed) + if last.end < failed then [last] else []
  }

  ghost function Finished(s: Merge): Merge {
    if s.failed.None? then s
    else s.(mask := seq(|s.mask|, p requires 0 <= p < |s.mask| => s.mask[p] && p < s.failed.value),
            chunks := Surviving(s.chunks, s.failed.value))
  }

  // ---- what the merge guarantees ----

  ghost function AllFetched(ls: seq<Location>): multiset<Obj>
    requires Aligned(ls)
  {
    if ls == [] then multiset{}
    else
      var l := ls[|ls| - 1];
      AllFetched(ls[..|ls| - 1]) + Fetched(l.contents, Fallback(l, |l.blocks|))
  }

  lemma SnocConcat(a: seq<Chunk>, rest: seq<Chunk>, last: Chunk)
    ensures a + (rest + [last]) == (a + rest) + [last]
  {
  }

  lemma {:induction false} ObjectsConcat(a: seq<Chunk>, b: seq<Chunk>)
    ensures Objects(a + b) == Objects(a) + Objects(b)
  {
    if b == [] {
      assert a + b == a;
    } else {
      hide Objects;
      var rest, last := b[..|b| - 1], b[|b| - 1];
      assert b == rest + [last];
      SnocConcat(a, rest, last);
      ObjectsConcat(a, rest);
      ObjectsAppend(rest, last);
      ObjectsAppend(a + rest, last);
      SumAssociates(Objects(a), Objects(rest), multiset{last.obj});
    }
  }

  /** Over all locations, fetched objects are kept or released, never both, never neither. */
  lemma {:induction false} MergeConserves(m: seq<bool>, ls: seq<Location>)
    requires Aligned(ls)
    ensures AllFetched(ls) == Objects(AfterLocations(m, ls).chunks) + AfterLocations(m, ls).released
  {
    if ls != [] {
      var before, l := AfterLocations(m, ls[..|ls| - 1]), ls[|ls| - 1];
      MergeConserves(m, ls[..|ls| - 1]);
      LocationConserves(l);
      ObjectsConcat(before.chunks, Kept(l, FailAt(l, 0)));
    }
  }

  /** The recorded start is at least every failing one. */
  lemma {:induction false} FailureBounds(m: seq<bool>, ls: seq<Location>, i: nat)
    requires Aligned(ls) && i < |ls| && FailStart(ls[i]).Some?
    ensures AfterLocations(m, ls).failed.Some?
    ensures FailStart(ls[i]).value <= AfterLocations(m, ls).failed.value
  {
    hide AfterLocations, FailStart;
    AfterNext(m, ls);
    if i < |ls| - 1 {
      assert ls[..|ls| - 1][i] == ls[i];
      FailureBounds(m, ls[..|ls| - 1], i);
    }
  }

  /** The recorded start is the start of a block that failed. */
  lemma {:induction false} FailureWitness(m: seq<bool>, ls: seq<Location>) returns (i: nat)
    requires Aligned(ls) && AfterLocations(m, ls).failed.Some?
    ensures i < |ls| && FailStart(ls[i]) == AfterLocations(m, ls).failed
  {
    i := |ls| - 1;
    if FailStart(ls[i]) != AfterLocations(m, ls).failed {
      i := FailureWitness(m, ls[..i]);
    }
  }

  ghost function FailStart(l: Location): Option<nat>
    requires |l.direct| == |l.blocks|
  {
    if FailAt(l, 0) < |l.blocks| then Some(l.blocks[FailAt(l, 0)].start) else None
  }

  ghost predicate InSome(ls: seq<Location>, p: nat) {
    exists i :: 0 <= i < |ls| && InFirst(ls[i], |ls[i].blocks|, p)
  }

  lemma {:induction false} InSomePrefix(ls: seq<Location>, p: nat)
    requires ls != []
    ensures InSome(ls, p) <==> InSome(ls[..|ls| - 1], p) || InFirst(ls[|ls| - 1], |ls[|ls| - 1].blocks|, p)
  {
    hide InFirst;
    var n := |ls| - 1;
    if i :| 0 <= i < |ls| && InFirst(ls[i], |ls[i].blocks|, p) && i < n {
      assert ls[..n][i] == ls[i];
    }
    if i :| 0 <= i < n && InFirst(ls[..n][i], |ls[..n][i].blocks|, p) {
      assert ls[..n][i] == ls[i];
    }
  }

  lemma {:induction false} MaskWithoutFailure(m: seq<bool>, ls: seq<Location>, p: nat)
    requires Aligned(ls) && p < |m| && forall i :: 0 <= i < |ls| ==> FailAt(ls[i], 0) == |ls[i].blocks|
    ensures AfterLocations(m, ls).mask[p] <==> m[p] || InSome(ls, p)
    ensures AfterLocations(m, ls).released == multiset{}
  {
    if ls == [] {
      assert !InSome(ls, p);
    } else {
      hide AfterLocations, InFirst, InSome, MaskAfter;
      var n := |ls| - 1;
      AfterNext(m, ls);
      MaskWithoutFailure(m, ls[..n], p);
      MaskIsUnion(ls[n], |ls[n].blocks|, AfterLocations(m, ls[..n]).mask, p);
      InSomePrefix(ls, p);
    }
  }

  /** With no failed fetch the mask is the union of the chunk intervals, every fetched
      object is kept, and nothing is dropped. */
  lemma CompleteWithoutFailure(m: seq<bool>, ls: seq<Location>)
    requires |m| > 0
    requires Aligned(ls) && forall i :: 0 <= i < |ls| ==> FailAt(ls[i], 0) == |ls[i].blocks|
    ensures
      var s := AfterLocations(m, ls);
      && Finished(s) == s && Objects(s.chunks) == AllFetched(ls)
      && forall p: nat :: p < |m| ==> (s.mask[p] <==> m[p] || InSome(ls, p))
  {
    if AfterLocations(m, ls).failed.Some? {
      var i := FailureWitness(m, ls);
    }
    MergeConserves(m, ls);
    forall p: nat | p < |m|
      ensures AfterLocations(m, ls).mask[p] <==> m[p] || InSome(ls, p)
    {
      MaskWithoutFailure(m, ls, p);
    }
    MaskWithoutFailure(m, ls, 0);
  }

  lemma {:induction false} SurvivingEnds(chunks: seq<Chunk>, failed: nat)
    ensures forall c :: c in Surviving(chunks, failed) <==> c in chunks && c.end < failed
  {
    if chunks != [] {
      var n := |chunks| - 1;
      SurvivingEnds(chunks[..n], failed);
      assert chunks == chunks[..n] + [chunks[n]];
    }
  }

  lemma {:induction false} ObjectsCount(chunks: seq<Chunk>)
    ensures |Objects(chunks)| == |chunks|
  {
    if chunks != [] {
      ObjectsCount(chunks[..|chunks| - 1]);
    }
  }

  /** Every chunk ends strictly before the failure. */
  ghost predicate AllBefore(chunks: seq<Chunk>, failed: nat) {
    forall i :: 0 <= i < |chunks| ==> chunks[i].end < failed
  }

  lemma AllBeforeAppend(chunks: seq<Chunk>, c: Chunk, failed: nat)
    ensures AllBefore(chunks + [c], failed) <==> AllBefore(chunks, failed) && c.end < failed
  {
    var all := chunks + [c];
    assert all[|chunks|] == c;
    forall i | 0 <= i < |chunks| && AllBefore(all, failed) ensures chunks[i].end < failed {
      assert all[i] == chunks[i];
    }
  }

  lemma {:induction false} SurvivingCount(chunks: seq<Chunk>, failed: nat)
    ensures |Surviving(chunks, failed)| <= |chunks|
    ensures |Surviving(chunks, failed)| == |chunks| <==> AllBefore(chunks, failed)
    ensures AllBefore(chunks, failed) ==> Surviving(chunks, failed) == chunks
  {
    if chunks != [] {
      hide Surviving, AllBefore;
      var rest, last := chunks[..|chunks| - 1], chunks[|chunks| - 1];
      assert chunks == rest + [last];
      SurvivingCount(rest, failed);
      SurvivingAppend(rest, last, failed);
      AllBeforeAppend(rest, last, failed);
    }
  }

  /** After a failed fetch nothing at or beyond the recorded start stays marked or loaded. */
  lemma FailureCutsOff(m: seq<bool>, ls: seq<Location>)
    requires Aligned(ls) && AfterLocations(m, ls).failed.Some?
    ensures
      var s := AfterLocations(m, ls);
      && (forall p :: s.failed.value <= p < |m| ==> !Finished(s).mask[p])
      && (forall c :: c in Finished(s).chunks ==> c in s.chunks && c.end < s.failed.value)
  {
    SurvivingEnds(AfterLocations(m, ls).chunks, AfterLocations(m, ls).failed.value);
  }

  /** Failures in several locations: the latest start is the one recorded, so a chunk survives
      exactly when it ends before some failing block, not before all of them. */
  lemma {:induction false} OnlyLastFailureCuts(m: seq<bool>, ls: seq<Location>, c: Chunk)
    requires Aligned(ls) && AfterLocations(m, ls).failed.Some? && c in AfterLocations(m, ls).chunks
    ensures c in Finished(AfterLocations(m, ls)).chunks
      <==> exists i :: 0 <= i < |ls| && FailStart(ls[i]).Some? && c.end < FailStart(ls[i]).value
  {
    hide AfterLocations, FailStart;
    var s := AfterLocations(m, ls);
    SurvivingEnds(s.chunks, s.failed.value);
    var last := FailureWitness(m, ls);
    assert FailStart(ls[last]) == s.failed;
    if i: nat :| i < |ls| && FailStart(ls[i]).Some? && c.end < FailStart(ls[i]).value {
      FailureBounds(m, ls, i);
    }
  }

  /** Chunks dropped by the cut are never released. */
  lemma ReleasedIfKept(m: seq<bool>, ls: seq<Location>)
    requires Aligned(ls)
    ensures
      var s := AfterLocations(m, ls);
      s.released + Objects(Finished(s).chunks) == AllFetched(ls) <==>
        s.failed.None? || AllBefore(s.chunks, s.failed.value)
  {
    var s := AfterLocations(m, ls);
    MergeConserves(m, ls);
    if s.failed.Some? {
      SurvivingCount(s.chunks, s.failed.value);
      ObjectsCount(s.chunks);
      ObjectsCount(Finished(s).chunks);
      assert |s.released + Objects(Finished(s).chunks)| == |s.released| + |Objects(Finished(s).chunks)|;
      assert |Objects(s.chunks) + s.released| == |Objects(s.chunks)| + |s.released|;
    }
  }

  /** Chunks of one request in token order without gaps, as the token database yields them. */
  ghost predicate Contiguous(l: Location) {
    && (forall i :: 0 <= i < |l.blocks| ==> l.blocks[i].start < l.blocks[i].end)
    && (forall i, j :: 0 <= i < j < |l.blocks| && j == i + 1 ==> l.blocks[i].end == l.blocks[j].start)
  }

  lemma {:induction false} ContiguousOrder(l: Location, i: nat, j: nat)
    requires Contiguous(l) && i < j < |l.blocks|
    ensures l.blocks[i].end <= l.blocks[j].start
  {
    if i + 1 < j {
      ContiguousOrder(l, i, j - 1);
      assert l.blocks[j - 1].end == l.blocks[j].start;
    }
  }

  lemma {:induction false} SurvivingAll(l: Location, n: nat, failed: nat)
    requires |l.direct| == |l.blocks| && n <= |l.blocks| && forall i :: 0 <= i < n ==> !Failing(l, i)
    requires forall i :: 0 <= i < n ==> l.blocks[i].end < failed
    ensures Surviving(Kept(l, n), failed) == Kept(l, n)
  {
    if n > 0 {
      SurvivingAll(l, n - 1, failed);
      assert !Failing(l, n - 1);
      if !l.direct[n - 1] {
        var b := l.blocks[n - 1];
        SurvivingAppend(Kept(l, n - 1), Chunk(b.key, l.contents[b.key], b.start, b.end), failed);
      } else {
        assert Kept(l, n) == Kept(l, n - 1);
      }
    }
  }

  lemma SurvivingAppend(chunks: seq<Chunk>, c: Chunk, failed: nat)
    ensures Surviving(chunks + [c], failed) == Surviving(chunks, failed) + if c.end < failed then [c] else []
  {
    assert (chunks + [c])[..|chunks|] == chunks;
  }

  lemma {:induction false} CoveredRange(l: Location, n: nat, p: nat)
    requires Contiguous(l) && n < |l.blocks|
    ensures InFirst(l, n, p) <==> l.blocks[0].start <= p < l.blocks[n].start
  {
    if n > 0 {
      CoveredRange(l, n - 1, p);
      assert l.blocks[n - 1].end == l.blocks[n].start;
      if n > 1 {
        ContiguousOrder(l, 0, n - 1);
      }
      if InFirst(l, n - 1, p) {
        var i :| 0 <= i < n - 1 && l.blocks[i].start <= p < l.blocks[i].end;
        assert InFirst(l, n, p);
      }
    }
  }

  /** The chunk kept for block n - 1, if it was fetched. */
  ghost function LastKept(l: Location, n: nat): (r: seq<Chunk>)
    requires |l.direct| == |l.blocks| && 0 < n <= |l.blocks| && !Failing(l, n - 1)
    ensures r == [] <==> l.direct[n - 1]
    ensures forall c :: c in r ==> c.end == l.blocks[n - 1].end
  {
    var b := l.blocks[n - 1];
    if l.direct[n - 1] then [] else [Chunk(b.key, l.contents[b.key], b.start, b.end)]
  }

  lemma SurvivingLast(chunks: seq<Chunk>, last: seq<Chunk>, failed: nat)
    requires |last| <= 1 && forall c :: c in last ==> c.end >= failed
    ensures Surviving(chunks + last, failed) == Surviving(chunks, failed)
  {
    if last == [] {
      assert chunks + last == chunks;
    } else {
      assert last == [last[0]];
      SurvivingAppend(chunks, last[0], failed);
    }
  }

  /** What survives of one location whose fetch failed at block n. */
  lemma {:induction false} NeighbourDropped(l: Location)
    requires |l.direct| == |l.blocks| && Contiguous(l) && FailAt(l, 0) < |l.blocks|
    ensures
      var n := FailAt(l, 0);
      && Surviving(Kept(l, n), l.blocks[n].start) == Kept(l, if n == 0 then 0 else n - 1)
      && (Kept(l, n) == Kept(l, if n == 0 then 0 else n - 1) <==> n == 0 || l.direct[n - 1])
  {
    var n := FailAt(l, 0);
    var f := l.blocks[n].start;
    if n > 0 {
      assert l.blocks[n - 1].end == f;
      forall i | 0 <= i < n - 1 ensures l.blocks[i].end < f {
        ContiguousOrder(l, i, n - 1);
      }
      SurvivingAll(l, n - 1, f);
      assert !Failing(l, n - 1);
      assert Kept(l, n) == Kept(l, n - 1) + LastKept(l, n);
      SurvivingLast(Kept(l, n - 1), LastKept(l, n), f);
    }
  }

  lemma {:induction false} SingleLocation(m: seq<bool>, l: Location)
    requires |l.direct| == |l.blocks|
    ensures AfterLocations(m, [l]) == Merge(MaskAfter(l, FailAt(l, 0), m), Kept(l, FailAt(l, 0)), Leftover(l), FailStart(l))
  {
    assert [l][..0] == [] && [l][0] == l;
    assert AfterLocations(m, []) == Merge(m, [], multiset{}, None);
    assert [] + Kept(l, FailAt(l, 0)) == Kept(l, FailAt(l, 0));
  }

  lemma MaskAfterFailure(m: seq<bool>, l: Location, p: nat)
    requires |l.direct| == |l.blocks| && Contiguous(l) && FailAt(l, 0) < |l.blocks| && p < |m| && !m[p]
    ensures MaskAfter(l, FailAt(l, 0), m)[p] <==> l.blocks[0].start <= p < l.blocks[FailAt(l, 0)].start
  {
    MaskIsUnion(l, FailAt(l, 0), m, p);
    CoveredRange(l, FailAt(l, 0), p);
  }

  ghost predicate Unmarked(m: seq<bool>) {
    forall p :: 0 <= p < |m| ==> !m[p]
  }

  /** The mask and the chunks of a request whose only location failed at block n. */
  ghost predicate StopsBefore(done: Merge, l: Location, n: nat)
    requires |l.direct| == |l.blocks| && n < |l.blocks| && forall i :: 0 <= i < n ==> !Failing(l, i)
  {
    && done.chunks == Kept(l, if n == 0 then 0 else n - 1)
    && forall p: nat :: p < |done.mask| ==> (done.mask[p] <==> l.blocks[0].start <= p < l.blocks[n].start)
  }

  lemma {:induction false} SingleFailure(m: seq<bool>, l: Location, s: Merge)
    requires |l.direct| == |l.blocks| && Contiguous(l) && FailAt(l, 0) < |l.blocks| && Unmarked(m)
    requires s.mask == MaskAfter(l, FailAt(l, 0), m) && s.chunks == Kept(l, FailAt(l, 0)) && s.failed == FailStart(l)
    ensures StopsBefore(Finished(s), l, FailAt(l, 0))
  {
    hide MaskAfter, Kept, Surviving;
    NeighbourDropped(l);
    forall p: nat | p < |m| ensures s.mask[p] <==> l.blocks[0].start <= p < l.blocks[FailAt(l, 0)].start {
      MaskAfterFailure(m, l, p);
    }
  }

  /** One location, a failed fetch at block n: the filter also drops the fetched chunk that
      ends exactly where the failure starts, although its tokens stay marked. Every marked
      token is loaded, and nothing leaks, exactly when n is the first block or block n - 1
      was loaded directly. */
  lemma {:induction false} FailureDropsNeighbour(m: seq<bool>, l: Location)
    requires |l.direct| == |l.blocks| && Contiguous(l) && FailAt(l, 0) < |l.blocks| && Unmarked(m)
    ensures StopsBefore(Finished(AfterLocations(m, [l])), l, FailAt(l, 0))
    ensures Finished(AfterLocations(m, [l])).chunks == Kept(l, FailAt(l, 0))
      <==> FailAt(l, 0) == 0 || l.direct[FailAt(l, 0) - 1]
  {
    SingleLocation(m, l);
    SingleFailure(m, l, AfterLocations(m, [l]));
    NeighbourDropped(l);
  }

  // ---- the engine ----

  class CacheEngine {
    /** Every `ref_count_down` so far. */
    ghost var released: multiset<Obj>
    var healthy: bool

    method RefCountDown(obj: Obj)
      modifies this`released
      ensures released == old(released) + multiset{obj}
    {
      released := released + multiset{obj};
    }

    /** `ret_mask[start:end] = True` */
    method MarkRange(retMask: array<bool>, start: nat, end: nat)
      requires start <= end <= retMask.Length
      modifies retMask
      ensures retMask[..] == Marked(old(retMask[..]), start, end)
    {
      forall p | start <= p < end {
        retMask[p] := true;
      }
    }

    /** The loop over one location's blocks: direct chunks are marked, the others take the
        fetched objects in order; the first missing object stops it. */
    method MergeBlocks(l: Location, objs: seq<Option<Obj>>, retMask: array<bool>)
      returns (kept: seq<Chunk>, failedStart: Option<nat>, fallbackIndex: nat)
      requires Legal(l, retMask.Length) && |objs| == |Fallback(l, |l.blocks|)|
      requires forall j :: 0 <= j < |objs| ==> objs[j] == Get(l.contents, Fallback(l, |l.blocks|)[j].key)
      modifies retMask
      ensures retMask[..] == MaskAfter(l, FailAt(l, 0), old(retMask[..]))
      ensures kept == Kept(l, FailAt(l, 0))
      ensures failedStart == FailStart(l)
      ensures fallbackIndex == |Fallback(l, FailAt(l, 0))| + (if failedStart.Some? then 1 else 0) <= |objs|
    {
      fallbackIndex, kept, failedStart := 0, [], None;
      ghost var fails := FailAt(l, 0);
      for i := 0 to |l.blocks|
        invariant i <= fails
        invariant fallbackIndex == |Fallback(l, i)|
        invariant retMask[..] == MaskAfter(l, i, old(retMask[..]))
        invariant kept == Kept(l, i)
      {
        var block := l.blocks[i];
        FallbackAligned(l, i, |l.blocks|);
        if !l.direct[i] {
          var obj := objs[fallbackIndex];
          fallbackIndex := fallbackIndex + 1;
          if obj.None? {
            assert Failing(l, i);
            failedStart := Some(block.start);
            return;
          }
          kept := kept + [Chunk(block.key, obj.value, block.start, block.end)];
        }
        assert !Failing(l, i);
        MarkRange(retMask, block.start, block.end);
      }
      FallbackAligned(l, fails, |l.blocks|);
    }

    /** The leftover loop: whatever was fetched after the missing object is released. */
    method ReleaseRest(l: Location, blocks: seq<Block>, objs: seq<Option<Obj>>, from: nat)
      requires |objs| == |blocks| && from <= |objs|
      requires forall j :: 0 <= j < |objs| ==> objs[j] == Get(l.contents, blocks[j].key)
      modifies this`released
      ensures released == old(released) + Fetched(l.contents, blocks[from..])
    {
      hide Fetched;
      FetchedNothing(l.contents);
      ghost var rest := blocks[from..];
      for j := from to |objs|
        invariant released == old(released) + Fetched(l.contents, rest[..j - from])
      {
        assert rest[..j + 1 - from] == rest[..j - from] + [blocks[j]];
        FetchedAppend(l.contents, rest[..j - from], blocks[j]);
        if objs[j].Some? {
          SumAssociates(old(released), Fetched(l.contents, rest[..j - from]), multiset{objs[j].value});
          RefCountDown(objs[j].value);
        }
      }
      assert rest[..|objs| - from] == rest;
    }

    method ProcessLocation(l: Location, retMask: array<bool>, chunks: seq<Chunk>, failed: Option<nat>)
      returns (outChunks: seq<Chunk>, outFailed: Option<nat>)
      requires Legal(l, retMask.Length)
      modifies this`released, retMask
      ensures Merge(retMask[..], outChunks, released, outFailed)
           == AfterLocation(Merge(old(retMask[..]), chunks, old(released), failed), l)
    {
      hide MaskAfter, Kept, Fetched, FallbackFrom, Fallback, FailAt;
      var blocks := Fallback(l, |l.blocks|);
      var objs := seq(|blocks|, j requires 0 <= j < |blocks| => Get(l.contents, blocks[j].key));
      var kept, failedStart, fallbackIndex := MergeBlocks(l, objs, retMask);
      outChunks := chunks + kept;
      outFailed := if failedStart.Some? then Later(failed, failedStart.value) else failed;
      ReleaseRest(l, blocks, objs, fallbackIndex);
      RestOfFetches(l, FailAt(l, 0));
      FetchedNothing(l.contents);
    }

    /** `ret_mask[start:] = False` */
    method UnmarkFrom(retMask: array<bool>, start: nat)
      modifies retMask
      ensures retMask[..] == seq(retMask.Length, p requires 0 <= p < retMask.Length => old(retMask[p]) && p < start)
    {
      forall p | start <= p < retMask.Length {
        retMask[p] := false;
      }
    }

    /** The loop over the block mapping. */
    method ProcessLocations(ls: seq<Location>, retMask: array<bool>) returns (chunks: seq<Chunk>, failed: Option<nat>)
      requires Aligned(ls) && forall i :: 0 <= i < |ls| ==> Legal(ls[i], retMask.Length)
      modifies this`released, retMask
      ensures
        var s := AfterLocations(old(retMask[..]), ls);
        retMask[..] == s.mask && chunks == s.chunks && failed == s.failed && released == old(released) + s.released
    {
      chunks, failed := [], None;
      for i := 0 to |ls|
        invariant
          var s := AfterLocations(old(retMask[..]), ls[..i]);
          retMask[..] == s.mask && chunks == s.chunks && failed == s.failed && released == old(released) + s.released
      {
        assert ls[..i + 1][..i] == ls[..i] && ls[..i + 1][i] == ls[i];
        SumAssociates(old(released), AfterLocations(old(retMask[..]), ls[..i]).released, Leftover(ls[i]));
        chunks, failed := ProcessLocation(ls[i], retMask, chunks, failed);
      }
      assert ls[..|ls|] == ls;
    }

    method ProcessTokensInternal(ls: seq<Location>, retMask: array<bool>) returns (chunks: seq<Chunk>)
      requires Aligned(ls) && forall i :: 0 <= i < |ls| ==> Legal(ls[i], retMask.Length)
      modifies this`released, retMask
      ensures
        var s := Finished(AfterLocations(old(retMask[..]), ls));
        retMask[..] == s.mask && chunks == s.chunks && released == old(released) + s.released
    {
      var failed;
      chunks, failed := ProcessLocations(ls, retMask);
      if failed.Some? {
        UnmarkFrom(retMask, failed.value);
        chunks := Surviving(chunks, failed.value);
      }
    }

    method ReleaseChunks(chunks: seq<Chunk>)
      modifies this`released
      ensures released == old(released) + Objects(chunks)
    {
      for i := 0 to |chunks|
        invariant released == old(released) + Objects(chunks[..i])
      {
        assert chunks[..i + 1] == chunks[..i] + [chunks[i]];
        ObjectsAppend(chunks[..i], chunks[i]);
        SumAssociates(old(released), Objects(chunks[..i]), multiset{chunks[i].obj});
        RefCountDown(chunks[i].obj);
      }
      assert chunks[..|chunks|] == chunks;
    }

    /** `retrieve`: after the chunks were handed to the GPU connector each one's object is
        released. An unhealthy engine returns an empty mask and touches nothing. */
    method Retrieve(ls: seq<Location>, numTokens: nat) returns (retMask: array<bool>, loaded: seq<Chunk>)
      requires Aligned(ls) && forall i :: 0 <= i < |ls| ==> Legal(ls[i], numTokens)
      modifies this`released
      ensures fresh(retMask) && retMask.Length == numTokens
      ensures !healthy ==> retMask[..] == seq(numTokens, i => false) && loaded == [] && released == old(released)
      ensures healthy ==>
        var s := Finished(AfterLocations(seq(numTokens, i => false), ls));
        retMask[..] == s.mask && loaded == s.chunks && released == old(released) + s.released + Objects(loaded)
    {
      retMask := new bool[numTokens](i => false);
      assert retMask[..] == seq(numTokens, i => false);
      if !healthy {
        return retMask, [];
      }
      loaded := ProcessTokensInternal(ls, retMask);
      ReleaseChunks(loaded);
    }
  }
}
