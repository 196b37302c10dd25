/** The merge of one request's chunks split over several locations. */
module MergedLocations {
  import opened Results
  import opened TokenMerge

  /** Location i processed a block that holds token p. */
  ghost predicate ProcessedAt(ls: seq<Location>, i: nat, p: nat)
    requires Aligned(ls)
  {
    i < |ls| && InFirst(ls[i], FailAt(ls[i], 0), p)
  }

  ghost predicate Processed(ls: seq<Location>, p: nat)
    requires Aligned(ls)
  {
    exists i: nat :: ProcessedAt(ls, i, p)
  }

  lemma {:induction false} ProcessedPrefix(ls: seq<Location>, p: nat)
    requires Aligned(ls) && ls != []
    ensures Processed(ls, p) <==> Processed(ls[..|ls| - 1], p) || ProcessedAt(ls, |ls| - 1, p)
  {
    hide InFirst;
    var n := |ls| - 1;
    if i: nat :| ProcessedAt(ls, i, p) && i < n {
      assert ls[..n][i] == ls[i] && ProcessedAt(ls[..n], i, p);
    }
    if i: nat :| ProcessedAt(ls[..n], i, p) {
      assert ls[..n][i] == ls[i] && ProcessedAt(ls, i, p);
    }
  }

  /** Before the cut a token is marked exactly when some location processed a block with it. */
  lemma {:induction false} MaskOfLocations(m: seq<bool>, ls: seq<Location>, p: nat)
    requires Aligned(ls) && p < |m|
    ensures AfterLocations(m, ls).mask[p] <==> m[p] || Processed(ls, p)
  {
    if ls == [] {
      assert !Processed(ls, p);
    } else {
      hide AfterLocations, InFirst, MaskAfter, Processed;
      var n := |ls| - 1;
      AfterNext(m, ls);
      MaskOfLocations(m, ls[..n], p);
      MaskIsUnion(ls[n], FailAt(ls[n], 0), AfterLocations(m, ls[..n]).mask, p);
      ProcessedPrefix(ls, p);
    }
  }

  ghost predicate KeptAt(ls: seq<Location>, i: nat, c: Chunk)
    requires Aligned(ls)
  {
    i < |ls| && c in Kept(ls[i], FailAt(ls[i], 0))
  }

  ghost predicate KeptBySome(ls: seq<Location>, c: Chunk)
    requires Aligned(ls)
  {
    exists i: nat :: KeptAt(ls, i, c)
  }

  lemma {:induction false} KeptPrefix(ls: seq<Location>, c: Chunk)
    requires Aligned(ls) && ls != []
    ensures KeptBySome(ls, c) <==> KeptBySome(ls[..|ls| - 1], c) || KeptAt(ls, |ls| - 1, c)
  {
    hide Kept;
    var n := |ls| - 1;
    if i: nat :| KeptAt(ls, i, c) && i < n {
      assert ls[..n][i] == ls[i] && KeptAt(ls[..n], i, c);
    }
    if i: nat :| KeptAt(ls[..n], i, c) {
      assert ls[..n][i] == ls[i] && KeptAt(ls, i, c);
    }
  }

  lemma {:induction false} ChunksOfLocations(m: seq<bool>, ls: seq<Location>, c: Chunk)
    requires Aligned(ls)
    ensures c in AfterLocations(m, ls).chunks <==> KeptBySome(ls, c)
  {
    if ls == [] {
      assert !KeptBySome(ls, c);
    } else {
      hide AfterLocations, Kept, KeptBySome;
      AfterNext(m, ls);
      ChunksOfLocations(m, ls[..|ls| - 1], c);
      KeptPrefix(ls, c);
    }
  }

  predicate HasBlock(ls: seq<Location>, i: nat, a: nat) {
    i < |ls| && a < |ls[i].blocks|
  }

  predicate Covers(b: Block, p: nat) {
    b.start <= p < b.end
  }

  /** The block mapping splits one request's chunks, in token order, over the locations. */
  ghost predicate Split(ls: seq<Location>, len: nat) {
    && (forall i: nat, a: nat :: HasBlock(ls, i, a) ==> ls[i].blocks[a].start < ls[i].blocks[a].end <= len)
    && (forall i: nat, a: nat, j: nat, b: nat :: HasBlock(ls, i, a) && HasBlock(ls, j, b) && (i < j || (i == j && a < b))
          ==> ls[i].blocks[a].end <= ls[j].blocks[b].start)
  }

  /** Block a of location i was processed and had to be fetched. */
  ghost predicate FetchedBlock(ls: seq<Location>, i: nat, a: nat)
    requires Aligned(ls)
  {
    HasBlock(ls, i, a) && a < FailAt(ls[i], 0) && !ls[i].direct[a]
  }

  ghost predicate DirectBlock(ls: seq<Location>, i: nat, a: nat)
    requires Aligned(ls)
  {
    HasBlock(ls, i, a) && a < FailAt(ls[i], 0) && ls[i].direct[a]
  }

  /** Token p was loaded directly or lies in a chunk handed to the connector. */
  ghost predicate LoadedToken(ls: seq<Location>, chunks: seq<Chunk>, p: nat)
    requires Aligned(ls)
  {
    || (exists c :: c in chunks && c.start <= p < c.end)
    || (exists i: nat, a: nat :: DirectBlock(ls, i, a) && Covers(ls[i].blocks[a], p))
  }

  /** A fetched block is kept as a chunk with its bounds, and every kept chunk is one. */
  lemma {:induction false} KeptOfBlock(m: seq<bool>, ls: seq<Location>, i: nat, a: nat) returns (c: Chunk)
    requires Aligned(ls) && FetchedBlock(ls, i, a)
    ensures c in AfterLocations(m, ls).chunks && c.start == ls[i].blocks[a].start && c.end == ls[i].blocks[a].end
  {
    hide AfterLocations, Kept;
    var b := ls[i].blocks[a];
    KeptIsPaired(ls[i], FailAt(ls[i], 0));
    var o :| Get(ls[i].contents, b.key) == Some(o) && Chunk(b.key, o, b.start, b.end) in Kept(ls[i], FailAt(ls[i], 0));
    c := Chunk(b.key, o, b.start, b.end);
    assert KeptAt(ls, i, c);
    ChunksOfLocations(m, ls, c);
  }

  lemma {:induction false} BlockOfKept(m: seq<bool>, ls: seq<Location>, c: Chunk) returns (i: nat, a: nat)
    requires Aligned(ls) && c in AfterLocations(m, ls).chunks
    ensures FetchedBlock(ls, i, a) && c.start == ls[i].blocks[a].start && c.end == ls[i].blocks[a].end
  {
    hide AfterLocations;
    ChunksOfLocations(m, ls, c);
    i :| KeptAt(ls, i, c);
    a := BlockOfKeptIn(ls[i], FailAt(ls[i], 0), c);
  }

  lemma {:induction false} BlockOfKeptIn(l: Location, n: nat, c: Chunk) returns (a: nat)
    requires |l.direct| == |l.blocks| && n <= |l.blocks| && forall i :: 0 <= i < n ==> !Failing(l, i)
    requires c in Kept(l, n)
    ensures a < n && !l.direct[a] && c.start == l.blocks[a].start && c.end == l.blocks[a].end
  {
    a := n - 1;
    assert !Failing(l, a);
    if c in Kept(l, a) {
      a := BlockOfKeptIn(l, a, c);
    }
  }

  /** The block whose missing object set the recorded start. */
  lemma {:induction false} RecordedBlock(m: seq<bool>, ls: seq<Location>) returns (i: nat)
    requires Aligned(ls) && AfterLocations(m, ls).failed.Some?
    ensures i < |ls| && HasBlock(ls, i, FailAt(ls[i], 0)) && ls[i].blocks[FailAt(ls[i], 0)].start == AfterLocations(m, ls).failed.value
  {
    hide AfterLocations;
    i := FailureWitness(m, ls);
  }

  /** In a split mapping a processed block lies wholly before the recorded failure or after it. */
  lemma {:induction false} ProcessedApart(m: seq<bool>, ls: seq<Location>, i: nat, a: nat)
    requires Aligned(ls) && Split(ls, |m|) && AfterLocations(m, ls).failed.Some?
    requires HasBlock(ls, i, a) && a < FailAt(ls[i], 0)
    ensures ls[i].blocks[a].end <= AfterLocations(m, ls).failed.value || ls[i].blocks[a].start > AfterLocations(m, ls).failed.value
  {
    hide AfterLocations, FailAt;
    var f := RecordedBlock(m, ls);
    assert HasBlock(ls, f, FailAt(ls[f], 0));
  }

  /** Some fetched block ends exactly where the recorded failure starts. */
  ghost predicate NeighbourFetched(ls: seq<Location>, f: nat)
    requires Aligned(ls)
  {
    exists i: nat, a: nat :: FetchedBlock(ls, i, a) && ls[i].blocks[a].end == f
  }

  /** Only one block of a split mapping covers a token. */
  lemma {:induction false} SameBlock(ls: seq<Location>, len: nat, i: nat, a: nat, j: nat, b: nat, p: nat)
    requires Split(ls, len) && HasBlock(ls, i, a) && HasBlock(ls, j, b)
    ensures Covers(ls[i].blocks[a], p) && Covers(ls[j].blocks[b], p) ==> i == j && a == b
  {
  }

  lemma {:induction false} NeighbourNotLoaded(m: seq<bool>, ls: seq<Location>, i: nat, a: nat, p: nat)
    requires Aligned(ls) && Split(ls, |m|) && AfterLocations(m, ls).failed.Some? && FetchedBlock(ls, i, a)
    requires ls[i].blocks[a].end == AfterLocations(m, ls).failed.value && Covers(ls[i].blocks[a], p)
    ensures !LoadedToken(ls, Finished(AfterLocations(m, ls)).chunks, p)
  {
    hide AfterLocations, FailAt;
    var s := AfterLocations(m, ls);
    SurvivingEnds(s.chunks, s.failed.value);
    assert HasBlock(ls, i, a);
    forall c | c in Finished(s).chunks ensures !(c.start <= p < c.end) {
      var j, b := BlockOfKept(m, ls, c);
      SameBlock(ls, |m|, i, a, j, b, p);
    }
    forall j: nat, b: nat | DirectBlock(ls, j, b) ensures !Covers(ls[j].blocks[b], p) {
      SameBlock(ls, |m|, i, a, j, b, p);
    }
  }

  lemma {:induction false} OthersLoaded(m: seq<bool>, ls: seq<Location>, p: nat)
    requires Aligned(ls) && Split(ls, |m|) && Unmarked(m) && AfterLocations(m, ls).failed.Some? && p < |m|
    requires !NeighbourFetched(ls, AfterLocations(m, ls).failed.value) && Finished(AfterLocations(m, ls)).mask[p]
    ensures LoadedToken(ls, Finished(AfterLocations(m, ls)).chunks, p)
  {
    hide AfterLocations, FailAt, Split;
    var s := AfterLocations(m, ls);
    MaskOfLocations(m, ls, p);
    var i: nat :| ProcessedAt(ls, i, p);
    var a: nat :| a < FailAt(ls[i], 0) && ls[i].blocks[a].start <= p < ls[i].blocks[a].end;
    if ls[i].direct[a] {
      assert DirectBlock(ls, i, a) && Covers(ls[i].blocks[a], p);
    } else {
      ProcessedApart(m, ls, i, a);
      assert FetchedBlock(ls, i, a);
      var c := KeptOfBlock(m, ls, i, a);
      SurvivingEnds(s.chunks, s.failed.value);
    }
  }

  /** However the chunks are split over locations and wherever fetches fail: every marked
      token is loaded exactly when no fetched block ends where the recorded failure starts. */
  lemma {:induction false} MarkedIsLoadedExact(m: seq<bool>, ls: seq<Location>)
    requires Aligned(ls) && Split(ls, |m|) && Unmarked(m) && AfterLocations(m, ls).failed.Some?
    ensures
      var done := Finished(AfterLocations(m, ls));
      (forall p: nat :: p < |m| && done.mask[p] ==> LoadedToken(ls, done.chunks, p))
      <==> !NeighbourFetched(ls, AfterLocations(m, ls).failed.value)
  {
    hide AfterLocations, LoadedToken;
    var s := AfterLocations(m, ls);
    if NeighbourFetched(ls, s.failed.value) {
      var i: nat, a: nat :| FetchedBlock(ls, i, a) && ls[i].blocks[a].end == s.failed.value;
      var p := ls[i].blocks[a].start;
      assert HasBlock(ls, i, a);
      NeighbourNotLoaded(m, ls, i, a, p);
      MaskOfLocations(m, ls, p);
      assert ProcessedAt(ls, i, p);
      assert Finished(s).mask[p];
    } else {
      forall p: nat | p < |m| && Finished(s).mask[p] ensures LoadedToken(ls, Finished(s).chunks, p) {
        OthersLoaded(m, ls, p);
      }
    }
  }

  /** Some location's fetch fails at a block that starts after `end`. */
  ghost predicate BeforeSomeFailure(ls: seq<Location>, end: nat)
    requires Aligned(ls)
  {
    exists k: nat :: k < |ls| && FailStart(ls[k]).Some? && end < FailStart(ls[k]).value
  }

  ghost predicate NothingFails(ls: seq<Location>)
    requires Aligned(ls)
  {
    forall k: nat :: k < |ls| ==> FailStart(ls[k]).None?
  }

  lemma {:induction false} BeforeRecorded(m: seq<bool>, ls: seq<Location>, end: nat)
    requires Aligned(ls)
    ensures AfterLocations(m, ls).failed.None? <==> NothingFails(ls)
    ensures AfterLocations(m, ls).failed.Some? ==> (BeforeSomeFailure(ls, end) <==> end < AfterLocations(m, ls).failed.value)
  {
    hide AfterLocations, FailStart;
    if AfterLocations(m, ls).failed.Some? {
      var last := FailureWitness(m, ls);
    }
    forall k: nat | k < |ls| && FailStart(ls[k]).Some?
      ensures AfterLocations(m, ls).failed.Some? && FailStart(ls[k]).value <= AfterLocations(m, ls).failed.value
    {
      FailureBounds(m, ls, k);
    }
  }

  lemma {:induction false} KeptBeforeRecorded(m: seq<bool>, ls: seq<Location>)
    requires Aligned(ls) && AfterLocations(m, ls).failed.Some?
    ensures AllBefore(AfterLocations(m, ls).chunks, AfterLocations(m, ls).failed.value)
      <==> forall i: nat, a: nat :: FetchedBlock(ls, i, a) ==> BeforeSomeFailure(ls, ls[i].blocks[a].end)
  {
    hide AfterLocations, BeforeSomeFailure, FailAt;
    var s := AfterLocations(m, ls);
    forall i: nat, a: nat | FetchedBlock(ls, i, a) && AllBefore(s.chunks, s.failed.value)
      ensures BeforeSomeFailure(ls, ls[i].blocks[a].end)
    {
      var c := KeptOfBlock(m, ls, i, a);
      BeforeRecorded(m, ls, c.end);
    }
    if forall i: nat, a: nat :: FetchedBlock(ls, i, a) ==> BeforeSomeFailure(ls, ls[i].blocks[a].end) {
      forall n | 0 <= n < |s.chunks| ensures s.chunks[n].end < s.failed.value {
        var i, a := BlockOfKept(m, ls, s.chunks[n]);
        BeforeRecorded(m, ls, s.chunks[n].end);
      }
    }
  }

  /** Each fetched object is released exactly once precisely when nothing fails, or every
      fetched block ends before some failing one: the chunks the cut drops leak. */
  lemma {:induction false} ReleasedOnceExact(m: seq<bool>, ls: seq<Location>)
    requires Aligned(ls)
    ensures
      var s := AfterLocations(m, ls);
      s.released + Objects(Finished(s).chunks) == AllFetched(ls)
      <==> NothingFails(ls) || forall i: nat, a: nat :: FetchedBlock(ls, i, a) ==> BeforeSomeFailure(ls, ls[i].blocks[a].end)
  {
    hide AfterLocations, Finished, NothingFails, AllBefore, BeforeSomeFailure, Objects, AllFetched;
    ReleasedIfKept(m, ls);
    BeforeRecorded(m, ls, 0);
    if AfterLocations(m, ls).failed.Some? {
      KeptBeforeRecorded(m, ls);
    }
  }

  ghost predicate InSomeBlock(ls: seq<Location>, p: nat) {
    exists i: nat, a: nat :: HasBlock(ls, i, a) && Covers(ls[i].blocks[a], p)
  }

  /** The locations' blocks together are the tokens from .. to. */
  ghost predicate Tiles(ls: seq<Location>, from: nat, to: nat) {
    forall p: nat :: InSomeBlock(ls, p) <==> from <= p < to
  }

  /** The failing location is the only one with a failing fetch. */
  ghost predicate OnlyFailure(ls: seq<Location>, k: nat)
    requires Aligned(ls)
  {
    k < |ls| && FailStart(ls[k]).Some? && forall i :: 0 <= i < |ls| && i != k ==> FailStart(ls[i]).None?
  }

  lemma {:induction false} OnlyFailureRecorded(m: seq<bool>, ls: seq<Location>, k: nat)
    requires Aligned(ls) && OnlyFailure(ls, k)
    ensures AfterLocations(m, ls).failed == FailStart(ls[k])
  {
    hide AfterLocations, FailStart;
    FailureBounds(m, ls, k);
    var i := FailureWitness(m, ls);
  }

  lemma {:induction false} MarkedBeforeFailure(m: seq<bool>, ls: seq<Location>, k: nat, p: nat)
    requires Aligned(ls) && Split(ls, |m|) && Unmarked(m) && p < |m| && OnlyFailure(ls, k)
    ensures Finished(AfterLocations(m, ls)).mask[p] <==> InSomeBlock(ls, p) && p < FailStart(ls[k]).value
  {
    hide AfterLocations, FailAt;
    OnlyFailureRecorded(m, ls, k);
    MaskOfLocations(m, ls, p);
    assert HasBlock(ls, k, FailAt(ls[k], 0));
    if i: nat :| ProcessedAt(ls, i, p) {
      var a: nat :| a < FailAt(ls[i], 0) && ls[i].blocks[a].start <= p < ls[i].blocks[a].end;
      assert HasBlock(ls, i, a) && Covers(ls[i].blocks[a], p);
    }
    if i: nat, a: nat :| HasBlock(ls, i, a) && Covers(ls[i].blocks[a], p) && p < FailStart(ls[k]).value {
      assert a < FailAt(ls[i], 0);
      assert ProcessedAt(ls, i, p);
    }
  }

  /** When one location fails, what stays marked is everything asked for before the failure. */
  lemma {:induction false} OneFailureMask(m: seq<bool>, ls: seq<Location>, k: nat, from: nat, to: nat, p: nat)
    requires Aligned(ls) && Split(ls, |m|) && Tiles(ls, from, to) && Unmarked(m) && p < |m| && OnlyFailure(ls, k)
    ensures Finished(AfterLocations(m, ls)).mask[p] <==> from <= p < FailStart(ls[k]).value
  {
    hide AfterLocations, Finished, InSomeBlock;
    MarkedBeforeFailure(m, ls, k, p);
    var b := ls[k].blocks[FailAt(ls[k], 0)];
    assert InSomeBlock(ls, b.start) by { BlockCovers(ls, |m|, k, FailAt(ls[k], 0)); }
  }

  lemma BlockCovers(ls: seq<Location>, len: nat, i: nat, a: nat)
    requires Split(ls, len) && HasBlock(ls, i, a)
    ensures InSomeBlock(ls, ls[i].blocks[a].start)
  {
    assert Covers(ls[i].blocks[a], ls[i].blocks[a].start);
  }
}
