/** The shadow of vLLM's block table kept by a request tracker, and the guard that tells a
    complete table from newly allocated blocks. */
module BlockTable {
  import opened Results
  import opened PagedSlots

  /** An element of a Python block list: a block id, or a nested list of ids. */
  datatype Entry = Id(id: nat) | Group(ids: seq<nat>)

  /** `new_block_ids`: None, a list, or a tuple with one list per KV cache group. */
  datatype BlockUpdate = NoBlocks | Listed(entries: seq<Entry>) | Grouped(groups: seq<seq<nat>>)

  function Ids(s: seq<nat>): (r: seq<Entry>)
    ensures |r| == |s|
  {
    seq(|s|, i requires 0 <= i < |s| => Id(s[i]))
  }

  predicate AllIds(table: seq<Entry>) {
    forall i :: 0 <= i < |table| ==> table[i].Id?
  }

  function IdsOf(table: seq<Entry>): (s: seq<nat>)
    requires AllIds(table)
    ensures |s| == |table| && Ids(s) == table
  {
    seq(|table|, i requires 0 <= i < |table| => table[i].id)
  }

  /** Nested lists flattened one level. */
  function Flat(entries: seq<Entry>): seq<nat> {
    if entries == [] then []
    else (match entries[0] case Id(b) => [b] case Group(bs) => bs) + Flat(entries[1..])
  }

  /** The ids an update carries, as `RequestTracker.update` reads them. */
  function Carried(u: BlockUpdate): seq<nat> {
    match u
    case NoBlocks => []
    case Listed(es) => Flat(es)
    case Grouped(gs) => if gs == [] then [] else gs[0]
  }

  /** `_hcu_flatten_block_ids`: nested lists stay nested. */
  function Incoming(u: BlockUpdate): Option<seq<Entry>> {
    match u
    case NoBlocks => None
    case Listed(es) => Some(es)
    case Grouped(gs) => Some(if gs == [] then [] else Ids(gs[0]))
  }

  /** Table after a guarded update. */
  function Guarded(table: seq<Entry>, u: BlockUpdate, preempted: bool): seq<Entry> {
    if preempted then Ids(Carried(u))
    else if Incoming(u).Some? && table <= Incoming(u).value then Incoming(u).value
    else table + Ids(Carried(u))
  }

  lemma {:induction false} FlatOfIds(s: seq<nat>)
    ensures Flat(Ids(s)) == s
  {
    if s != [] {
      assert Ids(s)[1..] == Ids(s[1..]);
      FlatOfIds(s[1..]);
      assert [s[0]] + s[1..] == s;
    }
  }

  lemma IdsConcat(a: seq<nat>, b: seq<nat>)
    ensures Ids(a + b) == Ids(a) + Ids(b)
  {
  }

  ghost predicate Nested(u: BlockUpdate) {
    u.Listed? && !AllIds(u.entries)
  }

  lemma FlatEntries(es: seq<Entry>)
    requires AllIds(es)
    ensures Ids(Flat(es)) == es
  {
    FlatOfIds(IdsOf(es));
  }

  /** A delta update keeps the shadow exact precisely when it cannot be mistaken for a
      complete table: it does not start with the whole old table, or the old table is
      empty and the list is not nested. */
  lemma DeltaExact(table: seq<nat>, u: BlockUpdate)
    ensures Guarded(Ids(table), u, false) == Ids(table + Carried(u)) <==>
      || Incoming(u).None? || !(Ids(table) <= Incoming(u).value)
      || (table == [] && !Nested(u))
  {
    IdsConcat(table, Carried(u));
    if Incoming(u).Some? && Ids(table) <= Incoming(u).value {
      var incoming := Incoming(u).value;
      if Nested(u) {
        var i :| 0 <= i < |incoming| && !incoming[i].Id?;
        var exact := Ids(table + Carried(u));
        assert i < |exact| ==> exact[i].Id?;
      } else {
        if u.Listed? {
          FlatEntries(u.entries);
        }
        assert incoming == Ids(Carried(u));
        assert |incoming| == |Carried(u)|;
      }
    }
  }

  /** A complete table that extends the old one always replaces it. */
  lemma FullExact(table: seq<nat>, added: seq<nat>, u: BlockUpdate)
    requires Incoming(u) == Some(Ids(table + added))
    ensures Guarded(Ids(table), u, false) == Ids(table + added)
  {
    IdsConcat(table, added);
  }

  /** A nested list arriving at an empty table is stored with its nesting. */
  lemma NestedListCorruptsEmptyTable()
    ensures Guarded([], Listed([Group([7])]), false) != Ids(Carried(Listed([Group([7])])))
  {
    assert Guarded([], Listed([Group([7])]), false)[0] == Group([7]);
  }

  /** What the scheduler may send when `added` blocks were appended to `table`: only the
      new ids, or the whole table; as a list, a one-group tuple, an empty container or None. */
  ghost predicate Announces(u: BlockUpdate, table: seq<nat>, added: seq<nat>) {
    || (u == NoBlocks && added == [])
    || (u == Grouped([]) && added == [])
    || u == Listed(Ids(added)) || u == Grouped([added])
    || u == Listed(Ids(table + added)) || u == Grouped([table + added])
  }

  /** With distinct ids every announced update keeps the shadow exact. */
  lemma ShadowStep(table: seq<nat>, added: seq<nat>, u: BlockUpdate)
    requires Distinct(table + added) && Announces(u, table, added)
    ensures Guarded(Ids(table), u, false) == Ids(table + added)
  {
    if u == Listed(Ids(table + added)) || u == Grouped([table + added]) {
      FullExact(table, added, u);
    } else {
      FlatOfIds(added);
      assert Carried(u) == added;
      assert Incoming(u).None? || Incoming(u) == Some(Ids(added));
      if table != [] && added != [] {
        assert Ids(table)[0] == Id(table[0]);
        assert Ids(added)[0] == Id(added[0]);
        assert (table + added)[0] != (table + added)[|table|];
      }
      DeltaExact(table, u);
    }
  }

  /** Only the first KV cache group is looked at: as a delta, as a complete table and after
      preemption. */
  lemma FirstGroupOnly(table: seq<nat>, ids: seq<nat>, more: seq<seq<nat>>, preempted: bool)
    ensures Guarded(Ids(table), Grouped([ids] + more), preempted) ==
      if preempted || Ids(table) <= Ids(ids) then Ids(ids) else Ids(table + ids)
  {
    IdsConcat(table, ids);
  }

  /** After preemption the announced table replaces the shadow. */
  lemma ResumeExact(stale: seq<Entry>, table: seq<nat>, u: BlockUpdate)
    requires u == Listed(Ids(table)) || u == Grouped([table])
    ensures Guarded(stale, u, true) == Ids(table)
  {
    FlatOfIds(table);
  }
}
