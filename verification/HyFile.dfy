/** HyFile driver, global buffer registry and the allocators that share them, when any
    foreign call may fail and closes may be retried. */
module HyFile {

  datatype Registration = Registration(size: nat, refs: nat)

  /** Class-level state of HIPFile. `busyClose` records that the native driver was asked to
      close while a buffer was registered. */
  datatype Core = Core(lib: bool, driverOpen: bool, registry: map<nat, Registration>, busyClose: bool)

  function Init(c: Core, libOk: bool, openOk: bool): (Core, bool) {
    if !c.lib && !libOk then (c, false)
    else if c.driverOpen then (c.(lib := true), true)
    else (c.(lib := true, driverOpen := openOk), openOk)
  }

  function CloseCore(c: Core, closeOk: bool): (Core, bool) {
    if c.driverOpen && c.lib
    then (c.(driverOpen := !closeOk, busyClose := c.busyClose || |c.registry| > 0), closeOk)
    else (c, true)
  }

  /** Asking the native driver to close while a buffer is registered is recorded for good. */
  lemma BusyCloseRecorded(c: Core, closeOk: bool)
    ensures CloseCore(c, closeOk).0.busyClose <==> c.busyClose || (c.driverOpen && c.lib && c.registry != map[])
    ensures CloseCore(c, closeOk).1 <==> closeOk || !c.driverOpen || !c.lib
  {
  }

  function Register(c: Core, ptr: nat, size: nat, libOk: bool, registerOk: bool): (Core, bool) {
    if !c.lib && !libOk then (c, false)
    else
      var c := c.(lib := true);
      if !c.driverOpen then (c, false)
      else if ptr in c.registry then
        var r := c.registry[ptr];
        if r.size != size then (c, false)
        else (c.(registry := c.registry[ptr := Registration(size, r.refs + 1)]), true)
      else if registerOk then (c.(registry := c.registry[ptr := Registration(size, 1)]), true)
      else (c, false)
  }

  function Deregister(c: Core, ptr: nat, deregisterOk: bool): (Core, bool) {
    if ptr !in c.registry then (c, true)
    else
      var r := c.registry[ptr];
      if r.refs > 1 then (c.(registry := c.registry[ptr := Registration(r.size, r.refs - 1)]), true)
      else if c.lib && !deregisterOk then (c, false)
      else (c.(registry := c.registry - {ptr}), true)
  }

  /** Flags of one allocator object. */
  datatype Alloc = Alloc(base: nat, size: nat, registered: bool, counted: bool, closed: bool)

  /** How the foreign calls of one constructor or close turn out. */
  datatype Outcomes = Outcomes(
    libOk: bool, openOk: bool, poolOk: bool, registerOk: bool, deregisterOk: bool, closeOk: bool)

  /** Everything shared: class-level state, the allocator count and every allocator ever
      constructed, keyed by the object. */
  datatype State<!K> = State(core: Core, active: nat, allocs: map<K, Alloc>)

  function RolledBack(c: Core, opens: bool, o: Outcomes): Core {
    if opens then CloseCore(c, o.closeOk).0 else c
  }

  /** What one constructor or close touches: class-level state, the count, its own flags. */
  datatype Touched = Touched(core: Core, active: nat, flags: Alloc, ok: bool)

  /** `HyFileMemoryAllocator.__init__`; `ok` says whether it returned normally. */
  function ConstructedOne(core: Core, active: nat, size: nat, ptr: nat, o: Outcomes): Touched {
    var opens := active == 0;
    var (c1, initOk) := if opens then Init(core, o.libOk, o.openOk) else (core, true);
    if !initOk || !o.poolOk then Touched(RolledBack(c1, opens, o), active, Alloc(0, size, false, false, true), false)
    else
      var (c2, registered) := Register(c1, ptr, size, o.libOk, o.registerOk);
      if !registered then Touched(RolledBack(c2, opens, o), active, Alloc(ptr, size, false, false, false), false)
      else Touched(c2, active + 1, Alloc(ptr, size, true, true, false), true)
  }

  /** `close()`; `ok` says whether it returned normally. */
  function ClosedOne(core: Core, active: nat, a: Alloc, o: Outcomes): Touched {
    if a.closed && !a.registered && !a.counted then Touched(core, active, a, true)
    else
      var (c1, ok1) := if a.registered then Deregister(core, a.base, o.deregisterOk) else (core, true);
      if !ok1 then Touched(c1, active, a.(closed := true), false)
      else
        var a1 := a.(closed := true, registered := false);
        if !a.counted then Touched(c1, active, a1, true)
        else
          var (c2, ok2) := if active == 1 then CloseCore(c1, o.closeOk) else (c1, true);
          if !ok2 then Touched(c2, active, a1, false)
          else Touched(c2, if active > 0 then active - 1 else 0, a1.(counted := false), true)
  }

  function Constructed<K>(s: State<K>, k: K, size: nat, ptr: nat, o: Outcomes): (State<K>, bool) {
    var t := ConstructedOne(s.core, s.active, size, ptr, o);
    (State(t.core, t.active, s.allocs[k := t.flags]), t.ok)
  }

  function Closed<K>(s: State<K>, k: K, o: Outcomes): (State<K>, bool)
    requires k in s.allocs
  {
    var t := ClosedOne(s.core, s.active, s.allocs[k], o);
    (State(t.core, t.active, s.allocs[k := t.flags]), t.ok)
  }

  // ---- invariant ----

  ghost function Holders<K>(allocs: map<K, Alloc>, ptr: nat): set<K> {
    set k | k in allocs && allocs[k].registered && allocs[k].base == ptr
  }

  ghost function CountedOnes<K>(allocs: map<K, Alloc>): set<K> {
    set k | k in allocs && allocs[k].counted
  }

  function Refs(c: Core, ptr: nat): nat {
    if ptr in c.registry then c.registry[ptr].refs else 0
  }

  /** Reference counts are the numbers of holders. */
  ghost predicate CountsAgree<K>(s: State<K>) {
    && (forall p :: Refs(s.core, p) == |Holders(s.allocs, p)|)
    && s.active == |CountedOnes(s.allocs)|
  }

  ghost predicate CoreSound(c: Core) {
    && (forall p :: p in c.registry ==> c.registry[p].refs > 0)
    && (c.registry != map[] ==> c.driverOpen)
    && (c.driverOpen ==> c.lib)
    && !c.busyClose
  }

  ghost predicate FlagsSound<K>(s: State<K>) {
    forall k :: k in s.allocs && s.allocs[k].registered ==>
      && s.allocs[k].counted
      && s.allocs[k].base in s.core.registry
      && s.core.registry[s.allocs[k].base].size == s.allocs[k].size
  }

  ghost predicate Invariant<K>(s: State<K>) {
    CountsAgree(s) && CoreSound(s.core) && FlagsSound(s)
  }

  ghost function Unit(b: bool): nat { if b then 1 else 0 }

  ghost function Old<K>(s: State<K>, k: K): Alloc {
    if k in s.allocs then s.allocs[k] else Alloc(0, 0, false, false, true)
  }

  lemma SwapMember<K>(xs: set<K>, ys: set<K>, k: K, b: bool)
    requires forall j :: j in ys <==> if j == k then b else j in xs
    ensures |ys| == |xs| - Unit(k in xs) + Unit(b)
  {
    var rest := xs - {k};
    assert k in xs ==> xs == rest + {k};
    assert k !in xs ==> xs == rest;
    assert b ==> ys == rest + {k};
    assert !b ==> ys == rest;
  }

  lemma HoldersFollow<K>(allocs: map<K, Alloc>, k: K, a: Alloc, p: nat)
    ensures |Holders(allocs[k := a], p)|
         == |Holders(allocs, p)| - Unit(k in Holders(allocs, p)) + Unit(a.registered && a.base == p)
  {
    var xs, ys := Holders(allocs, p), Holders(allocs[k := a], p);
    SwapMember(xs, ys, k, a.registered && a.base == p);
  }

  lemma CountedFollow<K>(allocs: map<K, Alloc>, k: K, a: Alloc)
    ensures |CountedOnes(allocs[k := a])| == |CountedOnes(allocs)| - Unit(k in CountedOnes(allocs)) + Unit(a.counted)
  {
    var xs, ys := CountedOnes(allocs), CountedOnes(allocs[k := a]);
    SwapMember(xs, ys, k, a.counted);
  }

  /** Counts follow the flags of the one allocator that changed. */
  lemma CountsFollow<K>(s: State<K>, after: State<K>, k: K, a: Alloc)
    requires CountsAgree(s) && after.allocs == s.allocs[k := a]
    requires forall p :: Refs(after.core, p) == RefsWithout(s, k, p) + Unit(a.registered && a.base == p)
    requires after.active == s.active - Unit(Old(s, k).counted) + Unit(a.counted)
    ensures CountsAgree(after)
  {
    CountedFollow(s.allocs, k, a);
    forall p ensures Refs(after.core, p) == |Holders(after.allocs, p)| {
      HoldersFollow(s.allocs, k, a, p);
      assert Refs(s.core, p) == |Holders(s.allocs, p)|;
    }
  }

  ghost function RefsWithout<K>(s: State<K>, k: K, p: nat): int {
    Refs(s.core, p) - Unit(Old(s, k).registered && Old(s, k).base == p)
  }

  lemma SomeHolder<K>(s: State<K>, p: nat) returns (k: K)
    requires Invariant(s) && p in s.core.registry
    ensures k in Holders(s.allocs, p) && k in CountedOnes(s.allocs)
  {
    assert Refs(s.core, p) == |Holders(s.allocs, p)| > 0;
    assert Holders(s.allocs, p) != {};
    k :| k in Holders(s.allocs, p);
  }

  /** With no counted allocator nothing is registered. */
  lemma IdleRegistryEmpty<K>(s: State<K>)
    requires Invariant(s) && s.active == 0
    ensures s.core.registry == map[]
  {
    if p :| p in s.core.registry {
      var k := SomeHolder(s, p);
    }
  }

  /** When only one allocator is counted it is the only holder of anything registered. */
  lemma LastHolder<K>(s: State<K>, k: K, p: nat)
    requires Invariant(s) && s.active == 1 && k in s.allocs && s.allocs[k].counted
    requires p in s.core.registry
    ensures s.allocs[k].registered && s.allocs[k].base == p && Refs(s.core, p) == 1
  {
    var h := SomeHolder(s, p);
    OneElement(CountedOnes(s.allocs), k);
    assert Holders(s.allocs, p) == {k};
  }

  lemma OneElement<K>(xs: set<K>, k: K)
    requires |xs| == 1 && k in xs
    ensures xs == {k}
  {
    assert |xs - {k}| == 0;
  }

  /** A construction that fails leaves the count and the registry unchanged; one that
      succeeds adds one holder of its buffer. */
  lemma ConstructKeeps<K>(s: State<K>, k: K, size: nat, ptr: nat, o: Outcomes)
    requires Invariant(s) && k !in s.allocs
    ensures Invariant(Constructed(s, k, size, ptr, o).0)
    ensures
      var (after, ok) := Constructed(s, k, size, ptr, o);
      if ok then
        && after.active == s.active + 1 && Refs(after.core, ptr) == Refs(s.core, ptr) + 1
        && forall p :: p != ptr ==> Refs(after.core, p) == Refs(s.core, p)
      else after.active == s.active && after.core.registry == s.core.registry
  {
    hide Holders, CountedOnes;
    if s.active == 0 {
      IdleRegistryEmpty(s);
    }
    var after := Constructed(s, k, size, ptr, o).0;
    CountsFollow(s, after, k, after.allocs[k]);
  }

  /** The driver is open, or `init_driver` can open it. */
  ghost predicate CanOpen(c: Core, o: Outcomes) {
    (c.lib || o.libOk) && (c.driverOpen || o.openOk)
  }

  /** The buffer is new and its registration succeeds, or it is registered with this size. */
  ghost predicate CanRegister(c: Core, ptr: nat, size: nat, o: Outcomes) {
    if Refs(c, ptr) == 0 then o.registerOk else c.registry[ptr].size == size
  }

  /** A construction returns normally exactly when the driver can be opened (by the first
      allocator), the pool be allocated and the buffer registered; the driver is then open. A
      failing first construction leaves it open only if its own rollback could not close it. */
  lemma ConstructExact<K>(s: State<K>, k: K, size: nat, ptr: nat, o: Outcomes)
    requires Invariant(s) && OpenWhileCounted(s) && k !in s.allocs
    ensures
      var (after, ok) := Constructed(s, k, size, ptr, o);
      && (ok <==> (s.active == 0 ==> CanOpen(s.core, o)) && o.poolOk && CanRegister(s.core, ptr, size, o))
      && (after.core.driverOpen <==> ok || s.active > 0 || (CanOpen(s.core, o) && !o.closeOk))
      && after.allocs[k].registered == after.allocs[k].counted == ok
      && (ok ==> after.allocs[k] == Alloc(ptr, size, true, true, false))
      && OpenWhileCounted(after)
  {
    if s.active == 0 {
      IdleRegistryEmpty(s);
    }
  }

  /** The driver is open as long as an allocator is counted. */
  ghost predicate OpenWhileCounted<K>(s: State<K>) {
    s.active > 0 ==> s.core.driverOpen
  }

  /** The registry after a successful deregistration. */
  lemma DeregisterEffect(c: Core, ptr: nat, ok: bool)
    requires CoreSound(c)
    ensures CoreSound(Deregister(c, ptr, ok).0)
    ensures
      var (after, done) := Deregister(c, ptr, ok);
      && after.driverOpen == c.driverOpen && after.lib == c.lib
      && forall p :: Refs(after, p) == Refs(c, p) - Unit(done && ptr in c.registry && p == ptr)
  {
  }

  /** Another holder keeps a buffer registered. */
  lemma OtherHolderKeeps<K>(s: State<K>, k: K, j: K)
    requires Invariant(s) && k in s.allocs && j in s.allocs && j != k
    requires s.allocs[k].registered && s.allocs[j].registered && s.allocs[j].base == s.allocs[k].base
    ensures Refs(s.core, s.allocs[k].base) >= 2
  {
    var xs := Holders(s.allocs, s.allocs[k].base);
    assert {j, k} <= xs;
    assert |xs - {k}| >= 1 by {
      assert j in xs - {k};
    }
  }

  /** Closing, and retrying a close that failed, keeps the invariant: the driver is closed
      only when nothing is registered, and a close that raises leaves the allocator counted
      so that it can be retried. The only counted allocator's close returns normally only with
      the driver closed, and not at all if that fails. */
  lemma CloseKeeps<K>(s: State<K>, k: K, o: Outcomes)
    requires Invariant(s) && k in s.allocs
    ensures Invariant(Closed(s, k, o).0)
    ensures
      var (after, ok) := Closed(s, k, o);
      && (ok ==> !after.allocs[k].registered && !after.allocs[k].counted && after.allocs[k].closed)
      && (ok && s.allocs[k].counted ==> after.active == s.active - 1)
      && (!ok ==> after.active == s.active && after.allocs[k].counted)
      && (s.active == 1 && s.allocs[k].counted ==> !(ok && after.core.driverOpen) && !(ok && s.core.driverOpen && !o.closeOk))
      && (forall j :: j in s.allocs && j != k ==> j in after.allocs && after.allocs[j] == s.allocs[j])
  {
    var after := Closed(s, k, o).0;
    var a := s.allocs[k];
    assert a.counted ==> k in CountedOnes(s.allocs);
    if a.registered {
      DeregisterEffect(s.core, a.base, o.deregisterOk);
      forall j | j in s.allocs && j != k && s.allocs[j].registered && s.allocs[j].base == a.base
        ensures Refs(s.core, a.base) >= 2
      {
        OtherHolderKeeps(s, k, j);
      }
    }
    if s.active == 1 && a.counted {
      forall p | p in s.core.registry ensures a.registered && a.base == p && Refs(s.core, p) == 1 {
        LastHolder(s, k, p);
      }
    }
    assert after.allocs == s.allocs[k := after.allocs[k]];
    CountsFollow(s, after, k, after.allocs[k]);
  }

  /** Taking the buffer away from its last holder fails. */
  ghost predicate DeregisterFails(c: Core, a: Alloc, o: Outcomes) {
    a.registered && c.lib && Refs(c, a.base) == 1 && !o.deregisterOk
  }

  /** A close returns normally exactly when the last holder's buffer could be deregistered and,
      for the only counted allocator, the driver be closed. The driver is then closed, and in
      every other case it stays as it was. */
  lemma CloseExact<K>(s: State<K>, k: K, o: Outcomes)
    requires Invariant(s) && OpenWhileCounted(s) && k in s.allocs
    ensures
      var a, only, (after, ok) := s.allocs[k], s.active == 1 && s.allocs[k].counted, Closed(s, k, o);
      && (ok <==> !DeregisterFails(s.core, a, o) && (only ==> o.closeOk))
      && (after.core.driverOpen <==> s.core.driverOpen && !(only && ok))
      && (forall p :: Refs(after.core, p)
            == Refs(s.core, p) - Unit(a.registered && p == a.base && !DeregisterFails(s.core, a, o)))
      && OpenWhileCounted(after)
  {
    hide Holders;
    var a := s.allocs[k];
    assert a.counted ==> k in CountedOnes(s.allocs);
    if a.registered {
      DeregisterEffect(s.core, a.base, o.deregisterOk);
    }
  }

  /** Trying again after a close that raised ends where an undisturbed close would have. */
  lemma CloseRetried<K>(s: State<K>, k: K, o: Outcomes, retry: Outcomes)
    requires Invariant(s) && k in s.allocs && !Closed(s, k, o).1
    requires retry.deregisterOk && retry.closeOk
    ensures Closed(Closed(s, k, o).0, k, retry) == (Closed(s, k, retry).0, true)
  {
    hide Holders, CountedOnes;
    var half := Closed(s, k, o).0;
    var a := s.allocs[k];
    if a.registered {
      DeregisterEffect(s.core, a.base, o.deregisterOk);
    }
    assert half.allocs == s.allocs[k := half.allocs[k]];
    var full := Closed(s, k, retry).0;
    assert Closed(half, k, retry).0.allocs == full.allocs;
  }

  // ---- runs ----

  datatype Op<!K> = Construct(k: K, size: nat, ptr: nat, o: Outcomes) | Close(k: K, o: Outcomes)

  function Step<K>(s: State<K>, op: Op<K>): State<K> {
    match op
    case Construct(k, size, ptr, o) => if k in s.allocs then s else Constructed(s, k, size, ptr, o).0
    case Close(k, o) => if k in s.allocs then Closed(s, k, o).0 else s
  }

  function Run<K>(ops: seq<Op<K>>): State<K> {
    if ops == [] then State(Core(false, false, map[], false), 0, map[])
    else Step(Run(ops[..|ops| - 1]), ops[|ops| - 1])
  }

  /** After any sequence of constructions and closes, whatever foreign calls failed: counts
      are exact, a registered buffer implies an open driver, and the driver was never asked
      to close while a buffer was registered. */
  lemma {:induction false} RunsKeepInvariant<K>(ops: seq<Op<K>>)
    ensures Invariant(Run(ops))
  {
    if ops == [] {
      var s: State<K> := Run(ops);
      assert CountedOnes(s.allocs) == {};
      forall p ensures Refs(s.core, p) == |Holders(s.allocs, p)| {
        assert Holders(s.allocs, p) == {};
      }
    } else {
      var before, op := Run(ops[..|ops| - 1]), ops[|ops| - 1];
      RunsKeepInvariant(ops[..|ops| - 1]);
      match op
      case Construct(k, size, ptr, o) =>
        if k !in before.allocs {
          ConstructKeeps(before, k, size, ptr, o);
        }
      case Close(k, o) =>
        if k in before.allocs {
          CloseKeeps(before, k, o);
        }
    }
  }

  /** Nothing is counted, and the last construction that tried to open the driver failed and
      could not close it again. */
  ghost predicate LeftOpen<K>(ops: seq<Op<K>>) {
    ops != [] &&
    var before, op, rest := Run(ops[..|ops| - 1]), ops[|ops| - 1], LeftOpen(ops[..|ops| - 1]);
    && before.active == 0
    && match op
       case Construct(k, size, ptr, o) =>
         if k in before.allocs then rest
         else !Constructed(before, k, size, ptr, o).1 && CanOpen(before.core, o) && !o.closeOk
       case Close(_, _) => rest
  }

  /** Over all runs: the driver is open while an allocator is counted, and when none is, it is
      open exactly when a rollback's own close left it so. */
  lemma {:induction false} DriverExact<K>(ops: seq<Op<K>>)
    ensures OpenWhileCounted(Run(ops))
    ensures Run(ops).active == 0 ==> (Run(ops).core.driverOpen <==> LeftOpen(ops))
  {
    if ops != [] {
      var before, op := Run(ops[..|ops| - 1]), ops[|ops| - 1];
      RunsKeepInvariant(ops[..|ops| - 1]);
      DriverExact(ops[..|ops| - 1]);
      match op
      case Construct(k, size, ptr, o) =>
        if k !in before.allocs {
          ConstructKeeps(before, k, size, ptr, o);
          ConstructExact(before, k, size, ptr, o);
        }
      case Close(k, o) =>
        if k in before.allocs {
          CloseKeeps(before, k, o);
          CloseExact(before, k, o);
          if before.active == 0 {
            IdleClose(before, k);
          }
        }
    }
  }

  lemma IdleClose<K>(s: State<K>, k: K)
    requires Invariant(s) && k in s.allocs && s.active == 0
    ensures !s.allocs[k].counted && !s.allocs[k].registered
  {
    assert s.allocs[k].counted ==> k in CountedOnes(s.allocs);
  }

  /** When every allocator has been closed normally nothing stays registered. */
  lemma AllClosedMeansEmpty<K>(ops: seq<Op<K>>)
    requires forall k :: k in Run(ops).allocs ==> !Run(ops).allocs[k].counted
    ensures Run(ops).active == 0 && Run(ops).core.registry == map[]
  {
    var s := Run(ops);
    RunsKeepInvariant(ops);
    assert CountedOnes(s.allocs) == {};
    IdleRegistryEmpty(s);
  }

  // ---- the objects ----

  /** Class-level members of HIPFile. */
  class HIPFile {
    var libLoaded: bool
    var driverOpened: bool
    var globalRegisteredBuffers: map<nat, Registration>
    ghost var busyClose: bool

    ghost function Value(): Core
      reads this
    {
      Core(libLoaded, driverOpened, globalRegisteredBuffers, busyClose)
    }

    constructor ()
      ensures Value() == Core(false, false, map[], false)
    {
      libLoaded, driverOpened, globalRegisteredBuffers, busyClose := false, false, map[], false;
    }

    method InitDriver(libOk: bool, openOk: bool) returns (ok: bool)
      modifies this
      ensures (Value(), ok) == Init(old(Value()), libOk, openOk)
    {
      if !libLoaded {
        if !libOk {
          return false;
        }
        libLoaded := true;
      }
      if !driverOpened {
        if !openOk {
          return false;
        }
        driverOpened := true;
      }
      return true;
    }

    method CloseDriver(closeOk: bool) returns (ok: bool)
      modifies this
      ensures (Value(), ok) == CloseCore(old(Value()), closeOk)
    {
      if driverOpened && libLoaded {
        busyClose := busyClose || |globalRegisteredBuffers| > 0;
        if !closeOk {
          return false;
        }
        driverOpened := false;
      }
      return true;
    }

    method RegisterGlobalBuffer(ptr: nat, size: nat, libOk: bool, registerOk: bool) returns (ok: bool)
      modifies this
      ensures (Value(), ok) == Register(old(Value()), ptr, size, libOk, registerOk)
    {
      if !libLoaded {
        if !libOk {
          return false;
        }
        libLoaded := true;
      }
      if !driverOpened {
        return false;
      }
      if ptr in globalRegisteredBuffers {
        var r := globalRegisteredBuffers[ptr];
        if r.size != size {
          return false;
        }
        globalRegisteredBuffers := globalRegisteredBuffers[ptr := Registration(size, r.refs + 1)];
        return true;
      }
      if !registerOk {
        return false;
      }
      globalRegisteredBuffers := globalRegisteredBuffers[ptr := Registration(size, 1)];
      return true;
    }

    method DeregisterGlobalBuffer(ptr: nat, deregisterOk: bool) returns (ok: bool)
      modifies this
      ensures (Value(), ok) == Deregister(old(Value()), ptr, deregisterOk)
    {
      if ptr !in globalRegisteredBuffers {
        return true;
      }
      var r := globalRegisteredBuffers[ptr];
      if r.refs > 1 {
        globalRegisteredBuffers := globalRegisteredBuffers[ptr := Registration(r.size, r.refs - 1)];
        return true;
      }
      if libLoaded && !deregisterOk {
        return false;
      }
      globalRegisteredBuffers := globalRegisteredBuffers - {ptr};
      return true;
    }
  }

  class HyFileMemoryAllocator {
    var basePointer: nat
    const size: nat
    var registered: bool
    var counted: bool
    var closed: bool

    ghost function Flags(): Alloc
      reads this
    {
      Alloc(basePointer, size, registered, counted, closed)
    }

    /** Flags as set before anything can fail. */
    constructor (size: nat)
      ensures Flags() == Alloc(0, size, false, false, true)
    {
      this.size := size;
      basePointer, registered, counted, closed := 0, false, false, true;
    }
  }

  /** `_active_allocators` and the bodies that run under `_lifecycle_lock`. */
  class Lifecycle {
    const hip: HIPFile
    var activeAllocators: nat
    ghost var members: set<HyFileMemoryAllocator>

    ghost function Value(): State<HyFileMemoryAllocator>
      reads this, hip, members
    {
      State(hip.Value(), activeAllocators, map a | a in members :: a.Flags())
    }

    constructor (hip: HIPFile)
      ensures this.hip == hip && activeAllocators == 0 && members == {}
    {
      this.hip, activeAllocators, members := hip, 0, {};
    }

    /** The except branch of `__init__`: the error of a failing close is swallowed. */
    method RollBack(opensDriver: bool, closeOk: bool)
      modifies hip
      ensures hip.Value() == if opensDriver then CloseCore(old(hip.Value()), closeOk).0 else old(hip.Value())
    {
      if opensDriver {
        var _ := hip.CloseDriver(closeOk);
      }
    }

    /** The body of `__init__` on a new object. */
    method Initialize(a: HyFileMemoryAllocator, ptr: nat, o: Outcomes) returns (ok: bool)
      requires a.Flags() == Alloc(0, a.size, false, false, true)
      modifies this`activeAllocators, hip, a
      ensures Touched(hip.Value(), activeAllocators, a.Flags(), ok)
           == ConstructedOne(old(hip.Value()), old(activeAllocators), a.size, ptr, o)
    {
      var opensDriver := activeAllocators == 0;
      ok := true;
      if opensDriver {
        ok := hip.InitDriver(o.libOk, o.openOk);
      }
      if ok && o.poolOk {
        a.closed := false;
        a.basePointer := ptr;
        ok := hip.RegisterGlobalBuffer(ptr, a.size, o.libOk, o.registerOk);
      } else {
        ok := false;
      }
      if ok {
        a.registered, a.counted := true, true;
        activeAllocators := activeAllocators + 1;
      } else {
        RollBack(opensDriver, o.closeOk);
      }
    }

    /** Construction; the object exists even when `__init__` raises. */
    method Construct(size: nat, ptr: nat, o: Outcomes) returns (a: HyFileMemoryAllocator, ok: bool)
      modifies this, hip
      ensures fresh(a) && members == old(members) + {a}
      ensures (Value(), ok) == Constructed(old(Value()), a, size, ptr, o)
    {
      a := new HyFileMemoryAllocator(size);
      members := members + {a};
      ok := Initialize(a, ptr, o);
      assert Value().allocs == old(Value()).allocs[a := a.Flags()];
    }

    /** The body of `close` under its locks. */
    method CloseOne(a: HyFileMemoryAllocator, o: Outcomes) returns (ok: bool)
      requires a.counted ==> activeAllocators > 0
      modifies this`activeAllocators, hip, a
      ensures Touched(hip.Value(), activeAllocators, a.Flags(), ok)
           == ClosedOne(old(hip.Value()), old(activeAllocators), old(a.Flags()), o)
    {
      if a.closed && !a.registered && !a.counted {
        return true;
      }
      a.closed := true;
      if a.registered {
        ok := hip.DeregisterGlobalBuffer(a.basePointer, o.deregisterOk);
        if !ok {
          return;
        }
        a.registered := false;
      }
      if a.counted {
        if activeAllocators == 1 {
          ok := hip.CloseDriver(o.closeOk);
          if !ok {
            return;
          }
        }
        activeAllocators := activeAllocators - 1;
        a.counted := false;
      }
      return true;
    }

    method Close(a: HyFileMemoryAllocator, o: Outcomes) returns (ok: bool)
      requires a in members && Invariant(Value())
      modifies this`activeAllocators, hip, a
      ensures Invariant(Value()) && (Value(), ok) == Closed(old(Value()), a, o)
      ensures ok && old(a.counted) && old(activeAllocators) == 1 ==> !hip.driverOpened
    {
      ghost var before := Value();
      CloseKeeps(before, a, o);
      assert before.allocs[a] == a.Flags();
      assert a.counted ==> a in CountedOnes(before.allocs);
      ok := CloseOne(a, o);
      assert Value().allocs == before.allocs[a := a.Flags()];
    }
  }
}
