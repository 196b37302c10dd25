/** Payload blocks on disk are pages of the cross-layer KV tensor
    [NB, NL, 2, BS, NH, HS]: direct I/O of whole blocks equals decoding to logical form
    and scattering token by token. */
module CrossLayerPages {
  import opened TensorIndex
  import opened BlockFirstLayout
  import opened PagedSlots

  /** Axes inside one page, with the head axes merged: D = NH * HS. */
  function Inner(d: Dims): seq<nat> { [d.layers, 2, d.blockSize, d.hidden] }

  function PageSize(d: Dims): nat { Size(Inner(d)) }

  /** Extents of the cross-layer tensor, its base address and element size in bytes. */
  datatype Cache = Cache(base: nat, elem: nat, pages: nat, layers: nat, blockSize: nat, heads: nat, headSize: nat) {
    function Shape(): seq<nat> { [pages, layers] + LayerShape() }
    /** One layer of one page. */
    function LayerShape(): seq<nat> { [2, blockSize, heads, headSize] }

    /** Start of each layer's data in page 0: `data_ptr() + layer * stride(1) * element_size()`. */
    function LayerPointers(): (p: seq<int>)
      ensures |p| == layers
    {
      seq(layers, l requires 0 <= l < layers => base + l * Size(LayerShape()) * elem)
    }

    /** The kernel starts from its layer's pointer and adds the page stride and the
        offset inside the layer. */
    function KernelAddress(page: nat, l: nat, x: seq<nat>): int
      requires l < layers && |x| == 4
    {
      LayerPointers()[l] + page * Size([layers] + LayerShape()) * elem + Ravel(x, LayerShape()) * elem
    }
  }

  lemma RavelCons(i: nat, idx: seq<nat>, n: nat, shape: seq<nat>)
    requires |idx| == |shape|
    ensures Ravel([i] + idx, [n] + shape) == i * Size(shape) + Ravel(idx, shape)
  {
    assert ([i] + idx)[1..] == idx && ([n] + shape)[1..] == shape;
  }

  /** Going through the pointer table reaches exactly the element of the 6-D tensor. */
  lemma KernelAddressIsTensorAddress(c: Cache, page: nat, l: nat, x: seq<nat>)
    requires l < c.layers && |x| == 4
    ensures c.KernelAddress(page, l, x) == c.base + Ravel([page, l] + x, c.Shape()) * c.elem
  {
    hide Ravel, Size;
    RavelCons(l, x, c.layers, c.LayerShape());
    RavelCons(page, [l] + x, c.pages, [c.layers] + c.LayerShape());
    assert [page] + ([l] + x) == [page, l] + x;
    assert [c.pages] + ([c.layers] + c.LayerShape()) == c.Shape();
    Distribute(page * Size([c.layers] + c.LayerShape()), l * Size(c.LayerShape()), Ravel(x, c.LayerShape()), c.elem);
  }

  lemma Distribute(x: nat, y: nat, z: nat, n: nat)
    ensures (x + (y + z)) * n == y * n + x * n + z * n
  {
  }

  lemma ScaledDisjoint(i: nat, j: nat, n: nat, elem: nat)
    requires i < n && j < n
    ensures i * elem + elem <= n * elem
    ensures i != j ==> i * elem + elem <= j * elem || j * elem + elem <= i * elem
  {
    MulMonotone(i + 1, n, elem);
    if i < j {
      MulMonotone(i + 1, j, elem);
    } else if j < i {
      MulMonotone(j + 1, i, elem);
    }
  }

  /** Pointer-table addresses stay inside the allocation and different elements never
      overlap. */
  lemma KernelAddressesInjective(c: Cache, page: nat, l: nat, x: seq<nat>, page': nat, l': nat, x': seq<nat>)
    requires page < c.pages && l < c.layers && InShape(x, c.LayerShape())
    requires page' < c.pages && l' < c.layers && InShape(x', c.LayerShape())
    ensures c.base <= c.KernelAddress(page, l, x)
    ensures c.KernelAddress(page, l, x) + c.elem <= c.base + Size(c.Shape()) * c.elem
    ensures [page, l] + x != [page', l'] + x' ==>
      || c.KernelAddress(page, l, x) + c.elem <= c.KernelAddress(page', l', x')
      || c.KernelAddress(page', l', x') + c.elem <= c.KernelAddress(page, l, x)
  {
    hide Ravel, Unravel, Size, Cache.KernelAddress;
    KernelAddressIsTensorAddress(c, page, l, x);
    KernelAddressIsTensorAddress(c, page', l', x');
    UnravelOfRavel([page, l] + x, c.Shape());
    UnravelOfRavel([page', l'] + x', c.Shape());
    ScaledDisjoint(Ravel([page, l] + x, c.Shape()), Ravel([page', l'] + x', c.Shape()), Size(c.Shape()), c.elem);
  }

  /** An element of page `page` sits at the same inner offset as the element of a payload
      block it comes from. */
  lemma PageElement(d: Dims, pages: nat, heads: nat, headSize: nat, page: nat, l: nat, k: nat, s: nat, h: nat, e: nat)
    requires d.hidden == heads * headSize
    ensures Ravel([page, l, k, s, h, e], [pages, d.layers, 2, d.blockSize, heads, headSize])
         == page * PageSize(d) + Ravel([l, k, s, h * headSize + e], Inner(d))
  {
    ViewSplitsAxis([page, l, k, s], h, e, [], [pages, d.layers, 2, d.blockSize], heads, headSize, []);
    assert [page, l, k, s] + [h, e] + [] == [page, l, k, s, h, e];
    assert [pages, d.layers, 2, d.blockSize] + [heads, headSize] + [] == [pages, d.layers, 2, d.blockSize, heads, headSize];
    assert [page, l, k, s] + [h * headSize + e] + [] == [page] + [l, k, s, h * headSize + e];
    assert [pages, d.layers, 2, d.blockSize] + [heads * headSize] + [] == [pages] + Inner(d);
    RavelCons(page, [l, k, s, h * headSize + e], pages, Inner(d));
  }

  // Paged memory as a flat sequence; an address is page * PageSize + inner offset.

  ghost predicate Fits<T>(d: Dims, mem: seq<T>, pages: nat, ids: seq<nat>) {
    && |mem| == pages * PageSize(d)
    && forall b :: 0 <= b < |ids| ==> ids[b] < pages
  }

  /** Memory after payload blocks 0..n were copied to pages ids[0..n]. */
  ghost function PagesCopied<T>(d: Dims, mem: seq<T>, payload: seq<T>, ids: seq<nat>, n: nat): (m: seq<T>)
    requires |payload| == Size(d.Physical()) && |ids| == d.blocks && n <= d.blocks
    ensures |m| == |mem|
  {
    if n == 0 then mem else
      var before := PagesCopied(d, mem, payload, ids, n - 1);
      seq(|mem|, a requires 0 <= a < |mem| =>
        if InPage(d, a, ids[n - 1]) then PayloadAt(d, payload, n - 1, a % PageSize(d)) else before[a])
  }

  ghost predicate InPage(d: Dims, a: nat, page: nat) {
    PageSize(d) > 0 && a / PageSize(d) == page
  }

  ghost function PayloadAt<T>(d: Dims, payload: seq<T>, b: nat, inner: nat): T
    requires |payload| == Size(d.Physical()) && b < d.blocks && inner < PageSize(d)
  {
    PayloadSize(d);
    PairBound(b, inner, d.blocks, PageSize(d));
    payload[b * PageSize(d) + inner]
  }

  lemma PayloadSize(d: Dims)
    ensures Size(d.Physical()) == d.blocks * PageSize(d)
  {
    assert d.Physical()[1..] == Inner(d);
  }

  /** One token stored by the transfer kernel: the (layer, K/V, channel) elements of its slot. */
  ghost function TokenScattered<T>(d: Dims, mem: seq<T>, logical: seq<T>, slot: nat, t: nat): (m: seq<T>)
    requires |logical| == Size(d.Logical()) && t < d.blocks * d.blockSize && d.blockSize > 0
    ensures |m| == |mem|
  {
    seq(|mem|, a requires 0 <= a < |mem| =>
      if InSlot(d, a, slot) then LogicalAt(d, logical, t, a % PageSize(d)) else mem[a])
  }

  ghost predicate InSlot(d: Dims, a: nat, slot: nat)
    requires d.blockSize > 0
  {
    InPage(d, a, slot / d.blockSize) && Unravel(a % PageSize(d), Inner(d))[2] == slot % d.blockSize
  }

  /** logical[k, l, t, c] for the inner coordinate [l, k, _, c]. */
  ghost function LogicalAt<T>(d: Dims, logical: seq<T>, t: nat, inner: nat): T
    requires |logical| == Size(d.Logical()) && t < d.blocks * d.blockSize && inner < PageSize(d)
  {
    var x := Unravel(inner, Inner(d));
    RavelInBounds([x[1], x[0], t, x[3]], d.Logical());
    logical[Ravel([x[1], x[0], t, x[3]], d.Logical())]
  }

  ghost function Scattered<T>(d: Dims, mem: seq<T>, logical: seq<T>, slots: seq<nat>, n: nat): (m: seq<T>)
    requires |logical| == Size(d.Logical()) && |slots| == d.blocks * d.blockSize && n <= |slots|
    ensures |m| == |mem|
  {
    if n == 0 then mem else
      DivBound(n - 1, d.blocks, d.blockSize);
      TokenScattered(d, Scattered(d, mem, logical, slots, n - 1), logical, slots[n - 1], n - 1)
  }

  /** The payload element of block b at an inner offset is the logical element of the
      token that the offset's slot coordinate names. */
  lemma PayloadIsLogical<T>(d: Dims, logical: seq<T>, b: nat, inner: nat)
    requires |logical| == Size(d.Logical()) && b < d.blocks && inner < PageSize(d)
    ensures Unravel(inner, Inner(d))[2] < d.blockSize
    ensures b * d.blockSize + Unravel(inner, Inner(d))[2] < d.blocks * d.blockSize
    ensures PayloadAt(d, ToBlockFirst(d, logical), b, inner)
         == LogicalAt(d, logical, b * d.blockSize + Unravel(inner, Inner(d))[2], inner)
  {
    var x := Unravel(inner, Inner(d));
    assert x[0] < Inner(d)[0] && x[1] < Inner(d)[1] && x[2] < Inner(d)[2] && x[3] < Inner(d)[3];
    PairBound(b, x[2], d.blocks, d.blockSize);
    RavelOfUnravel(inner, Inner(d));
    RavelCons(b, x, d.blocks, Inner(d));
    assert x == [x[0], x[1], x[2], x[3]];
    assert [b] + x == [b, x[0], x[1], x[2], x[3]] && [d.blocks] + Inner(d) == d.Physical();
    BlockFirstElement(d, logical, b, x[0], x[1], x[2], x[3]);
  }

  ghost function Slots(d: Dims, ids: seq<nat>): (slots: seq<nat>)
    requires |ids| == d.blocks
    ensures |slots| == d.blocks * d.blockSize
  {
    SlotMapping(ids, d.blockSize, d.blocks * d.blockSize)
  }

  /** Inside block b: after s of its tokens, exactly the first s slots of its page are new. */
  lemma {:induction false} BlockProgress<T>(d: Dims, mem: seq<T>, logical: seq<T>, ids: seq<nat>, b: nat, s: nat, a: nat)
    requires |logical| == Size(d.Logical()) && |ids| == d.blocks && b < d.blocks && s <= d.blockSize && a < |mem|
    ensures b * d.blockSize <= b * d.blockSize + s <= d.blocks * d.blockSize
    ensures |logical| == Size(d.Physical())
    ensures Scattered(d, mem, logical, Slots(d, ids), b * d.blockSize + s)[a] == (
      if InPage(d, a, ids[b]) && Unravel(a % PageSize(d), Inner(d))[2] < s
      then PayloadAt(d, ToBlockFirst(d, logical), b, a % PageSize(d))
      else Scattered(d, mem, logical, Slots(d, ids), b * d.blockSize)[a])
  {
    hide PayloadAt, LogicalAt, ToBlockFirst, Unravel, Size;
    MulMonotone(b + 1, d.blocks, d.blockSize);
    SizesAgree(d);
    if s > 0 {
      BlockProgress(d, mem, logical, ids, b, s - 1, a);
      var t := b * d.blockSize + (s - 1);
      DivMod(b, s - 1, d.blockSize);
      assert Slots(d, ids)[t] == SlotOf(ids, d.blockSize, t);
      if InPage(d, a, ids[b]) {
        PayloadIsLogical(d, logical, b, a % PageSize(d));
      }
    }
  }

  lemma {:induction false} BlocksAgree<T>(d: Dims, mem: seq<T>, logical: seq<T>, ids: seq<nat>, n: nat, a: nat)
    requires |logical| == Size(d.Logical()) && |ids| == d.blocks && n <= d.blocks && a < |mem|
    ensures n * d.blockSize <= d.blocks * d.blockSize && Size(d.Physical()) == |logical|
    ensures Scattered(d, mem, logical, Slots(d, ids), n * d.blockSize)[a]
         == PagesCopied(d, mem, ToBlockFirst(d, logical), ids, n)[a]
  {
    hide LogicalAt, ToBlockFirst, Unravel, Size;
    SizesAgree(d);
    MulMonotone(n, d.blocks, d.blockSize);
    if n > 0 {
      BlocksAgree(d, mem, logical, ids, n - 1, a);
      assert (n - 1) * d.blockSize + d.blockSize == n * d.blockSize;
      BlockProgress(d, mem, logical, ids, n - 1, d.blockSize, a);
      if InPage(d, a, ids[n - 1]) {
        PayloadIsLogical(d, logical, n - 1, a % PageSize(d));
      }
    }
  }

  /** Direct I/O of every payload block into page allocated_block_ids[b] leaves the same
      paged memory as decoding the payload and scattering it by slot mapping. */
  lemma DirectLoadIsDecodeAndScatter<T>(d: Dims, mem: seq<T>, payload: seq<T>, ids: seq<nat>)
    requires |payload| == Size(d.Physical()) && |ids| == d.blocks
    ensures PagesCopied(d, mem, payload, ids, d.blocks)
         == Scattered(d, mem, ToLogical(d, payload), Slots(d, ids), d.blocks * d.blockSize)
  {
    SizesAgree(d);
    ConversionsAreInverse(d, payload);
    forall a: nat | a < |mem|
      ensures PagesCopied(d, mem, payload, ids, d.blocks)[a]
           == Scattered(d, mem, ToLogical(d, payload), Slots(d, ids), d.blocks * d.blockSize)[a]
    {
      BlocksAgree(d, mem, ToLogical(d, payload), ids, d.blocks, a);
    }
  }

  lemma PageRange(a: nat, page: nat, size: nat)
    ensures size > 0 && a / size == page <==> page * size <= a < page * size + size
    ensures page * size <= a < page * size + size ==> a % size == a - page * size
  {
    if page * size <= a < page * size + size {
      DivMod(page, a - page * size, size);
    }
  }

  // ---- element by element ----

  /** Payload block b lies in page `page`, byte for byte. */
  ghost predicate Landed<T>(d: Dims, mem: seq<T>, payload: seq<T>, page: nat, b: nat) {
    var size := PageSize(d);
    && page * size + size <= |mem| && b * size + size <= |payload|
    && mem[page * size..page * size + size] == payload[b * size..b * size + size]
  }

  lemma {:induction false} CopiedElement<T>(d: Dims, mem: seq<T>, payload: seq<T>, ids: seq<nat>, n: nat, b: nat, a: nat)
    requires |payload| == Size(d.Physical()) && |ids| == d.blocks && b < n <= d.blocks && Distinct(ids)
    requires a < |mem| && InPage(d, a, ids[b])
    ensures PagesCopied(d, mem, payload, ids, n)[a] == PayloadAt(d, payload, b, a % PageSize(d))
  {
    if b < n - 1 {
      CopiedElement(d, mem, payload, ids, n - 1, b, a);
      assert ids[b] != ids[n - 1];
    }
  }

  lemma {:induction false} OtherElement<T>(d: Dims, mem: seq<T>, payload: seq<T>, ids: seq<nat>, n: nat, a: nat)
    requires |payload| == Size(d.Physical()) && |ids| == d.blocks && n <= d.blocks
    requires a < |mem| && forall b :: 0 <= b < n ==> !InPage(d, a, ids[b])
    ensures PagesCopied(d, mem, payload, ids, n)[a] == mem[a]
  {
    if n > 0 {
      OtherElement(d, mem, payload, ids, n - 1, a);
    }
  }

  /** With distinct pages every payload block lies in its own page, and no other page changed. */
  lemma {:induction false} BlockLanded<T>(d: Dims, mem: seq<T>, payload: seq<T>, ids: seq<nat>, pages: nat, b: nat)
    requires |payload| == Size(d.Physical()) && |ids| == d.blocks && Distinct(ids) && Fits(d, mem, pages, ids) && b < d.blocks
    ensures Landed(d, PagesCopied(d, mem, payload, ids, d.blocks), payload, ids[b], b)
  {
    hide PagesCopied, Size;
    var size, m := PageSize(d), PagesCopied(d, mem, payload, ids, d.blocks);
    PayloadSize(d);
    MulMonotone(ids[b] + 1, pages, size);
    MulMonotone(b + 1, d.blocks, size);
    assert (ids[b] + 1) * size == ids[b] * size + size && (b + 1) * size == b * size + size;
    var at, from := ids[b] * size, b * size;
    var x, y := m[at..at + size], payload[from..from + size];
    forall o: nat | o < size ensures x[o] == y[o] {
      PageRange(at + o, ids[b], size);
      CopiedElement(d, mem, payload, ids, d.blocks, b, at + o);
    }
    assert x == y;
  }

  /** A page of the memory is as it was. */
  ghost predicate PageKept<T>(d: Dims, before: seq<T>, now: seq<T>, page: nat) {
    var size := PageSize(d);
    && page * size + size <= |before| == |now|
    && now[page * size..page * size + size] == before[page * size..page * size + size]
  }

  lemma {:induction false} OthersKept<T>(d: Dims, mem: seq<T>, payload: seq<T>, ids: seq<nat>, pages: nat, page: nat)
    requires |payload| == Size(d.Physical()) && |ids| == d.blocks && Fits(d, mem, pages, ids) && page < pages && page !in ids
    ensures PageKept(d, mem, PagesCopied(d, mem, payload, ids, d.blocks), page)
  {
    hide PagesCopied, Size;
    var size, m := PageSize(d), PagesCopied(d, mem, payload, ids, d.blocks);
    MulMonotone(page + 1, pages, size);
    assert (page + 1) * size == page * size + size;
    var at := page * size;
    var x, y := m[at..at + size], mem[at..at + size];
    forall o: nat | o < size ensures x[o] == y[o] {
      PageRange(at + o, page, size);
      OtherElement(d, mem, payload, ids, d.blocks, at + o);
    }
    assert x == y;
  }

  /** From the disk to the attention kernel: with distinct pages, element (l, k, s, h, e) of page
      `ids[b]` of the cross-layer tensor is the element of the decoded tensor for layer l, K or
      V, token b * BS + s and channel h * HS + e. */
  lemma {:induction false} TokenLanded<T>(
      d: Dims, mem: seq<T>, payload: seq<T>, ids: seq<nat>, pages: nat, heads: nat, headSize: nat,
      b: nat, l: nat, k: nat, s: nat, h: nat, e: nat)
    requires |payload| == Size(d.Physical()) && |ids| == d.blocks && Distinct(ids) && Fits(d, mem, pages, ids)
    requires d.hidden == heads * headSize
    requires b < d.blocks && l < d.layers && k < 2 && s < d.blockSize && h < heads && e < headSize
    ensures
      var at := Ravel([ids[b], l, k, s, h, e], [pages, d.layers, 2, d.blockSize, heads, headSize]);
      var from := Ravel([k, l, b * d.blockSize + s, h * headSize + e], d.Logical());
      && at < |mem| && from < Size(d.Logical())
      && PagesCopied(d, mem, payload, ids, d.blocks)[at] == ToLogical(d, payload)[from]
  {
    hide PagesCopied, Size, Ravel, ToLogical, ToBlockFirst;
    var c, size := h * headSize + e, PageSize(d);
    PairBound(h, e, heads, headSize);
    var inner := Ravel([l, k, s, c], Inner(d));
    RavelInBounds([l, k, s, c], Inner(d));
    PageElement(d, pages, heads, headSize, ids[b], l, k, s, h, e);
    MulMonotone(ids[b] + 1, pages, size);
    assert (ids[b] + 1) * size == ids[b] * size + size;
    PageRange(ids[b] * size + inner, ids[b], size);
    CopiedElement(d, mem, payload, ids, d.blocks, b, ids[b] * size + inner);
    RavelCons(b, [l, k, s, c], d.blocks, Inner(d));
    assert [b] + [l, k, s, c] == [b, l, k, s, c] && [d.blocks] + Inner(d) == d.Physical();
    SizesAgree(d);
    ConversionsAreInverse(d, payload);
    BlockFirstElement(d, ToLogical(d, payload), b, l, k, s, c);
  }

  /** The device side of direct I/O: one contiguous transfer of a payload block. */
  method TransferBlock<T>(mem: array<T>, at: nat, payload: array<T>, from: nat, size: nat)
    requires mem != payload && at + size <= mem.Length && from + size <= payload.Length
    modifies mem
    ensures forall a :: 0 <= a < mem.Length ==>
      mem[a] == if at <= a < at + size then payload[from + (a - at)] else old(mem[a])
  {
    forall o | 0 <= o < size {
      mem[at + o] := payload[from + o];
    }
  }

  /** One synchronous transfer per block between the payload and the page buffer. */
  method DirectLoad<T>(d: Dims, mem: array<T>, payload: array<T>, ids: seq<nat>, pages: nat)
    requires mem != payload && payload.Length == Size(d.Physical()) && |ids| == d.blocks
    requires Fits(d, mem[..], pages, ids)
    modifies mem
    ensures mem[..] == PagesCopied(d, old(mem[..]), payload[..], ids, d.blocks)
    ensures Distinct(ids) ==> forall b :: 0 <= b < d.blocks ==> Landed(d, mem[..], payload[..], ids[b], b)
    ensures forall page: nat :: page < pages && page !in ids ==> PageKept(d, old(mem[..]), mem[..], page)
  {
    var size := PageSize(d);
    PayloadSize(d);
    for b := 0 to d.blocks
      invariant mem[..] == PagesCopied(d, old(mem[..]), payload[..], ids, b)
    {
      MulMonotone(ids[b] + 1, pages, size);
      MulMonotone(b + 1, d.blocks, size);
      TransferBlock(mem, ids[b] * size, payload, b * size, size);
      forall a: nat | a < mem.Length
        ensures mem[a] == PagesCopied(d, old(mem[..]), payload[..], ids, b + 1)[a]
      {
        PageRange(a, ids[b], size);
      }
    }
    forall b | Distinct(ids) && 0 <= b < d.blocks ensures Landed(d, mem[..], payload[..], ids[b], b) {
      BlockLanded(d, old(mem[..]), payload[..], ids, pages, b);
    }
    forall page: nat | page < pages && page !in ids ensures PageKept(d, old(mem[..]), mem[..], page) {
      OthersKept(d, old(mem[..]), payload[..], ids, pages, page);
    }
  }
}
