/** The block-first disk layout: a logical KV chunk [2, NL, T, D] stored as
    [CB, NL, 2, BS, D] with T = CB * BS, and back. */
module BlockFirstLayout {
  import opened Results
  import opened TensorIndex

  const ALIGNMENT: int := 4096

  function AlignUp(size: int, alignment: int): (r: Result<int>)
    ensures r.Ok? <==> size >= 0 && alignment > 0
    ensures r.Ok? ==> r.value % alignment == 0 && size <= r.value < size + alignment
  {
    if size < 0 then Err("size must be non-negative")
    else if alignment <= 0 then Err("alignment must be positive")
    else
      var blocks := (size + alignment - 1) / alignment;
      DivMod(blocks, 0, alignment);
      Ok(blocks * alignment)
  }

  /** The extents of one chunk. */
  datatype Dims = Dims(blocks: nat, layers: nat, blockSize: nat, hidden: nat) {
    function Physical(): (shape: seq<nat>) { [blocks, layers, 2, blockSize, hidden] }
    /** `logical.view(2, NL, CB, BS, D)` */
    function View(): seq<nat> { [2, layers, blocks, blockSize, hidden] }
    function Logical(): seq<nat> { [2, layers, blocks * blockSize, hidden] }
  }

  ghost predicate LegalShape(shape: seq<int>, blockSize: int) {
    && |shape| == 4 && shape[0] == 2
    && (forall i :: 0 <= i < 4 ==> shape[i] > 0)
    && blockSize > 0 && shape[2] % blockSize == 0
  }

  /** Accepted shapes are exactly those of whole chunks, and the block-first shape is
      the one whose axes (blocks, slots) merge back into the token axis. */
  function BlockFirstShape(shape: seq<int>, blockSize: int): (r: Result<Dims>)
    ensures r.Ok? <==> LegalShape(shape, blockSize)
    ensures r.Ok? ==> r.value.Logical() == shape && r.value.blockSize == blockSize && r.value.blocks > 0
  {
    if |shape| != 4 || shape[0] != 2 then Err("logical KV shape must be [2, NL, T, D]")
    else if exists i :: 0 <= i < 4 && shape[i] <= 0 then Err("logical KV dimensions must be positive")
    else if blockSize <= 0 then Err("block_size must be positive")
    else if shape[2] % blockSize != 0 then Err("token count is not divisible by block size")
    else
      assert shape == [2, shape[1], shape[2], shape[3]];
      Ok(Dims(shape[2] / blockSize, shape[1], blockSize, shape[3]))
  }

  /** `permute(2, 1, 0, 3, 4)` on coordinates. */
  function Swap(idx: seq<nat>): seq<nat>
    requires |idx| == 5
  {
    [idx[2], idx[1], idx[0], idx[3], idx[4]]
  }

  lemma SizesAgree(d: Dims)
    ensures Size(d.Physical()) == Size(d.View()) == Size(d.Logical())
  {
    SizeSplit([2, d.layers], d.blocks, d.blockSize, [d.hidden]);
    assert [2, d.layers] + [d.blocks, d.blockSize] + [d.hidden] == d.View();
    assert [2, d.layers] + [d.blocks * d.blockSize] + [d.hidden] == d.Logical();
    var tail := [d.blockSize, d.hidden];
    SizeOfTriple(d.blocks, d.layers, 2, tail);
    SizeOfTriple(2, d.layers, d.blocks, tail);
    assert d.Physical() == [d.blocks, d.layers, 2] + tail && d.View() == [2, d.layers, d.blocks] + tail;
    var n := Size(tail);
    assert d.blocks * (d.layers * (2 * n)) == 2 * (d.layers * (d.blocks * n)) by {
      assert d.layers * (2 * n) == 2 * (d.layers * n);
      assert d.blocks * (d.layers * n) == d.layers * (d.blocks * n);
    }
  }

  lemma SizeOfTriple(a: nat, b: nat, c: nat, tail: seq<nat>)
    ensures Size([a, b, c] + tail) == a * (b * (c * Size(tail)))
  {
    assert ([c] + tail)[1..] == tail;
    assert Size([c] + tail) == c * Size(tail);
    assert ([b, c] + tail)[1..] == [c] + tail;
    assert Size([b, c] + tail) == b * Size([c] + tail);
    assert ([a, b, c] + tail)[1..] == [b, c] + tail;
  }

  /** Where `out.copy_(source.permute(2, 1, 0, 3, 4))` reads the element it writes at
      flat offset `i` of the block-first tensor. */
  function SourceOffset(d: Dims, i: nat): (j: nat)
    requires i < Size(d.Physical())
    ensures j < Size(d.View())
  {
    var idx := Swap(Unravel(i, d.Physical()));
    RavelInBounds(idx, d.View());
    Ravel(idx, d.View())
  }

  /** The reverse copy: where offset `j` of the logical tensor is read from. */
  function TargetOffset(d: Dims, j: nat): (i: nat)
    requires j < Size(d.View())
    ensures i < Size(d.Physical())
  {
    var idx := Swap(Unravel(j, d.View()));
    RavelInBounds(idx, d.Physical());
    Ravel(idx, d.Physical())
  }

  function ToBlockFirst<T>(d: Dims, logical: seq<T>): (physical: seq<T>)
    requires |logical| == Size(d.Logical())
    ensures |physical| == Size(d.Physical())
  {
    SizesAgree(d);
    seq(|logical|, i requires 0 <= i < |logical| => logical[SourceOffset(d, i)])
  }

  function ToLogical<T>(d: Dims, physical: seq<T>): (logical: seq<T>)
    requires |physical| == Size(d.Physical())
    ensures |logical| == Size(d.Logical())
  {
    SizesAgree(d);
    seq(|physical|, j requires 0 <= j < |physical| => physical[TargetOffset(d, j)])
  }

  /** The flat index map is a bijection of [0, 2 * NL * T * D). */
  lemma OffsetsAreInverse(d: Dims, i: nat)
    requires i < Size(d.Physical())
    ensures i < Size(d.Logical()) == Size(d.View())
    ensures TargetOffset(d, SourceOffset(d, i)) == i
    ensures SourceOffset(d, TargetOffset(d, i)) == i
  {
    SizesAgree(d);
    var p := Unravel(i, d.Physical());
    UnravelOfRavel(Swap(p), d.View());
    assert Swap(Swap(p)) == p;
    RavelOfUnravel(i, d.Physical());
    var q := Unravel(i, d.View());
    UnravelOfRavel(Swap(q), d.Physical());
    assert Swap(Swap(q)) == q;
    RavelOfUnravel(i, d.View());
  }

  /** Merging the (block, slot) axes of the view gives the token axis. */
  lemma ViewIsLogical(d: Dims, k: nat, l: nat, b: nat, s: nat, c: nat)
    ensures Ravel([k, l, b, s, c], d.View()) == Ravel([k, l, b * d.blockSize + s, c], d.Logical())
  {
    ViewSplitsAxis([k, l], b, s, [c], [2, d.layers], d.blocks, d.blockSize, [d.hidden]);
    assert [k, l] + [b, s] + [c] == [k, l, b, s, c];
    assert [2, d.layers] + [d.blocks, d.blockSize] + [d.hidden] == d.View();
    assert [k, l] + [b * d.blockSize + s] + [c] == [k, l, b * d.blockSize + s, c];
    assert [2, d.layers] + [d.blocks * d.blockSize] + [d.hidden] == d.Logical();
  }

  /** The element law: physical[b, l, k, s, c] = logical[k, l, b * BS + s, c]. */
  lemma BlockFirstElement<T>(d: Dims, logical: seq<T>, b: nat, l: nat, k: nat, s: nat, c: nat)
    requires |logical| == Size(d.Logical())
    requires b < d.blocks && l < d.layers && k < 2 && s < d.blockSize && c < d.hidden
    ensures Ravel([b, l, k, s, c], d.Physical()) < |logical|
    ensures Ravel([k, l, b * d.blockSize + s, c], d.Logical()) < |logical|
    ensures ToBlockFirst(d, logical)[Ravel([b, l, k, s, c], d.Physical())]
         == logical[Ravel([k, l, b * d.blockSize + s, c], d.Logical())]
  {
    SizesAgree(d);
    var p := [b, l, k, s, c];
    assert Swap(p) == [k, l, b, s, c];
    ViewIsLogical(d, k, l, b, s, c);
    ReadOffset(d, p);
  }

  lemma ReadOffset(d: Dims, p: seq<nat>)
    requires InShape(p, d.Physical())
    ensures Ravel(p, d.Physical()) < Size(d.Physical())
    ensures SourceOffset(d, Ravel(p, d.Physical())) == Ravel(Swap(p), d.View())
  {
    UnravelOfRavel(p, d.Physical());
  }

  /** The two conversions are mutually inverse on flat buffers of every legal size. */
  lemma ConversionsAreInverse<T>(d: Dims, x: seq<T>)
    requires |x| == Size(d.Logical())
    ensures Size(d.Physical()) == |x|
    ensures ToLogical(d, ToBlockFirst(d, x)) == x
    ensures ToBlockFirst(d, ToLogical(d, x)) == x
  {
    SizesAgree(d);
    forall i: nat | i < |x|
      ensures ToLogical(d, ToBlockFirst(d, x))[i] == x[i] && ToBlockFirst(d, ToLogical(d, x))[i] == x[i]
    {
      OffsetsAreInverse(d, i);
    }
  }

  /** What the conversions read of a torch tensor; `data` is its storage. */
  class Tensor<T(0)> {
    const shape: seq<nat>
    const contiguous: bool
    const dtype: string
    const device: string
    const data: array<T>

    ghost predicate Valid() {
      contiguous ==> data.Length == Size(shape)
    }

    /** `torch.empty`: contiguous, contents arbitrary. */
    constructor Empty(shape: seq<nat>, dtype: string, device: string)
      ensures Valid() && contiguous && fresh(data)
      ensures this.shape == shape && this.dtype == dtype && this.device == device
    {
      this.shape, this.contiguous, this.dtype, this.device := shape, true, dtype, device;
      this.data := new T[Size(shape)];
    }
  }

  ghost predicate SameKind<T(0)>(out: Tensor?<T>, like: Tensor<T>, shape: seq<nat>) {
    out != null ==> out.shape == shape && out.dtype == like.dtype && out.device == like.device
  }

  method LogicalToBlockFirst<T(0)>(logical: Tensor<T>, blockSize: int, out: Tensor?<T>)
    returns (r: Result<Tensor<T>>)
    requires logical.Valid()
    requires out != null ==> out.Valid() && out.contiguous && out.data != logical.data
    modifies if out == null then {} else {out.data}
    ensures r.Ok? <==> (
      && LegalShape(logical.shape, blockSize) && logical.contiguous
      && SameKind(out, logical, BlockFirstShape(logical.shape, blockSize).value.Physical()))
    ensures r.Err? && out != null ==> out.data[..] == old(out.data[..])
    ensures r.Ok? ==> if out == null then fresh(r.value) && fresh(r.value.data) else r.value == out
    ensures r.Ok? ==>
      var d := BlockFirstShape(logical.shape, blockSize).value;
      && r.value.shape == d.Physical() && r.value.dtype == logical.dtype && r.value.device == logical.device
      && logical.data.Length == Size(d.Logical())
      && r.value.data[..] == ToBlockFirst(d, old(logical.data[..]))
  {
    var target := BlockFirstShape(logical.shape, blockSize);
    if target.Err? {
      return Err(target.reason);
    }
    if !logical.contiguous {
      return Err("logical KV tensor must be contiguous");
    }
    var d := target.value;
    var dest: Tensor<T>;
    if out == null {
      dest := new Tensor<T>.Empty(d.Physical(), logical.dtype, logical.device);
    } else {
      dest := out;
    }
    if dest.shape != d.Physical() {
      return Err("block-first output shape mismatch");
    }
    if dest.dtype != logical.dtype || dest.device != logical.device {
      return Err("block-first output must have the same dtype and device as the input");
    }
    SizesAgree(d);
    forall i | 0 <= i < dest.data.Length {
      dest.data[i] := logical.data[SourceOffset(d, i)];
    }
    assert dest.data[..] == ToBlockFirst(d, old(logical.data[..]));
    return Ok(dest);
  }

  method BlockFirstToLogical<T(0)>(physical: Tensor<T>, out: Tensor?<T>) returns (r: Result<Tensor<T>>)
    requires physical.Valid()
    requires out != null ==> out.Valid() && out.contiguous && out.data != physical.data
    modifies if out == null then {} else {out.data}
    ensures r.Ok? <==> (
      && |physical.shape| == 5 && physical.shape[2] == 2 && physical.contiguous
      && SameKind(out, physical, DimsOf(physical.shape).Logical()))
    ensures r.Err? && out != null ==> out.data[..] == old(out.data[..])
    ensures r.Ok? ==> if out == null then fresh(r.value) && fresh(r.value.data) else r.value == out
    ensures r.Ok? ==>
      var d := DimsOf(physical.shape);
      && r.value.shape == d.Logical() && r.value.dtype == physical.dtype && r.value.device == physical.device
      && d.Physical() == physical.shape && physical.data.Length == Size(d.Physical())
      && r.value.data[..] == ToLogical(d, old(physical.data[..]))
  {
    if |physical.shape| != 5 || physical.shape[2] != 2 {
      return Err("block-first KV shape must be [CB, NL, 2, BS, D]");
    }
    if !physical.contiguous {
      return Err("block-first KV tensor must be contiguous");
    }
    var d := DimsOf(physical.shape);
    assert d.Physical() == physical.shape;
    var dest: Tensor<T>;
    if out == null {
      dest := new Tensor<T>.Empty(d.Logical(), physical.dtype, physical.device);
    } else {
      dest := out;
    }
    if dest.shape != d.Logical() {
      return Err("logical output shape mismatch");
    }
    if dest.dtype != physical.dtype || dest.device != physical.device {
      return Err("logical output must have the same dtype and device as the input");
    }
    SizesAgree(d);
    forall j | 0 <= j < dest.data.Length {
      dest.data[j] := physical.data[TargetOffset(d, j)];
    }
    assert dest.data[..] == ToLogical(d, old(physical.data[..]));
    return Ok(dest);
  }

  function DimsOf(physicalShape: seq<nat>): Dims
    requires |physicalShape| == 5
  {
    Dims(physicalShape[0], physicalShape[1], physicalShape[3], physicalShape[4])
  }
}
