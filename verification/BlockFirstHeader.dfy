/** The self-describing 4 KiB header in front of a block-first payload: descriptor,
    layout signature, JSON body, checksum and length prefix. SHA-256, CRC-32 and torch's
    dtype table are parameters. */
module BlockFirstHeader {
  import opened Results
  import opened TensorIndex
  import opened BlockFirstLayout
  import opened Json

  type Byte = b: int | 0 <= b < 256

  datatype DType = DType(name: Text, itemSize: nat)

  /** `dtypes` is `getattr(torch, name)`: aliases map to the dtype with its own name. */
  datatype Env = Env(dtypes: map<Text, DType>, digest: seq<Byte> -> Text, crc: seq<Byte> -> int)

  ghost predicate Ascii(t: Text) {
    forall i :: 0 <= i < |t| ==> t[i] < 128
  }

  ghost predicate WellFormed(env: Env) {
    && (forall n :: n in env.dtypes ==>
          && Ascii(n) && env.dtypes[n].name in env.dtypes
          && env.dtypes[env.dtypes[n].name] == env.dtypes[n])
    && (forall b :: Ascii(env.digest(b)))
    && (forall b :: 0 <= env.crc(b) < 0x1_0000_0000)
  }

  const HEADER_SIZE: nat := 4096
  const MAGIC: seq<Byte> := [0x4C, 0x4D, 0x43, 0x42, 0x46, 0x56, 0x31, 0]
  const PREFIX_SIZE: nat := 16

  function FromAscii(s: string): (t: Text)
    ensures |t| == |s| && Ascii(t)
  {
    seq(|s|, i requires 0 <= i < |s| => if s[i] as int < 128 then s[i] as int else 63)
  }

  const LAYOUT: Text := FromAscii("block_first_v1")

  datatype Metadata = Metadata(
    layout: Text, version: int, logicalShape: seq<int>, payloadShape: seq<int>, dtype: Text,
    validTokens: int, numLayers: int, blockSize: int, hiddenDim: int, payloadNbytes: int, ioNbytes: int,
    modelName: Text, worldSize: int, workerId: int, tensorParallel: int, pipelineParallel: int,
    signature: Text)

  /** The deployment a chunk belongs to. */
  datatype Engine = Engine(modelName: Text, worldSize: int, workerId: int, tensorParallel: int, pipelineParallel: int)

  // ---- layout signature ----

  const SIGNATURE_KEYS: seq<Text> := [
    FromAscii("block_size"), FromAscii("dtype"), FromAscii("hidden_dim"), FromAscii("layout"), FromAscii("model_name"), FromAscii("num_layers"),
    FromAscii("pipeline_parallel_size"), FromAscii("tensor_parallel_size"), FromAscii("worker_id"), FromAscii("world_size")]

  /** Fields that affect physical coordinates, in sorted key order. */
  function SignatureValues(e: Engine, numLayers: int, blockSize: int, hiddenDim: int, dtypeName: Text): (v: seq<Json>)
    ensures |v| == 10 && Exact(JArr(v))
  {
    [JInt(blockSize), JStr(dtypeName), JInt(hiddenDim), JStr(LAYOUT), JStr(e.modelName), JInt(numLayers),
     JInt(e.pipelineParallel), JInt(e.tensorParallel), JInt(e.workerId), JInt(e.worldSize)]
  }

  function Zip(keys: seq<Text>, values: seq<Json>): (ms: seq<Member>)
    requires |keys| == |values|
    ensures |ms| == |keys|
    ensures Exact(JArr(values)) ==> Exact(JObj(ms))
  {
    seq(|keys|, i requires 0 <= i < |keys| => Member(keys[i], values[i]))
  }

  function MakeSignature(env: Env, e: Engine, numLayers: int, blockSize: int, hiddenDim: int, dtype: DType): Text {
    var fields := JObj(Zip(SIGNATURE_KEYS, SignatureValues(e, numLayers, blockSize, hiddenDim, dtype.name)));
    PrintIsAscii(fields);
    env.digest(Encode(Print(fields)))
  }

  /** UTF-8 of a text without characters above U+007F. */
  function Encode(t: Text): (b: seq<Byte>)
    requires Ascii(t)
    ensures |b| == |t|
  {
    seq(|t|, i requires 0 <= i < |t| => t[i] as int)
  }

  lemma HexIsAscii(n: nat)
    requires n < 0x10000
    ensures Ascii(UnitEscape(n))
  {
  }

  lemma {:induction false} EscapeIsAscii(s: Text)
    ensures Ascii(EscapeAll(s))
  {
    if s != [] {
      EscapeIsAscii(s[1..]);
      var c := s[0];
      if c >= 0x10000 {
        HexIsAscii(HighOf(c));
        HexIsAscii(LowOf(c));
      } else if |Escape(c)| > 2 {
        HexIsAscii(c);
      }
    }
  }

  /** `json.dumps` output is ASCII whatever the strings hold. */
  lemma {:induction false} PrintIsAscii(j: Json)
    requires Exact(j)
    ensures Ascii(Print(j))
    decreases j, 1
  {
    match j
    case JNull =>
    case JBool(b) =>
    case JInt(n) =>
    case JStr(s) => EscapeIsAscii(s);
    case JArr(es) => ElemsAreAscii(es);
    case JObj(ms) => MembersAreAscii(ms);
  }

  lemma {:induction false} ElemsAreAscii(es: seq<Json>)
    requires forall e :: e in es ==> Exact(e)
    ensures Ascii(PrintElems(es))
    decreases es, 0
  {
    if es != [] {
      PrintIsAscii(es[0]);
      ElemsAreAscii(es[1..]);
    }
  }

  lemma {:induction false} MembersAreAscii(ms: seq<Member>)
    requires forall m :: m in ms ==> Exact(m.value)
    ensures Ascii(PrintMembers(ms))
    decreases ms, 0
  {
    if ms != [] {
      EscapeIsAscii(ms[0].key);
      PrintIsAscii(ms[0].value);
      MembersAreAscii(ms[1..]);
    }
  }

  // ---- descriptor ----

  function Product(dims: seq<int>): int {
    if dims == [] then 1 else dims[0] * Product(dims[1..])
  }

  function EngineOf(m: Metadata): Engine {
    Engine(m.modelName, m.worldSize, m.workerId, m.tensorParallel, m.pipelineParallel)
  }

  /** `validate()` returns without raising. */
  predicate Validates(env: Env, m: Metadata) {
    && m.layout == LAYOUT && m.version == 1
    && BlockFirstShape(m.logicalShape, m.blockSize).Ok?
    && m.payloadShape == BlockFirstShape(m.logicalShape, m.blockSize).value.Physical()
    && m.validTokens == m.logicalShape[2]
    && m.numLayers == m.logicalShape[1]
    && m.hiddenDim == m.logicalShape[3]
    && m.worldSize > 0 && m.tensorParallel > 0 && m.pipelineParallel > 0
    && 0 <= m.workerId < m.worldSize
    && m.dtype in env.dtypes
    && m.payloadNbytes == Product(m.payloadShape) * env.dtypes[m.dtype].itemSize
    && AlignUp(m.payloadNbytes, ALIGNMENT) == Ok(m.ioNbytes)
    && m.signature == MakeSignature(env, EngineOf(m), m.numLayers, m.blockSize, m.hiddenDim, env.dtypes[m.dtype])
  }

  lemma {:induction false} ProductIsSize(shape: seq<nat>)
    ensures Product(shape) == Size(shape)
  {
    if shape != [] {
      ProductIsSize(shape[1..]);
    }
  }

  ghost predicate LegalEngine(e: Engine) {
    e.worldSize > 0 && e.tensorParallel > 0 && e.pipelineParallel > 0 && 0 <= e.workerId < e.worldSize
  }

  /** `create` refuses exactly the illegal shapes and engines: it never rejects the
      descriptor it has just computed. The payload is the tensor's own byte count and the
      I/O size its 4 KiB round-up. */
  function Create(env: Env, shape: seq<nat>, dtype: DType, blockSize: int, e: Engine): (r: Result<Metadata>)
    requires WellFormed(env) && dtype.name in env.dtypes && env.dtypes[dtype.name] == dtype
    ensures r.Ok? <==> LegalShape(shape, blockSize) && LegalEngine(e)
    ensures r.Ok? ==> Validates(env, r.value)
    ensures r.Ok? ==> r.value.payloadNbytes == Size(shape) * dtype.itemSize
    ensures r.Ok? ==> r.value.ioNbytes % 4096 == 0
    ensures r.Ok? ==> r.value.payloadNbytes <= r.value.ioNbytes < r.value.payloadNbytes + 4096
  {
    var dims := BlockFirstShape(shape, blockSize);
    if dims.Err? then Err(dims.reason)
    else
      var nbytes := Size(shape) * dtype.itemSize;
      assert nbytes >= 0 by { MulMonotone(0, Size(shape), dtype.itemSize); }
      SizesAgree(dims.value);
      ProductIsSize(dims.value.Physical());
      var m := Metadata(
        LAYOUT, 1, shape, dims.value.Physical(), dtype.name, shape[2], shape[1], blockSize, shape[3],
        nbytes, AlignUp(nbytes, ALIGNMENT).value,
        e.modelName, e.worldSize, e.workerId, e.tensorParallel, e.pipelineParallel,
        MakeSignature(env, e, shape[1], blockSize, shape[3], dtype));
      assert EngineOf(m) == e;
      if Validates(env, m) then Ok(m) else Err("inconsistent metadata")
  }

  /** `validate_runtime()` returns without raising. */
  predicate ValidatesRuntime(env: Env, m: Metadata, shape: seq<int>, dtype: DType, blockSize: int, e: Engine) {
    && Validates(env, m)
    && |shape| >= 4
    && m.logicalShape == shape
    && env.dtypes[m.dtype] == dtype
    && m.signature == MakeSignature(env, e, shape[1], blockSize, shape[3], dtype)
  }

  ghost predicate CollisionFree(env: Env) {
    forall a, b :: env.digest(a) == env.digest(b) ==> a == b
  }

  lemma {:induction false} NormalMembersAt(ms: seq<Member>, i: nat)
    requires i < |ms|
    ensures |NormalMembers(ms)| == |ms|
    ensures NormalMembers(ms)[i] == Member(Joined(ms[i].key), Normal(ms[i].value))
  {
    if i > 0 {
      NormalMembersAt(ms[1..], i - 1);
    } else if |ms| > 1 {
      NormalMembersAt(ms[1..], 0);
    }
  }

  lemma EncodeInjective(a: Text, b: Text)
    requires Ascii(a) && Ascii(b) && Encode(a) == Encode(b)
    ensures a == b
  {
    forall i | 0 <= i < |a| ensures a[i] == b[i] {
      assert Encode(a)[i] == Encode(b)[i];
    }
  }

  lemma AsciiJoins(t: Text)
    requires Ascii(t)
    ensures Joined(t) == t
  {
    JoinedIdentity(t);
  }

  /** Objects printed alike hold values that read back alike. */
  lemma ObjectsDetermined(keys: seq<Text>, v: seq<Json>, v': seq<Json>, i: nat)
    requires |keys| == |v| == |v'| && i < |keys|
    requires Exact(JArr(v)) && Exact(JArr(v')) && Print(JObj(Zip(keys, v))) == Print(JObj(Zip(keys, v')))
    ensures Normal(v[i]) == Normal(v'[i])
  {
    PrintInjective(JObj(Zip(keys, v)), JObj(Zip(keys, v')));
    NormalMembersAt(Zip(keys, v), i);
    NormalMembersAt(Zip(keys, v'), i);
  }

  /** With a collision-free digest, equal signatures mean equal coordinate-affecting
      fields (the model name as JSON reads it back). */
  lemma SignatureDetermines(env: Env, e: Engine, nl: int, bs: int, hd: int, dt: DType,
                            e': Engine, nl': int, bs': int, hd': int, dt': DType)
    requires WellFormed(env) && CollisionFree(env) && Ascii(dt.name) && Ascii(dt'.name)
    requires MakeSignature(env, e, nl, bs, hd, dt) == MakeSignature(env, e', nl', bs', hd', dt')
    ensures nl == nl' && bs == bs' && hd == hd' && dt.name == dt'.name
    ensures e.(modelName := Joined(e.modelName)) == e'.(modelName := Joined(e'.modelName))
  {
    var v, v' := SignatureValues(e, nl, bs, hd, dt.name), SignatureValues(e', nl', bs', hd', dt'.name);
    var j, j' := JObj(Zip(SIGNATURE_KEYS, v)), JObj(Zip(SIGNATURE_KEYS, v'));
    PrintIsAscii(j);
    PrintIsAscii(j');
    EncodeInjective(Print(j), Print(j'));
    ValuesDetermine(v, v', e, nl, bs, hd, dt.name, e', nl', bs', hd', dt'.name);
    AsciiJoins(dt.name);
    AsciiJoins(dt'.name);
  }

  lemma ValuesDetermine(v: seq<Json>, v': seq<Json>, e: Engine, nl: int, bs: int, hd: int, dt: Text,
                        e': Engine, nl': int, bs': int, hd': int, dt': Text)
    requires v == SignatureValues(e, nl, bs, hd, dt) && v' == SignatureValues(e', nl', bs', hd', dt')
    requires Print(JObj(Zip(SIGNATURE_KEYS, v))) == Print(JObj(Zip(SIGNATURE_KEYS, v')))
    ensures nl == nl' && bs == bs' && hd == hd' && Joined(dt) == Joined(dt')
    ensures e.(modelName := Joined(e.modelName)) == e'.(modelName := Joined(e'.modelName))
  {
    forall i: nat | i < 10 ensures Normal(v[i]) == Normal(v'[i]) {
      ObjectsDetermined(SIGNATURE_KEYS, v, v', i);
    }
    assert Normal(v[0]) == Normal(v'[0]) && Normal(v[1]) == Normal(v'[1]) && Normal(v[2]) == Normal(v'[2]);
    assert Normal(v[4]) == Normal(v'[4]) && Normal(v[5]) == Normal(v'[5]) && Normal(v[6]) == Normal(v'[6]);
    assert Normal(v[7]) == Normal(v'[7]) && Normal(v[8]) == Normal(v'[8]) && Normal(v[9]) == Normal(v'[9]);
  }

  /** A stored descriptor is accepted at run time exactly when every field that moves a
      physical coordinate matches. */
  lemma RuntimeAcceptsExactly(env: Env, m: Metadata, shape: seq<int>, dtype: DType, blockSize: int, e: Engine)
    requires WellFormed(env) && CollisionFree(env) && Validates(env, m)
    requires dtype.name in env.dtypes && env.dtypes[dtype.name] == dtype
    ensures ValidatesRuntime(env, m, shape, dtype, blockSize, e) <==>
      && m.logicalShape == shape && env.dtypes[m.dtype] == dtype && m.blockSize == blockSize
      && EngineOf(m).(modelName := Joined(m.modelName)) == e.(modelName := Joined(e.modelName))
  {
    if m.logicalShape == shape && env.dtypes[m.dtype] == dtype {
      if m.signature == MakeSignature(env, e, shape[1], blockSize, shape[3], dtype) {
        SignatureDetermines(env, EngineOf(m), m.numLayers, m.blockSize, m.hiddenDim, dtype,
                            e, shape[1], blockSize, shape[3], dtype);
      }
      if m.blockSize == blockSize
         && EngineOf(m).(modelName := Joined(m.modelName)) == e.(modelName := Joined(e.modelName)) {
        SameNameSameSignature(env, EngineOf(m), e, shape[1], blockSize, shape[3], dtype);
      }
    }
  }

  /** The signature sees a model name only through its escaped form. */
  lemma SameNameSameSignature(env: Env, e: Engine, e': Engine, nl: int, bs: int, hd: int, dt: DType)
    requires e.(modelName := Joined(e.modelName)) == e'.(modelName := Joined(e'.modelName))
    ensures MakeSignature(env, e, nl, bs, hd, dt) == MakeSignature(env, e', nl, bs, hd, dt)
  {
    var v, v' := SignatureValues(e, nl, bs, hd, dt.name), SignatureValues(e', nl, bs, hd, dt.name);
    var ms, ms' := Zip(SIGNATURE_KEYS, v), Zip(SIGNATURE_KEYS, v');
    EscapeOfJoined(e.modelName);
    EscapeOfJoined(e'.modelName);
    forall i | 0 <= i < 10 ensures PrintMember(ms[i]) == PrintMember(ms'[i]) {
      assert Print(v[i]) == Print(v'[i]);
    }
    MembersPrintAlike(ms, ms');
  }

  lemma {:induction false} MembersPrintAlike(ms: seq<Member>, ms': seq<Member>)
    requires |ms| == |ms'| && forall i :: 0 <= i < |ms| ==> PrintMember(ms[i]) == PrintMember(ms'[i])
    ensures PrintMembers(ms) == PrintMembers(ms')
  {
    if |ms| > 1 {
      MembersPrintAlike(ms[1..], ms'[1..]);
    }
  }

  /** A surrogate pair is escaped like the character it stands for. */
  lemma PairEscape(hi: Code, lo: Code)
    requires High(hi) && Low(lo)
    ensures Escape(Combine(hi, lo)) == Escape(hi) + Escape(lo)
  {
    var c := Combine(hi, lo);
    assert HighOf(c) == hi && LowOf(c) == lo;
  }

  lemma EscapeCons(c: Code, t: Text)
    ensures EscapeAll([c] + t) == Escape(c) + EscapeAll(t)
  {
    assert ([c] + t)[1..] == t;
  }

  lemma {:induction false} EscapeOfJoined(s: Text)
    ensures EscapeAll(Joined(s)) == EscapeAll(s)
  {
    hide Escape, EscapeAll, Combine, High, Low;
    if |s| >= 2 && High(s[0]) && Low(s[1]) {
      EscapeOfJoined(s[2..]);
      assert s == [s[0]] + ([s[1]] + s[2..]);
      EscapeCons(Combine(s[0], s[1]), Joined(s[2..]));
      EscapeCons(s[0], [s[1]] + s[2..]);
      EscapeCons(s[1], s[2..]);
      PairEscape(s[0], s[1]);
    } else if s != [] {
      EscapeOfJoined(s[1..]);
      assert s == [s[0]] + s[1..];
      EscapeCons(s[0], Joined(s[1..]));
      EscapeCons(s[0], s[1..]);
    }
  }

  // ---- header ----

  const KEYS: seq<Text> := [
    FromAscii("block_size"), FromAscii("dtype"), FromAscii("hidden_dim"), FromAscii("io_nbytes"), FromAscii("layout"),
    FromAscii("layout_signature"), FromAscii("logical_shape"), FromAscii("model_name"), FromAscii("num_layers"),
    FromAscii("payload_nbytes"), FromAscii("payload_shape"), FromAscii("pipeline_parallel_size"),
    FromAscii("tensor_parallel_size"), FromAscii("valid_tokens"), FromAscii("version"), FromAscii("worker_id"), FromAscii("world_size")]

  function Ints(v: seq<int>): (r: seq<Json>)
    ensures |r| == |v| && Exact(JArr(r))
  {
    seq(|v|, i requires 0 <= i < |v| => JInt(v[i]))
  }

  lemma ExactElements(v: seq<Json>)
    requires forall i :: 0 <= i < |v| ==> v[i].JInt? || v[i].JStr? || Exact(v[i])
    ensures Exact(JArr(v))
  {
  }

  /** `asdict(metadata)` in sorted key order. */
  function Values(m: Metadata): (v: seq<Json>)
    ensures |v| == 17 && Exact(JArr(v))
  {
    var v := [
     JInt(m.blockSize), JStr(m.dtype), JInt(m.hiddenDim), JInt(m.ioNbytes), JStr(m.layout),
     JStr(m.signature), JArr(Ints(m.logicalShape)), JStr(m.modelName), JInt(m.numLayers),
     JInt(m.payloadNbytes), JArr(Ints(m.payloadShape)), JInt(m.pipelineParallel),
     JInt(m.tensorParallel), JInt(m.validTokens), JInt(m.version), JInt(m.workerId), JInt(m.worldSize)];
    ExactElements(v);
    v
  }

  function IntsOf(j: Json): Option<seq<int>> {
    if j.JArr? && forall i :: 0 <= i < |j.elems| ==> j.elems[i].JInt?
    then Some(seq(|j.elems|, i requires 0 <= i < |j.elems| => j.elems[i].n))
    else None
  }

  /** `cls(**data)` on the values of the 17 fields. */
  function FromValues(v: seq<Json>): Option<Metadata>
    requires |v| == 17
  {
    if v[0].JInt? && v[2].JInt? && v[3].JInt? && v[8].JInt? && v[9].JInt? && v[11].JInt? && v[12].JInt?
       && v[13].JInt? && v[14].JInt? && v[15].JInt? && v[16].JInt?
       && v[1].JStr? && v[4].JStr? && v[5].JStr? && v[7].JStr?
       && IntsOf(v[6]).Some? && IntsOf(v[10]).Some?
    then Some(Metadata(
      v[4].s, v[14].n, IntsOf(v[6]).value, IntsOf(v[10]).value, v[1].s, v[13].n, v[8].n, v[0].n, v[2].n,
      v[9].n, v[3].n, v[7].s, v[16].n, v[15].n, v[12].n, v[11].n, v[5].s))
    else None
  }

  /** Dictionary lookup: a repeated key keeps its last value. */
  function Lookup(ms: seq<Member>, key: Text): Option<Json> {
    if ms == [] then None
    else match Lookup(ms[1..], key)
      case Some(v) => Some(v)
      case None => if ms[0].key == key then Some(ms[0].value) else None
  }

  function Gather(ms: seq<Member>, keys: seq<Text>): (r: Option<seq<Json>>)
    ensures r.Some? ==> |r.value| == |keys|
  {
    if keys == [] then Some([])
    else match (Lookup(ms, keys[0]), Gather(ms, keys[1..]))
      case (Some(v), Some(vs)) => Some([v] + vs)
      case _ => None
  }

  /** `from_mapping`: exactly the 17 fields, of the declared types, that validate. */
  function FromMapping(env: Env, ms: seq<Member>): Result<Metadata> {
    if exists i :: 0 <= i < |ms| && ms[i].key !in KEYS then Err("invalid block-first metadata")
    else match Gather(ms, KEYS)
      case None => Err("invalid block-first metadata")
      case Some(v) =>
        match FromValues(v)
        case None => Err("invalid block-first metadata")
        case Some(m) => if Validates(env, m) then Ok(m) else Err("inconsistent metadata")
  }

  function Little32(n: int): (b: seq<Byte>)
    requires 0 <= n < 0x1_0000_0000
    ensures |b| == 4
  {
    var q1 := n / 256;
    var q2 := q1 / 256;
    [n % 256, q1 % 256, q2 % 256, q2 / 256]
  }

  function Read32(b: seq<Byte>): int
    requires |b| >= 4
  {
    b[0] as int + 256 * (b[1] as int + 256 * (b[2] as int + 256 * b[3] as int))
  }

  function HeaderBody(m: Metadata): (b: seq<Byte>) {
    var j := JObj(Zip(KEYS, Values(m)));
    PrintIsAscii(j);
    Encode(Print(j))
  }

  /** `pack_block_first_header` */
  function Pack(env: Env, m: Metadata): (r: Result<seq<Byte>>)
    requires WellFormed(env)
    ensures r.Ok? <==> Validates(env, m) && |HeaderBody(m)| <= HEADER_SIZE - PREFIX_SIZE
    ensures r.Ok? ==> |r.value| == HEADER_SIZE
  {
    if !Validates(env, m) then Err("inconsistent metadata")
    else
      var body := HeaderBody(m);
      if |body| > HEADER_SIZE - PREFIX_SIZE then Err("metadata is too large for the 4 KiB header")
      else
        var prefix := MAGIC + Little32(|body|) + Little32(env.crc(body));
        Ok(prefix + body + seq(HEADER_SIZE - PREFIX_SIZE - |body|, i => 0))
  }

  predicate Tail(b: Byte) { 0x80 <= b < 0xC0 }

  /** Append the six payload bits of a continuation byte. */
  function Extend(high: nat, b: Byte): nat
    requires Tail(b)
  {
    high * 64 + (b - 0x80)
  }

  /** `bytes.decode("utf-8")`: shortest forms only, no surrogates. */
  function Decode(b: seq<Byte>): Option<Text> {
    if b == [] then Some([])
    else if b[0] < 0x80 then Prefix(b[0], Decode(b[1..]))
    else if |b| >= 2 && 0xC2 <= b[0] < 0xE0 && Tail(b[1]) then
      Prefix(Extend(b[0] - 0xC0, b[1]), Decode(b[2..]))
    else if |b| >= 3 && 0xE0 <= b[0] < 0xF0 && Tail(b[1]) && Tail(b[2])
            && (b[0] == 0xE0 ==> b[1] >= 0xA0) && (b[0] == 0xED ==> b[1] < 0xA0) then
      Prefix(Extend(Extend(b[0] - 0xE0, b[1]), b[2]), Decode(b[3..]))
    else if |b| >= 4 && 0xF0 <= b[0] < 0xF5 && Tail(b[1]) && Tail(b[2]) && Tail(b[3])
            && (b[0] == 0xF0 ==> b[1] >= 0x90) && (b[0] == 0xF4 ==> b[1] < 0x90) then
      Prefix(Extend(Extend(Extend(b[0] - 0xF0, b[1]), b[2]), b[3]), Decode(b[4..]))
    else None
  }

  function Prefix(c: Code, rest: Option<Text>): Option<Text> {
    match rest
    case None => None
    case Some(t) => Some([c] + t)
  }

  /** `unpack_block_first_header`: nothing comes back that does not validate. */
  function Unpack(env: Env, buffer: seq<Byte>): (r: Result<Metadata>)
    ensures r.Ok? ==> |buffer| >= HEADER_SIZE && buffer[..8] == MAGIC && Validates(env, r.value)
  {
    if |buffer| < HEADER_SIZE then Err("short block-first header")
    else if buffer[..8] != MAGIC then Err("block-first header magic mismatch")
    else
      var len := Read32(buffer[8..]);
      var checksum := Read32(buffer[12..]);
      if len <= 0 || len > HEADER_SIZE - PREFIX_SIZE then Err("invalid metadata length")
      else
        var body := buffer[PREFIX_SIZE..PREFIX_SIZE + len];
        if env.crc(body) != checksum then Err("block-first header checksum mismatch")
        else match Decode(body)
          case None => Err("invalid block-first JSON")
          case Some(text) =>
            match Loads(text)
            case None => Err("invalid block-first JSON")
            case Some(j) =>
              if !j.JObj? then Err("block-first metadata must be a JSON object")
              else FromMapping(env, j.members)
  }

  lemma {:induction false} DecodeOfEncode(t: Text)
    requires Ascii(t)
    ensures Decode(Encode(t)) == Some(t)
  {
    if t != [] {
      assert Encode(t)[1..] == Encode(t[1..]);
      DecodeOfEncode(t[1..]);
      assert [t[0]] + t[1..] == t;
    }
  }

  lemma LittleRoundTrip(n: int, rest: seq<Byte>)
    requires 0 <= n < 0x1_0000_0000
    ensures Read32(Little32(n) + rest) == n
  {
  }

  /** Keys differ in length or in their first letter. */
  lemma KeysDistinct(i: nat, j: nat)
    requires i < j < 17
    ensures KEYS[i] != KEYS[j]
  {
    assert |KEYS[i]| != |KEYS[j]| || KEYS[i][0] != KEYS[j][0];
  }

  lemma {:induction false} LookupAt(ms: seq<Member>, i: nat)
    requires i < |ms| && forall a, b :: 0 <= a < b < |ms| ==> ms[a].key != ms[b].key
    ensures Lookup(ms, ms[i].key) == Some(ms[i].value)
  {
    if i > 0 {
      LookupAt(ms[1..], i - 1);
    } else {
      LookupMissing(ms[1..], ms[0].key);
    }
  }

  lemma {:induction false} LookupMissing(ms: seq<Member>, key: Text)
    requires forall a :: 0 <= a < |ms| ==> ms[a].key != key
    ensures Lookup(ms, key) == None
  {
    if ms != [] {
      LookupMissing(ms[1..], key);
    }
  }

  lemma {:induction false} GatherAll(ms: seq<Member>, keys: seq<Text>, values: seq<Json>)
    requires |keys| == |values| && forall i :: 0 <= i < |keys| ==> Lookup(ms, keys[i]) == Some(values[i])
    ensures Gather(ms, keys) == Some(values)
  {
    if keys != [] {
      assert forall i :: 0 <= i < |keys[1..]| ==> keys[1..][i] == keys[i + 1] && values[1..][i] == values[i + 1];
      GatherAll(ms, keys[1..], values[1..]);
      assert [values[0]] + values[1..] == values;
    }
  }

  lemma {:induction false} NormalInts(v: seq<Json>)
    requires forall i :: 0 <= i < |v| ==> v[i].JInt?
    ensures NormalElems(v) == v
  {
    if v != [] {
      NormalInts(v[1..]);
    }
  }

  lemma IntsReadBack(v: seq<int>)
    ensures IntsOf(JArr(Ints(v))) == Some(v)
  {
    var j := JArr(Ints(v));
    assert IntsOf(j).Some? && |IntsOf(j).value| == |v|;
    assert IntsOf(j).value == v;
  }

  ghost function ReadBack(m: Metadata): Metadata {
    m.(modelName := Joined(m.modelName))
  }

  lemma ValuesRoundTrip(m: Metadata)
    ensures FromValues(Values(m)) == Some(m)
  {
    hide IntsOf, Ints;
    IntsReadBack(m.logicalShape);
    IntsReadBack(m.payloadShape);
  }

  lemma NormalValue(m: Metadata, i: nat)
    requires Ascii(m.layout) && Ascii(m.dtype) && Ascii(m.signature) && i < 17
    ensures Normal(Values(m)[i]) == Values(ReadBack(m))[i]
  {
    hide Joined, Ascii;
    AsciiJoins(m.layout);
    AsciiJoins(m.dtype);
    AsciiJoins(m.signature);
    NormalInts(Ints(m.logicalShape));
    NormalInts(Ints(m.payloadShape));
  }

  /** Field values after a trip through JSON text. */
  lemma ValuesReadBack(m: Metadata, v: seq<Json>)
    requires Ascii(m.layout) && Ascii(m.dtype) && Ascii(m.signature)
    requires |v| == 17 && forall i :: 0 <= i < 17 ==> v[i] == Normal(Values(m)[i])
    ensures FromValues(v) == Some(ReadBack(m))
  {
    hide Values, FromValues, ReadBack, Normal;
    forall i | 0 <= i < 17 ensures v[i] == Values(ReadBack(m))[i] {
      NormalValue(m, i);
    }
    assert v == Values(ReadBack(m));
    ValuesRoundTrip(ReadBack(m));
  }

  /** Looking every key up in the parsed object finds that key's own value. */
  lemma ZippedGather(keys: seq<Text>, values: seq<Json>, v: seq<Json>)
    requires |keys| == |values| == |v|
    requires forall i :: 0 <= i < |keys| ==> Ascii(keys[i]) && v[i] == Normal(values[i])
    requires forall i, j :: 0 <= i < j < |keys| ==> keys[i] != keys[j]
    ensures
      var ms := NormalMembers(Zip(keys, values));
      && (forall i :: 0 <= i < |ms| ==> ms[i].key in keys)
      && Gather(ms, keys) == Some(v)
  {
    var ms := NormalMembers(Zip(keys, values));
    if keys == [] {
      assert ms == [];
      assert v == [];
    } else {
      NormalMembersAt(Zip(keys, values), 0);
      forall i: nat | i < |keys| ensures ms[i].key == keys[i] && ms[i].value == v[i] {
        NormalMembersAt(Zip(keys, values), i);
        AsciiJoins(keys[i]);
      }
      forall i: nat | i < |keys| ensures Lookup(ms, keys[i]) == Some(v[i]) {
        LookupAt(ms, i);
      }
      GatherAll(ms, keys, v);
    }
  }

  /** Validation does not see the difference that reading back makes. */
  lemma ReadBackValidates(env: Env, m: Metadata)
    requires Validates(env, m)
    ensures Validates(env, ReadBack(m))
  {
    JoinedTwice(m.modelName);
    SameNameSameSignature(env, EngineOf(m), EngineOf(ReadBack(m)), m.numLayers, m.blockSize, m.hiddenDim, env.dtypes[m.dtype]);
  }

  /** Every field is found again under its own key. */
  lemma FieldsGather(m: Metadata, v: seq<Json>)
    requires |v| == 17 && forall i :: 0 <= i < 17 ==> v[i] == Normal(Values(m)[i])
    ensures
      var ms := NormalMembers(Zip(KEYS, Values(m)));
      (forall i :: 0 <= i < |ms| ==> ms[i].key in KEYS) && Gather(ms, KEYS) == Some(v)
  {
    hide Values, Normal, Gather, NormalMembers, Zip;
    forall i, j | 0 <= i < j < |KEYS| ensures KEYS[i] != KEYS[j] {
      KeysDistinct(i, j);
    }
    forall i | 0 <= i < |KEYS| ensures Ascii(KEYS[i]) {
    }
    ZippedGather(KEYS, Values(m), v);
  }

  lemma ValidIsAscii(env: Env, m: Metadata)
    requires WellFormed(env) && Validates(env, m)
    ensures Ascii(m.layout) && Ascii(m.dtype) && Ascii(m.signature)
  {
    assert Ascii(LAYOUT);
  }

  lemma MappingReadsBack(env: Env, m: Metadata)
    requires WellFormed(env) && Validates(env, m)
    ensures FromMapping(env, NormalMembers(Zip(KEYS, Values(m)))) == Ok(ReadBack(m))
  {
    hide Values, FromValues, Normal, Gather, NormalMembers, Zip, ReadBack, Validates, WellFormed, Ascii;
    var v := seq(17, i requires 0 <= i < 17 => Normal(Values(m)[i]));
    FieldsGather(m, v);
    ValidIsAscii(env, m);
    ValuesReadBack(m, v);
    ReadBackValidates(env, m);
  }

  lemma BodyReadsBack(m: Metadata)
    ensures Decode(HeaderBody(m)) == Some(Print(JObj(Zip(KEYS, Values(m)))))
    ensures Loads(Print(JObj(Zip(KEYS, Values(m))))) == Some(JObj(NormalMembers(Zip(KEYS, Values(m)))))
  {
    var j := JObj(Zip(KEYS, Values(m)));
    PrintIsAscii(j);
    DecodeOfEncode(Print(j));
    DumpsLoads(j);
  }

  lemma {:induction false} JoinedTwice(s: Text)
    ensures NoSplitPair(Joined(s)) && Joined(Joined(s)) == Joined(s)
  {
    var r := Joined(s);
    if s != [] {
      var rest := if |s| >= 2 && High(s[0]) && Low(s[1]) then s[2..] else s[1..];
      JoinedTwice(rest);
      assert r[1..] == Joined(rest);
      forall i | 0 <= i < |r| - 1 ensures !(High(r[i]) && Low(r[i + 1])) {
        if i > 0 {
          assert r[i] == Joined(rest)[i - 1] && r[i + 1] == Joined(rest)[i - 1 + 1];
        }
      }
    }
    JoinedIdentity(r);
  }

  lemma HeaderSlices(len: seq<Byte>, crc: seq<Byte>, body: seq<Byte>, rest: seq<Byte>)
    requires |len| == 4 && |crc| == 4
    ensures
      var buffer := MAGIC + len + crc + body + rest;
      && buffer[..8] == MAGIC
      && buffer[8..] == len + (crc + body + rest)
      && buffer[12..] == crc + (body + rest)
      && buffer[PREFIX_SIZE..PREFIX_SIZE + |body|] == body
  {
  }

  lemma BodyNotEmpty(m: Metadata)
    ensures |HeaderBody(m)| > 0
  {
    PrintStarts(JObj(Zip(KEYS, Values(m))), []);
  }

  /** Reading back a packed header, whatever follows it in the buffer, gives the
      descriptor with its model name as JSON reads it. */
  lemma HeaderReadsBack(env: Env, m: Metadata, suffix: seq<Byte>)
    requires WellFormed(env) && Pack(env, m).Ok?
    ensures Unpack(env, Pack(env, m).value + suffix) == Ok(ReadBack(m))
  {
    hide HeaderBody, Print, Loads, Values, Zip, FromMapping, Little32, Read32, Decode, Validates;
    var body := HeaderBody(m);
    var len, crc := Little32(|body|), Little32(env.crc(body));
    var padding: seq<Byte> := seq(HEADER_SIZE - PREFIX_SIZE - |body|, i => 0);
    var buffer := Pack(env, m).value + suffix;
    assert buffer == MAGIC + len + crc + body + (padding + suffix);
    HeaderSlices(len, crc, body, padding + suffix);
    LittleRoundTrip(|body|, crc + body + (padding + suffix));
    LittleRoundTrip(env.crc(body), body + (padding + suffix));
    BodyNotEmpty(m);
    BodyReadsBack(m);
    MappingReadsBack(env, m);
  }

  /** The header round trip holds exactly when the model name has no split surrogate pair. */
  lemma HeaderRoundTrip(env: Env, m: Metadata, suffix: seq<Byte>)
    requires WellFormed(env) && Pack(env, m).Ok?
    ensures Unpack(env, Pack(env, m).value + suffix) == Ok(m) <==> NoSplitPair(m.modelName)
  {
    HeaderReadsBack(env, m, suffix);
    JoinedIdentity(m.modelName);
  }
}
