/** The header as bytes and names: what a reader of the format, rather than this code's own
    inverse, would find in it. */
module HeaderFormat {
  import opened Results
  import opened TensorIndex
  import opened BlockFirstLayout
  import opened Json
  import opened BlockFirstHeader

  // ---- bytes ----

  /** `struct` format `<I`. */
  ghost predicate LittleEndian(b: seq<Byte>, n: int) {
    |b| == 4 && n == b[0] as int + 0x100 * b[1] as int + 0x10000 * b[2] as int + 0x1000000 * b[3] as int
  }

  /** "LMCBFV1" and a zero byte, the length and the checksum of the body, the body. */
  ghost predicate Framed(env: Env, buffer: seq<Byte>, len: nat) {
    && 0 < len <= 4080 && |buffer| >= 4096
    && buffer[..8] == Encode(FromAscii("LMCBFV1")) + [0]
    && LittleEndian(buffer[8..12], len)
    && LittleEndian(buffer[12..16], env.crc(buffer[16..16 + len]))
  }

  lemma LittleIsLittleEndian(n: int)
    requires 0 <= n < 0x1_0000_0000
    ensures LittleEndian(Little32(n), n)
  {
  }

  lemma ReadIsLittleEndian(buffer: seq<Byte>, at: nat)
    requires at + 4 <= |buffer|
    ensures LittleEndian(buffer[at..at + 4], Read32(buffer[at..]))
  {
  }

  lemma MagicText()
    ensures MAGIC == Encode(FromAscii("LMCBFV1")) + [0]
  {
    var t := Encode(FromAscii("LMCBFV1"));
    assert t[0] == 0x4C && t[1] == 0x4D && t[2] == 0x43 && t[3] == 0x42 && t[4] == 0x46 && t[5] == 0x56 && t[6] == 0x31;
  }

  /** A packed header is a frame around the descriptor's JSON text, zero up to 4096 bytes. */
  lemma PackFrames(env: Env, m: Metadata)
    requires WellFormed(env) && Pack(env, m).Ok?
    ensures
      var buffer, body := Pack(env, m).value, HeaderBody(m);
      && Framed(env, buffer, |body|) && buffer[16..16 + |body|] == body && |buffer| == 4096
      && forall i :: 16 + |body| <= i < 4096 ==> buffer[i] == 0
  {
    hide HeaderBody, Validates, Little32, LittleEndian;
    var buffer, body := Pack(env, m).value, HeaderBody(m);
    var len, crc := Little32(|body|), Little32(env.crc(body));
    var padding: seq<Byte> := seq(HEADER_SIZE - PREFIX_SIZE - |body|, i => 0);
    assert buffer == MAGIC + len + crc + body + padding;
    MagicText();
    BodyNotEmpty(m);
    LittleIsLittleEndian(|body|);
    LittleIsLittleEndian(env.crc(body));
    assert buffer[..8] == MAGIC && buffer[8..12] == len && buffer[12..16] == crc && buffer[16..16 + |body|] == body;
    forall i | 16 + |body| <= i < 4096 ensures buffer[i] == 0 {
      assert buffer[i] == padding[i - 16 - |body|];
    }
  }

  /** What is unpacked was framed: a body that does not have the recorded length and checksum
      is refused. */
  lemma UnpackChecksFrame(env: Env, buffer: seq<Byte>)
    requires Unpack(env, buffer).Ok?
    ensures exists len: nat :: Framed(env, buffer, len)
  {
    hide LittleEndian, Read32, FromMapping;
    MagicText();
    ReadIsLittleEndian(buffer, 8);
    ReadIsLittleEndian(buffer, 12);
    assert Framed(env, buffer, Read32(buffer[8..]));
  }

  lemma SamePrefix(env: Env, a: seq<Byte>, b: seq<Byte>, m: nat, n: nat)
    requires Framed(env, a, m) && Framed(env, b, n) && a[..16] == b[..16]
    ensures m == n && env.crc(a[16..16 + m]) == env.crc(b[16..16 + n])
  {
    assert a[8..12] == a[..16][8..12] && b[8..12] == b[..16][8..12];
    assert a[12..16] == a[..16][12..16] && b[12..16] == b[..16][12..16];
  }

  /** Changing the body of a packed header without changing its length is noticed whenever it
      changes the checksum. */
  lemma {:induction false} CorruptionNoticed(env: Env, m: Metadata, buffer: seq<Byte>)
    requires WellFormed(env) && Pack(env, m).Ok? && |buffer| == 4096 && buffer[..16] == Pack(env, m).value[..16]
    requires env.crc(buffer[16..16 + |HeaderBody(m)|]) != env.crc(HeaderBody(m))
    ensures Unpack(env, buffer).Err?
  {
    hide Pack, Unpack, HeaderBody;
    PackFrames(env, m);
    var packed, n := Pack(env, m).value, |HeaderBody(m)|;
    if Unpack(env, buffer).Ok? {
      UnpackChecksFrame(env, buffer);
      var len: nat :| Framed(env, buffer, len);
      SamePrefix(env, buffer, packed, len, n);
    }
  }

  // ---- names ----

  /** The member of an object under a name. */
  function Named(ms: seq<Member>, name: string): Option<Json> {
    Lookup(ms, FromAscii(name))
  }

  lemma {:induction false} FieldAt(m: Metadata, i: nat)
    requires i < 17
    ensures Lookup(Zip(KEYS, Values(m)), KEYS[i]) == Some(Values(m)[i])
  {
    hide Values;
    var ms := Zip(KEYS, Values(m));
    forall a, b | 0 <= a < b < |ms| ensures ms[a].key != ms[b].key {
      KeysDistinct(a, b);
    }
    LookupAt(ms, i);
  }

  /** Each field is written under its own name: the payload's ... */
  lemma PayloadNames(m: Metadata)
    ensures
      var ms := Zip(KEYS, Values(m));
      && Named(ms, "block_size") == Some(JInt(m.blockSize)) && Named(ms, "dtype") == Some(JStr(m.dtype))
      && Named(ms, "hidden_dim") == Some(JInt(m.hiddenDim)) && Named(ms, "io_nbytes") == Some(JInt(m.ioNbytes))
      && Named(ms, "logical_shape") == Some(JArr(Ints(m.logicalShape))) && Named(ms, "num_layers") == Some(JInt(m.numLayers))
      && Named(ms, "payload_nbytes") == Some(JInt(m.payloadNbytes)) && Named(ms, "payload_shape") == Some(JArr(Ints(m.payloadShape)))
      && Named(ms, "valid_tokens") == Some(JInt(m.validTokens))
  {
    hide FromAscii, Lookup, Zip, Ints;
    forall i | 0 <= i < 17 ensures Lookup(Zip(KEYS, Values(m)), KEYS[i]) == Some(Values(m)[i]) {
      FieldAt(m, i);
    }
    assert KEYS[0] == FromAscii("block_size") && KEYS[1] == FromAscii("dtype") && KEYS[2] == FromAscii("hidden_dim");
    assert KEYS[3] == FromAscii("io_nbytes") && KEYS[6] == FromAscii("logical_shape") && KEYS[8] == FromAscii("num_layers");
    assert KEYS[9] == FromAscii("payload_nbytes") && KEYS[10] == FromAscii("payload_shape") && KEYS[13] == FromAscii("valid_tokens");
  }

  /** ... and the format's and the deployment's. */
  lemma DeploymentNames(m: Metadata)
    ensures
      var ms := Zip(KEYS, Values(m));
      && Named(ms, "layout") == Some(JStr(m.layout)) && Named(ms, "layout_signature") == Some(JStr(m.signature))
      && Named(ms, "model_name") == Some(JStr(m.modelName)) && Named(ms, "version") == Some(JInt(m.version))
      && Named(ms, "pipeline_parallel_size") == Some(JInt(m.pipelineParallel))
      && Named(ms, "tensor_parallel_size") == Some(JInt(m.tensorParallel))
      && Named(ms, "worker_id") == Some(JInt(m.workerId)) && Named(ms, "world_size") == Some(JInt(m.worldSize))
  {
    hide FromAscii, Lookup, Zip, Ints;
    forall i | 0 <= i < 17 ensures Lookup(Zip(KEYS, Values(m)), KEYS[i]) == Some(Values(m)[i]) {
      FieldAt(m, i);
    }
    assert KEYS[4] == FromAscii("layout") && KEYS[5] == FromAscii("layout_signature") && KEYS[7] == FromAscii("model_name");
    assert KEYS[11] == FromAscii("pipeline_parallel_size") && KEYS[12] == FromAscii("tensor_parallel_size");
    assert KEYS[14] == FromAscii("version") && KEYS[15] == FromAscii("worker_id") && KEYS[16] == FromAscii("world_size");
  }

  lemma {:induction false} SignatureFieldAt(v: seq<Json>, i: nat)
    requires |v| == 10 && i < 10
    ensures Lookup(Zip(SIGNATURE_KEYS, v), SIGNATURE_KEYS[i]) == Some(v[i])
  {
    var ms := Zip(SIGNATURE_KEYS, v);
    forall a, b | 0 <= a < b < 10 ensures ms[a].key != ms[b].key {
      assert |SIGNATURE_KEYS[a]| != |SIGNATURE_KEYS[b]| || SIGNATURE_KEYS[a][0] != SIGNATURE_KEYS[b][0];
    }
    LookupAt(ms, i);
  }

  /** So is each field that the signature covers. */
  lemma SignatureNames(e: Engine, numLayers: int, blockSize: int, hiddenDim: int, dtype: Text)
    ensures
      var ms := Zip(SIGNATURE_KEYS, SignatureValues(e, numLayers, blockSize, hiddenDim, dtype));
      && Named(ms, "block_size") == Some(JInt(blockSize)) && Named(ms, "dtype") == Some(JStr(dtype))
      && Named(ms, "hidden_dim") == Some(JInt(hiddenDim)) && Named(ms, "layout") == Some(JStr(FromAscii("block_first_v1")))
      && Named(ms, "model_name") == Some(JStr(e.modelName)) && Named(ms, "num_layers") == Some(JInt(numLayers))
      && Named(ms, "pipeline_parallel_size") == Some(JInt(e.pipelineParallel))
      && Named(ms, "tensor_parallel_size") == Some(JInt(e.tensorParallel))
      && Named(ms, "worker_id") == Some(JInt(e.workerId)) && Named(ms, "world_size") == Some(JInt(e.worldSize))
  {
    hide FromAscii, Lookup, Zip;
    var v := SignatureValues(e, numLayers, blockSize, hiddenDim, dtype);
    forall i | 0 <= i < 10 ensures Lookup(Zip(SIGNATURE_KEYS, v), SIGNATURE_KEYS[i]) == Some(v[i]) {
      SignatureFieldAt(v, i);
    }
    assert SIGNATURE_KEYS[0] == FromAscii("block_size") && SIGNATURE_KEYS[1] == FromAscii("dtype");
    assert SIGNATURE_KEYS[2] == FromAscii("hidden_dim") && SIGNATURE_KEYS[3] == FromAscii("layout");
    assert SIGNATURE_KEYS[4] == FromAscii("model_name") && SIGNATURE_KEYS[5] == FromAscii("num_layers");
    assert SIGNATURE_KEYS[6] == FromAscii("pipeline_parallel_size") && SIGNATURE_KEYS[7] == FromAscii("tensor_parallel_size");
    assert SIGNATURE_KEYS[8] == FromAscii("worker_id") && SIGNATURE_KEYS[9] == FromAscii("world_size");
  }

  /** `sort_keys`: a comes before b in code point order, the first n characters being equal. */
  ghost predicate Before(a: Text, b: Text, n: nat) {
    && n <= |a| && n < |b| && (forall i :: 0 <= i < n ==> a[i] == b[i])
    && (n < |a| ==> a[n] < b[n])
  }

  const SHARED: seq<nat> := [0, 0, 0, 0, 6, 1, 0, 0, 0, 8, 1, 0, 0, 1, 0, 3]

  /** Keys are written in ascending order. */
  lemma KeysAscend(i: nat)
    requires i < 16
    ensures var a, b := KEYS[i], KEYS[i + 1]; exists n :: Before(a, b, n)
  {
    assert Before(KEYS[i], KEYS[i + 1], SHARED[i]);
  }

  lemma {:induction false} NumbersText()
    ensures Print(JArr([JInt(1), JInt(-20)])) == [91, 49, 44, 45, 50, 48, 93]
  {
    assert [JInt(1), JInt(-20)][1..] == [JInt(-20)];
    assert Digits(20) == Digits(2) + [48] && Digits(2) == [50] && Digits(1) == [49];
    assert PrintElems([JInt(-20)]) == Print(JInt(-20)) == [45, 50, 48];
    assert PrintElems([JInt(1), JInt(-20)]) == Print(JInt(1)) + [44] + PrintElems([JInt(-20)]);
  }

  lemma {:induction false} EscapedNext(c: Code, s: Text)
    ensures EscapeAll([c] + s) == Escape(c) + EscapeAll(s)
  {
    assert ([c] + s)[1..] == s;
  }

  lemma {:induction false} EscapedText()
    ensures EscapeAll([233, 10, 34]) == [92, 117, 48, 48, 101, 57, 92, 110, 92, 34]
  {
    EscapedNext(34, []);
    EscapedNext(10, [34]);
    EscapedNext(233, [10, 34]);
    assert [34] + [] == [34] && [10] + [34] == [10, 34] && [233] + [10, 34] == [233, 10, 34];
    assert Escape(233) == [92, 117, 48, 48, 101, 57] && Escape(10) == [92, 110] && Escape(34) == [92, 34];
  }

  lemma {:induction false} OneMember(a: Member, b: Member)
    ensures Print(JObj([a, b])) == [123] + (PrintMember(a) + [44] + PrintMember(b)) + [125]
  {
    assert [a, b][1..] == [b];
    assert PrintMembers([b]) == PrintMember(b);
  }

  lemma {:induction false} MemberText(c: Code, value: Json)
    requires 97 <= c <= 122
    ensures PrintMember(Member([c], value)) == [34, c, 34, 58] + Print(value)
  {
    hide Print;
    EscapedNext(c, []);
    assert [c] + [] == [c];
  }

  const SAMPLE: Text := FromAscii("{\"a\":[1,-20],\"b\":\"\\u00e9\\n\\\"\"}")

  const NUMBERS: Member := Member([97], JArr([JInt(1), JInt(-20)]))
  const STRING: Member := Member([98], JStr([233, 10, 34]))
  const NUMBERS_TEXT: Text := [34, 97, 34, 58, 91, 49, 44, 45, 50, 48, 93]
  const STRING_TEXT: Text := [34, 98, 34, 58, 34, 92, 117, 48, 48, 101, 57, 92, 110, 92, 34, 34]

  lemma {:induction false} MemberTexts()
    ensures PrintMember(NUMBERS) == NUMBERS_TEXT && PrintMember(STRING) == STRING_TEXT
  {
    hide Print, PrintMember, EscapeAll;
    NumbersText();
    EscapedText();
    MemberText(97, NUMBERS.value);
    MemberText(98, STRING.value);
    StringText([233, 10, 34]);
  }

  /** The canonical form: no space between tokens, lower-case hexadecimal escapes. */
  lemma {:induction false} CanonicalExample()
    ensures Print(JObj([NUMBERS, STRING])) == SAMPLE
  {
    hide Print, PrintMember, FromAscii;
    MemberTexts();
    OneMember(NUMBERS, STRING);
    SampleText();
  }

  lemma SampleText()
    ensures SAMPLE == [123] + (NUMBERS_TEXT + [44] + STRING_TEXT) + [125]
  {
  }

  lemma StringText(s: Text)
    ensures Print(JStr(s)) == [34] + EscapeAll(s) + [34]
  {
  }

  /** A mapping is accepted only if its names are exactly the 17 fields. */
  lemma {:induction false} MappingNames(env: Env, ms: seq<Member>)
    requires FromMapping(env, ms).Ok?
    ensures forall i :: 0 <= i < |ms| ==> ms[i].key in KEYS
    ensures forall i: nat :: i < 17 ==> exists n: nat :: n < |ms| && ms[n].key == KEYS[i]
  {
    hide FromValues, Validates, Lookup;
    forall i: nat | i < 17 ensures exists n: nat :: n < |ms| && ms[n].key == KEYS[i] {
      GatheredAt(ms, KEYS, i);
      FoundMember(ms, KEYS[i]);
    }
  }

  lemma {:induction false} GatheredAt(ms: seq<Member>, keys: seq<Text>, i: nat)
    requires Gather(ms, keys).Some? && i < |keys|
    ensures Lookup(ms, keys[i]).Some?
  {
    hide Lookup;
    if i > 0 {
      GatheredAt(ms, keys[1..], i - 1);
    }
  }

  lemma {:induction false} FoundMember(ms: seq<Member>, key: Text)
    requires Lookup(ms, key).Some?
    ensures exists n: nat :: n < |ms| && ms[n].key == key
  {
    if Lookup(ms[1..], key).Some? {
      FoundMember(ms[1..], key);
      var n: nat :| n < |ms[1..]| && ms[1..][n].key == key;
      assert ms[n + 1].key == key;
    }
  }

  // ---- descriptors ----

  /** A descriptor validates exactly when it is the one that `create` computes for its own
      shape, dtype, block size and deployment; only the dtype may go by another name. */
  lemma ValidIsCreated(env: Env, m: Metadata)
    requires WellFormed(env)
    ensures Validates(env, m) <==>
      && m.dtype in env.dtypes && LegalShape(m.logicalShape, m.blockSize) && LegalEngine(EngineOf(m))
      && Create(env, m.logicalShape, env.dtypes[m.dtype], m.blockSize, EngineOf(m)) == Ok(m.(dtype := env.dtypes[m.dtype].name))
  {
    hide MakeSignature, Product, Size;
    if m.dtype in env.dtypes && LegalShape(m.logicalShape, m.blockSize) && LegalEngine(EngineOf(m)) {
      var dtype, shape: seq<nat> := env.dtypes[m.dtype], m.logicalShape;
      var dims := BlockFirstShape(shape, m.blockSize).value;
      SizesAgree(dims);
      ProductIsSize(dims.Physical());
      assert EngineOf(m.(dtype := dtype.name)) == EngineOf(m);
    }
  }

  /** What `create` puts into each field. */
  lemma CreateExact(env: Env, shape: seq<nat>, dtype: DType, blockSize: int, e: Engine)
    requires WellFormed(env) && dtype.name in env.dtypes && env.dtypes[dtype.name] == dtype
    requires LegalShape(shape, blockSize) && LegalEngine(e)
    ensures
      var r := Create(env, shape, dtype, blockSize, e);
      && r.Ok? && r.value.layout == FromAscii("block_first_v1") && r.value.version == 1
      && r.value.logicalShape == shape && r.value.payloadShape == [shape[2] / blockSize, shape[1], 2, blockSize, shape[3]]
      && r.value.dtype == dtype.name && r.value.validTokens == shape[2] && r.value.numLayers == shape[1]
      && r.value.blockSize == blockSize && r.value.hiddenDim == shape[3] && EngineOf(r.value) == e
      && r.value.payloadNbytes == 2 * shape[1] * shape[2] * shape[3] * dtype.itemSize
      && r.value.signature == MakeSignature(env, e, shape[1], blockSize, shape[3], dtype)
  {
    hide MakeSignature;
    SizeOfFour(shape);
  }

  lemma SizeOfFour(shape: seq<nat>)
    requires |shape| == 4 && shape[0] == 2
    ensures Size(shape) == 2 * shape[1] * shape[2] * shape[3]
  {
    var a, b := shape[1..], shape[2..];
    assert a[1..] == b && b[1..] == shape[3..] && shape[3..][1..] == [];
    assert Size(shape[3..]) == shape[3] * Size([]);
    assert Size(b) == shape[2] * shape[3] && Size(a) == shape[1] * (shape[2] * shape[3]);
    assert Size(shape) == 2 * (shape[1] * (shape[2] * shape[3]));
  }
}
