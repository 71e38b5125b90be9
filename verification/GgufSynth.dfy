/** The synthetic model builder: its tensor list, its pseudo-random codes, and the file it makes. */
module GgufSynth {
  import opened Wrappers
  import opened Utf8
  import opened GgufBytes
  import opened Gguf
  import opened GgufPrint
  import Bits
  import I2s

  const U32_LIMIT: nat := 0x1_0000_0000

  /** A builder configuration; the two floats are kept as their bits. */
  datatype Config = Config(nLayers: nat, nEmbd: nat, nFf: nat, headCount: nat, headCountKv: nat, headDim: nat,
                           vocabSize: nat, contextLength: nat, ropeFreqBase: nat, epsilon: nat, seed: bv64) {
    function QDim(): nat { headDim * headCount }
    function KvDim(): nat { headDim * headCountKv }
  }

  /** Positive dimensions, ternary input widths in whole blocks, 32-bit products, and no more tensors than the reader takes. */
  predicate Buildable(cfg: Config) {
    && 0 < cfg.nEmbd < U32_LIMIT && 0 < cfg.nFf < U32_LIMIT && 0 < cfg.vocabSize
    && 0 < cfg.QDim() < U32_LIMIT && 0 < cfg.KvDim() < U32_LIMIT && cfg.nEmbd * cfg.vocabSize < U32_LIMIT
    && cfg.nEmbd % 128 == 0 && cfg.nFf % 128 == 0 && cfg.QDim() % 128 == 0
    && cfg.nLayers < U32_LIMIT && cfg.headCount < U32_LIMIT && cfg.headCountKv < U32_LIMIT && cfg.headDim < U32_LIMIT
    && cfg.vocabSize < U32_LIMIT && cfg.contextLength < U32_LIMIT && cfg.ropeFreqBase < U32_LIMIT && cfg.epsilon < U32_LIMIT
    && 3 + 11 * cfg.nLayers <= MAX_COUNT
  }

  // ---------------------------------------------------------------------------
  // Names
  // ---------------------------------------------------------------------------

  /** A text of plain characters as bytes; any other character becomes a question mark. */
  function Ascii(s: string): (r: seq<byte>)
    ensures |r| == |s| && forall i :: 0 <= i < |r| ==> r[i] < 128
  {
    seq(|s|, i requires 0 <= i < |s| => if (s[i] as int) < 128 then s[i] as int else 63)
  }

  lemma {:induction false} AsciiIsValid(s: seq<byte>)
    requires forall i :: 0 <= i < |s| ==> s[i] < 128
    ensures ValidUpTo(s) == |s|
  {
    if s != [] { AsciiIsValid(s[1..]); }
  }

  lemma AsciiIsText(s: string)
    requires |s| <= MAX_STRING
    ensures IsText(Ascii(s))
  {
    AsciiIsValid(Ascii(s));
  }

  function Decimal(n: nat): (s: string)
    ensures 0 < |s| <= n + 1
  {
    if n < 10 then ["0123456789"[n]] else Decimal(n / 10) + ["0123456789"[n % 10]]
  }

  function LayerName(layer: nat, part: string): seq<byte> {
    Ascii("blk." + Decimal(layer) + part)
  }

  // ---------------------------------------------------------------------------
  // The directory of a configuration
  // ---------------------------------------------------------------------------

  datatype Desc = Desc(name: seq<byte>, shape: seq<nat>, raw: nat)

  function Norm(name: seq<byte>, dim: nat): Desc {
    Desc(name, [dim], F32)
  }

  function BitLinear(name: seq<byte>, inDim: nat, outDim: nat): Desc {
    Desc(name, [inDim, outDim], I2S)
  }

  function LayerDirectory(cfg: Config, layer: nat): (r: seq<Desc>)
    ensures |r| == 11
  {
    [Norm(LayerName(layer, ".attn_norm.weight"), cfg.nEmbd),
     Norm(LayerName(layer, ".attn_sub_norm.weight"), cfg.nEmbd),
     BitLinear(LayerName(layer, ".attn_q.weight"), cfg.nEmbd, cfg.QDim()),
     BitLinear(LayerName(layer, ".attn_k.weight"), cfg.nEmbd, cfg.KvDim()),
     BitLinear(LayerName(layer, ".attn_v.weight"), cfg.nEmbd, cfg.KvDim()),
     BitLinear(LayerName(layer, ".attn_output.weight"), cfg.QDim(), cfg.nEmbd),
     Norm(LayerName(layer, ".ffn_norm.weight"), cfg.nEmbd),
     Norm(LayerName(layer, ".ffn_sub_norm.weight"), cfg.nFf),
     BitLinear(LayerName(layer, ".ffn_gate.weight"), cfg.nEmbd, cfg.nFf),
     BitLinear(LayerName(layer, ".ffn_up.weight"), cfg.nEmbd, cfg.nFf),
     BitLinear(LayerName(layer, ".ffn_down.weight"), cfg.nFf, cfg.nEmbd)]
  }

  function Layers(cfg: Config, n: nat): (r: seq<Desc>)
    ensures |r| == 11 * n
  {
    if n == 0 then [] else Layers(cfg, n - 1) + LayerDirectory(cfg, n - 1)
  }

  function Embedding(cfg: Config): Desc {
    Desc(Ascii("token_embd.weight"), [cfg.nEmbd, cfg.vocabSize], F16)
  }

  function OutputHead(cfg: Config): Desc {
    Desc(Ascii("output.weight"), [cfg.nEmbd, cfg.vocabSize], F16)
  }

  function Directory(cfg: Config, outputWeight: bool): (r: seq<Desc>)
    ensures |r| == 2 + 11 * cfg.nLayers + (if outputWeight then 1 else 0)
  {
    [Embedding(cfg)] + (if outputWeight then [OutputHead(cfg)] else []) + [Norm(Ascii("output_norm.weight"), cfg.nEmbd)]
    + Layers(cfg, cfg.nLayers)
  }

  // ---------------------------------------------------------------------------
  // Every description has a size
  // ---------------------------------------------------------------------------

  /** A description the builder can fill and the reader can size. */
  predicate Fillable(d: Desc) {
    && IsText(d.name)
    && match d.raw
       case 0 => |d.shape| == 1 && 0 < d.shape[0] < U32_LIMIT
       case 1 => |d.shape| == 2 && 0 < d.shape[0] && 0 < d.shape[1] && d.shape[0] * d.shape[1] < U32_LIMIT
       case 36 => |d.shape| == 2 && 0 < d.shape[0] < U32_LIMIT && 0 < d.shape[1] < U32_LIMIT && d.shape[0] % 128 == 0
       case _ => false
  }

  /** Bytes of primary data. */
  function Size(d: Desc): nat
    requires Fillable(d)
  {
    if d.raw == F32 then 4 * d.shape[0]
    else if d.raw == F16 then 2 * (d.shape[0] * d.shape[1])
    else d.shape[0] / 4 * d.shape[1]
  }

  lemma SmallProduct(a: nat, b: nat)
    requires 0 < a < U32_LIMIT && 0 < b < U32_LIMIT
    ensures 0 < a * b <= U64_MAX
  {
    var top := 0xFFFF_FFFF;
    NotMore(a, top, b);
    NotMore(b, top, top);
    assert top * b == b * top;
  }

  lemma NotMore(a: nat, b: nat, k: nat)
    requires a <= b
    ensures a * k <= b * k && (a > 0 && k > 0 ==> a * k > 0)
  {
    assert (b - a) * k >= 0;
  }

  lemma Factors(a: nat, b: nat)
    requires 0 < a && 0 < b
    ensures a <= a * b && b <= a * b
  {
    assert a * b == a + a * (b - 1) && a * b == b + (a - 1) * b;
    assert a * (b - 1) >= 0 && (a - 1) * b >= 0;
  }

  lemma BlocksOfRows(inDim: nat, outDim: nat)
    requires inDim % 128 == 0
    ensures (inDim * outDim) % 128 == 0 && (inDim * outDim) / 128 * 32 == inDim / 4 * outDim
  {
    var k := inDim / 128;
    assert inDim == 128 * k;
    assert inDim * outDim == 128 * (k * outDim);
    assert inDim / 4 == 32 * k;
    assert inDim / 4 * outDim == 32 * (k * outDim);
  }

  lemma ElementsOfTwo(a: nat, b: nat)
    requires a * b <= U64_MAX && a <= U64_MAX
    ensures Elements([a, b]) == Some(a * b) && Elements([a]) == Some(a)
  {
    assert [a, b][..1] == [a] && [a][..0] == [];
    assert Elements([]) == Some(1);
    assert Elements([a]) == Some(a);
  }

  lemma SizeIsTensorBytes(d: Desc)
    requires Fillable(d)
    ensures TensorBytes(d.shape, d.raw) == Some(Size(d)) && 0 < Size(d) <= U64_MAX
    ensures SmallDims(d.shape)
  {
    hide Elements;
    if d.raw == F32 {
      assert d.shape == [d.shape[0]];
      ElementsOfTwo(d.shape[0], 0);
    } else {
      assert d.shape == [d.shape[0], d.shape[1]];
      if d.raw == F16 { Factors(d.shape[0], d.shape[1]); } else { SmallProduct(d.shape[0], d.shape[1]); }
      ElementsOfTwo(d.shape[0], d.shape[1]);
      if d.raw == I2S { TernarySize(d.shape[0], d.shape[1]); }
    }
  }

  lemma TernarySize(inDim: nat, outDim: nat)
    requires 0 < inDim < U32_LIMIT && 0 < outDim && inDim % 128 == 0 && inDim * outDim <= U64_MAX
    ensures (inDim * outDim) % 128 == 0 && (inDim * outDim) / 128 * 32 == inDim / 4 * outDim
    ensures 0 < inDim / 4 * outDim <= U64_MAX
  {
    BlocksOfRows(inDim, outDim);
    Factors(inDim / 4, outDim);
    assert inDim / 4 * outDim <= inDim * outDim;
  }

  // ---------------------------------------------------------------------------
  // Data
  // ---------------------------------------------------------------------------

  const ONE_F32: seq<byte> := [0, 0, 0x80, 0x3F]
  const ONE_F16: seq<byte> := [0, 0x3C]

  function Repeat(unit: seq<byte>, n: nat): (r: seq<byte>)
    ensures |r| == |unit| * n
  {
    if n == 0 then [] else
    assert |unit| * (n - 1) + |unit| == |unit| * n;
    Repeat(unit, n - 1) + unit
  }

  method AllOnes(unit: seq<byte>, n: nat) returns (out: seq<byte>)
    ensures out == Repeat(unit, n)
  {
    out := [];
    var i := 0;
    while i < n
      invariant 0 <= i <= n && out == Repeat(unit, i)
    {
      out := out + unit;
      i := i + 1;
    }
  }

  function ShiftLeft13(s: bv64): bv64 { s ^ (s << 13) }
  function ShiftRight7(s: bv64): bv64 { s ^ (s >> 7) }
  function ShiftLeft17(s: bv64): bv64 { s ^ (s << 17) }

  /** One step of the generator. */
  function Next(s: bv64): bv64 {
    ShiftLeft17(ShiftRight7(ShiftLeft13(s)))
  }

  /** The state after `n` steps. */
  function StateAfter(s: bv64, n: nat): bv64 {
    if n == 0 then s else Next(StateAfter(s, n - 1))
  }

  /** The code a state stands for. */
  function CodeOf(s: bv64): (code: nat)
    ensures code < 3
  {
    (s as nat) % 3
  }

  /** The byte of the four codes after state `s`, the first in the high bits. */
  function DrawnByte(s: bv64): byte {
    64 * CodeOf(StateAfter(s, 1)) + 16 * CodeOf(StateAfter(s, 2)) + 4 * CodeOf(StateAfter(s, 3)) + CodeOf(StateAfter(s, 4))
  }

  /** The bytes drawn from state `s` on. */
  function Drawn(s: bv64, n: nat): (r: seq<byte>)
    ensures |r| == n
  {
    if n == 0 then [] else Drawn(s, n - 1) + [DrawnByte(StateAfter(s, 4 * (n - 1)))]
  }

  lemma FourMore(s: bv64)
    ensures StateAfter(s, 1) == Next(s) && StateAfter(s, 2) == Next(Next(s))
    ensures StateAfter(s, 3) == Next(Next(Next(s))) && StateAfter(s, 4) == Next(Next(Next(Next(s))))
  {
    hide Next;
    assert StateAfter(s, 0) == s;
    assert StateAfter(s, 1) == Next(s);
    assert StateAfter(s, 2) == Next(StateAfter(s, 1));
    assert StateAfter(s, 3) == Next(StateAfter(s, 2));
  }

  lemma {:induction false} StepsAdd(s: bv64, n: nat, k: nat)
    ensures StateAfter(s, n + k) == StateAfter(StateAfter(s, n), k)
  {
    hide Next;
    if k > 0 { StepsAdd(s, n, k - 1); }
  }

  /** Nothing drawn holds the degenerate code. */
  lemma {:induction false} DrawnIsLegal(s: bv64, n: nat)
    ensures LegalCodes(Drawn(s, n))
  {
    hide StateAfter, CodeOf, I2s.Code;
    if n > 0 {
      DrawnIsLegal(s, n - 1);
      var at := StateAfter(s, 4 * (n - 1));
      I2s.ByteOfCodes(CodeOf(StateAfter(at, 1)), CodeOf(StateAfter(at, 2)), CodeOf(StateAfter(at, 3)), CodeOf(StateAfter(at, 4)));
    }
  }

  /** The first state after seed 1, which each of the three shifts takes part in. */
  lemma FirstState()
    ensures Next(1) == 0x4082_2041
  {
    assert ShiftLeft13(1) == 0x2001;
    assert ShiftRight7(0x2001) == 0x2041;
  }

  lemma CodesOfDrawn(s: bv64, k: nat)
    requires k < 4
    ensures I2s.Code(DrawnByte(s), k) == CodeOf(StateAfter(s, k + 1))
  {
    hide StateAfter, CodeOf, I2s.Code;
    I2s.ByteOfCodes(CodeOf(StateAfter(s, 1)), CodeOf(StateAfter(s, 2)), CodeOf(StateAfter(s, 3)), CodeOf(StateAfter(s, 4)));
  }

  /** Code `k` of byte `b`, from the high bits down, is that of state number `4 * b + k + 1`. */
  lemma {:induction false} DrawnCodes(s: bv64, n: nat, b: nat, k: nat)
    requires b < n && k < 4
    ensures I2s.Code(Drawn(s, n)[b], k) == CodeOf(StateAfter(s, 4 * b + k + 1))
  {
    hide StateAfter, I2s.Code, CodeOf, DrawnByte;
    if b < n - 1 {
      DrawnCodes(s, n - 1, b, k);
    } else {
      StepsAdd(s, 4 * b, k + 1);
      CodesOfDrawn(StateAfter(s, 4 * b), k);
    }
  }

  /** From a non-zero seed the generator never reaches the absorbing zero. */
  lemma NeverZero(s: bv64)
    requires s != 0
    ensures Next(s) != 0
  {
    hide ShiftLeft13, ShiftRight7, ShiftLeft17;
    LeftShiftKeeps(s);
    RightShiftKeeps(ShiftLeft13(s));
    SecondShiftKeeps(ShiftRight7(ShiftLeft13(s)));
  }

  lemma LeftShiftKeeps(s: bv64)
    requires s != 0
    ensures ShiftLeft13(s) != 0
  {
  }

  lemma RightShiftKeeps(s: bv64)
    requires s != 0
    ensures ShiftRight7(s) != 0
  {
  }

  lemma SecondShiftKeeps(s: bv64)
    requires s != 0
    ensures ShiftLeft17(s) != 0
  {
  }

  /** A zero seed would stay zero: it starts at one instead. */
  function Start(seed: bv64): bv64 {
    if seed == 0 then 1 else seed
  }

  /** No run of the generator reaches zero, whatever the seed. */
  lemma {:induction false} NeverReachesZero(seed: bv64, n: nat)
    ensures StateAfter(Start(seed), n) != 0
  {
    hide Next;
    if n > 0 {
      NeverReachesZero(seed, n - 1);
      NeverZero(StateAfter(Start(seed), n - 1));
    }
  }

  class Xorshift64 {
    var state: bv64

    constructor (seed: bv64)
      ensures state == Start(seed) && state != 0
    {
      state := if seed == 0 then 1 else seed;
    }

    method NextU64() returns (s: bv64)
      modifies this
      ensures s == state == Next(old(state)) && (old(state) != 0 ==> s != 0)
    {
      hide ShiftLeft13, ShiftRight7, ShiftLeft17;
      if state != 0 { NeverZero(state); }
      s := state;
      s := ShiftLeft13(s);
      s := ShiftRight7(s);
      s := ShiftLeft17(s);
      state := s;
    }

    /** One of the three ternary codes, never the degenerate fourth. */
    method NextLegalCode() returns (code: nat)
      modifies this
      ensures state == Next(old(state)) && code == CodeOf(state)
    {
      hide Next;
      var s := NextU64();
      code := (s as nat) % 3;
    }
  }

  /** No byte holds the degenerate code. */
  predicate LegalCodes(packed: seq<byte>) {
    forall i, k: nat :: 0 <= i < |packed| && k < 4 ==> I2s.Code(packed[i], k) < 3
  }

  const SCALE_ONE: seq<byte> := ONE_F32 + Zeros(28)

  /** Packed bytes, drawn or all zero weights, and a scale block of one. */
  function Ternaries(size: nat, s: bv64, allZero: bool): (r: seq<byte>)
    ensures |r| == size + SCALE_BLOCK
  {
    (if allZero then Repeat([0x55], size) else Drawn(s, size)) + SCALE_ONE
  }

  /** Either way no byte holds the degenerate code. */
  lemma TernariesAreLegal(size: nat, s: bv64, allZero: bool)
    ensures LegalCodes(Ternaries(size, s, allZero)[..size]) && Ternaries(size, s, allZero)[size..] == SCALE_ONE
  {
    hide I2s.Code;
    var packed := if allZero then Repeat([0x55], size) else Drawn(s, size);
    assert (packed + SCALE_ONE)[..size] == packed;
    ZeroCodes(size);
    DrawnIsLegal(s, size);
  }

  /** Asked for zero weights, the builder writes four codes for zero in every byte. */
  lemma ZeroWeights(size: nat, s: bv64, i: nat, k: nat)
    requires i < size && k < 4
    ensures I2s.Ternary(I2s.Code(Ternaries(size, s, true)[i], k)) == 0
  {
    RepeatedAt(size, i);
    assert I2s.Code(0x55, k) == 1;
  }

  lemma {:induction false} RepeatedAt(n: nat, i: nat)
    requires i < n
    ensures Repeat([0x55], n)[i] == 0x55
  {
    if i < n - 1 { RepeatedAt(n - 1, i); }
  }

  method I2sTensorWithScale(inDim: nat, outDim: nat, rng: Xorshift64, allZero: bool) returns (out: seq<byte>)
    requires inDim > 0 && inDim % 128 == 0
    modifies rng
    ensures out == Ternaries(inDim / 4 * outDim, old(rng.state), allZero)
    ensures rng.state == StateAfter(old(rng.state), if allZero then 0 else 4 * (inDim / 4 * outDim))
  {
    var size := inDim / 4 * outDim;
    var packed: seq<byte>;
    if allZero {
      packed := Repeat([0x55], size);
    } else {
      packed := RandomCodes(size, rng);
    }
    out := packed + SCALE_ONE;
  }

  lemma {:induction false} ZeroCodes(n: nat)
    ensures LegalCodes(Repeat([0x55], n))
  {
    if n > 0 { ZeroCodes(n - 1); }
  }

  method RandomCodes(size: nat, rng: Xorshift64) returns (packed: seq<byte>)
    modifies rng
    ensures packed == Drawn(old(rng.state), size) && rng.state == StateAfter(old(rng.state), 4 * size)
  {
    hide CodeOf, DrawnByte, Next;
    packed := [];
    while |packed| < size
      invariant |packed| <= size && packed == Drawn(old(rng.state), |packed|)
      invariant rng.state == StateAfter(old(rng.state), 4 * |packed|)
    {
      StepsAdd(old(rng.state), 4 * |packed|, 4);
      var b := RandomByte(rng);
      packed := packed + [b];
    }
  }

  /** Four codes, the first in the high bits. */
  method RandomByte(rng: Xorshift64) returns (b: byte)
    modifies rng
    ensures b == DrawnByte(old(rng.state)) && rng.state == StateAfter(old(rng.state), 4)
  {
    hide CodeOf, StateAfter, Next, Bits.Or, Bits.Shl;
    FourMore(rng.state);
    var c0 := rng.NextLegalCode();
    var c1 := rng.NextLegalCode();
    var c2 := rng.NextLegalCode();
    var c3 := rng.NextLegalCode();
    Bits.PairsJoinDown(c0, c1, c2, c3);
    b := Bits.Or(Bits.Or(Bits.Or(Bits.Shl(c0, 6), Bits.Shl(c1, 4)), Bits.Shl(c2, 2)), c3);
  }

  // ---------------------------------------------------------------------------
  // The tensor list
  // ---------------------------------------------------------------------------

  /** A tensor's bytes: ones for a norm or an embedding, weights drawn from state `s` on for a ternary one. */
  function Content(d: Desc, s: bv64, allZero: bool): seq<byte>
    requires Fillable(d)
  {
    if d.raw == F32 then Repeat(ONE_F32, d.shape[0])
    else if d.raw == F16 then Repeat(ONE_F16, d.shape[0] * d.shape[1])
    else Ternaries(Size(d), s, allZero)
  }

  /** Generator steps a tensor takes. */
  function Draws(d: Desc, allZero: bool): nat {
    if Fillable(d) && d.raw == I2S && !allZero then 4 * Size(d) else 0
  }

  function DrawsTo(ds: seq<Desc>, n: nat, allZero: bool): nat
    requires n <= |ds|
  {
    if n == 0 then 0 else DrawsTo(ds, n - 1, allZero) + Draws(ds[n - 1], allZero)
  }

  /** The tensor carries its description and its bytes. */
  ghost predicate Fills(t: Tensor, d: Desc, s: bv64, allZero: bool) {
    Fillable(d) && t == Tensor(d.name, d.shape, d.raw, Content(d, s, allZero))
  }

  /** So do all, each drawing on from where the ones before it stopped. */
  ghost predicate FillsAll(ts: seq<Tensor>, ds: seq<Desc>, s: bv64, allZero: bool) {
    |ts| == |ds| && forall i: nat :: i < |ts| ==> Fills(ts[i], ds[i], StateAfter(s, DrawsTo(ds, i, allZero)), allZero)
  }

  method Fill(d: Desc, rng: Xorshift64, allZero: bool) returns (t: Tensor)
    requires Fillable(d)
    modifies rng
    ensures Fills(t, d, old(rng.state), allZero)
    ensures rng.state == StateAfter(old(rng.state), Draws(d, allZero))
  {
    hide Repeat, Ternaries, Next;
    var data;
    if d.raw == F32 {
      data := AllOnes(ONE_F32, d.shape[0]);
    } else if d.raw == F16 {
      data := AllOnes(ONE_F16, d.shape[0] * d.shape[1]);
    } else {
      data := I2sTensorWithScale(d.shape[0], d.shape[1], rng, allZero);
    }
    t := Tensor(d.name, d.shape, d.raw, data);
  }

  lemma {:induction false} DrawsConcat(ds: seq<Desc>, more: seq<Desc>, n: nat, allZero: bool)
    requires n <= |more|
    ensures DrawsTo(ds + more, |ds| + n, allZero) == DrawsTo(ds, |ds|, allZero) + DrawsTo(more, n, allZero)
  {
    hide Draws;
    if n > 0 { DrawsConcat(ds, more, n - 1, allZero); } else { DrawsPrefix(ds, more, |ds|, allZero); }
  }

  lemma {:induction false} DrawsPrefix(ds: seq<Desc>, more: seq<Desc>, n: nat, allZero: bool)
    requires n <= |ds|
    ensures DrawsTo(ds + more, n, allZero) == DrawsTo(ds, n, allZero)
  {
    hide Draws;
    if n > 0 { DrawsPrefix(ds, more, n - 1, allZero); }
  }

  /** Tensors filled one list after another fill the lists joined. */
  lemma FillsConcat(ts: seq<Tensor>, ds: seq<Desc>, us: seq<Tensor>, es: seq<Desc>, s: bv64, allZero: bool)
    requires FillsAll(ts, ds, s, allZero)
    requires FillsAll(us, es, StateAfter(s, DrawsTo(ds, |ds|, allZero)), allZero)
    ensures FillsAll(ts + us, ds + es, s, allZero)
  {
    hide Fills, Draws, DrawsTo, StateAfter;
    var mid := DrawsTo(ds, |ds|, allZero);
    forall i: nat | i < |ts + us|
      ensures Fills((ts + us)[i], (ds + es)[i], StateAfter(s, DrawsTo(ds + es, i, allZero)), allZero)
    {
      if i < |ts| {
        DrawsPrefix(ds, es, i, allZero);
      } else {
        var k := i - |ts|;
        DrawsConcat(ds, es, k, allZero);
        StepsAdd(s, mid, DrawsTo(es, k, allZero));
        assert Fills(us[k], es[k], StateAfter(StateAfter(s, mid), DrawsTo(es, k, allZero)), allZero);
      }
    }
  }

  /** One more tensor. */
  lemma FillsMore(ts: seq<Tensor>, ds: seq<Desc>, t: Tensor, d: Desc, s: bv64, allZero: bool)
    requires FillsAll(ts, ds, s, allZero)
    requires Fills(t, d, StateAfter(s, DrawsTo(ds, |ds|, allZero)), allZero)
    ensures FillsAll(ts + [t], ds + [d], s, allZero)
    ensures DrawsTo(ds + [d], |ds| + 1, allZero) == DrawsTo(ds, |ds|, allZero) + Draws(d, allZero)
  {
    hide Fills, Draws, FillsAll, DrawsTo, StateAfter;
    OneFilled(t, d, StateAfter(s, DrawsTo(ds, |ds|, allZero)), allZero);
    FillsConcat(ts, ds, [t], [d], s, allZero);
    DrawsConcat(ds, [d], 1, allZero);
  }

  lemma OneFilled(t: Tensor, d: Desc, s: bv64, allZero: bool)
    requires Fills(t, d, s, allZero)
    ensures FillsAll([t], [d], s, allZero) && DrawsTo([d], 1, allZero) == Draws(d, allZero)
  {
    hide Fills, Draws, Next;
    assert StateAfter(s, 0) == s && DrawsTo([d], 0, allZero) == 0;
    assert [d][0] == d && [t][0] == t;
  }

  lemma NothingFilled(s: bv64, allZero: bool)
    ensures FillsAll([], [], s, allZero) && DrawsTo([], 0, allZero) == 0 && StateAfter(s, 0) == s
  {
  }

  method FillMany(ds: seq<Desc>, rng: Xorshift64, allZero: bool) returns (ts: seq<Tensor>)
    requires forall i :: 0 <= i < |ds| ==> Fillable(ds[i])
    modifies rng
    ensures FillsAll(ts, ds, old(rng.state), allZero)
    ensures rng.state == StateAfter(old(rng.state), DrawsTo(ds, |ds|, allZero))
  {
    hide Fills, Fillable, Draws, Next, FillsAll, DrawsTo, StateAfter;
    ts := [];
    assert ds[..0] == [];
    NothingFilled(rng.state, allZero);
    while |ts| < |ds|
      invariant |ts| <= |ds| && FillsAll(ts, ds[..|ts|], old(rng.state), allZero)
      invariant rng.state == StateAfter(old(rng.state), DrawsTo(ds[..|ts|], |ts|, allZero))
    {
      ghost var done, drawn := ds[..|ts|], DrawsTo(ds[..|ts|], |ts|, allZero);
      var t := Fill(ds[|ts|], rng, allZero);
      FillsMore(ts, done, t, ds[|ts|], old(rng.state), allZero);
      StepsAdd(old(rng.state), drawn, Draws(ds[|ts|], allZero));
      assert done + [ds[|ts|]] == ds[..|ts| + 1];
      ts := ts + [t];
    }
    assert ds[..|ts|] == ds;
  }

  lemma LayerFillable(cfg: Config, layer: nat)
    requires Buildable(cfg) && layer < cfg.nLayers
    ensures forall i :: 0 <= i < 11 ==> Fillable(LayerDirectory(cfg, layer)[i])
  {
    hide IsText;
    LayerNameIsText(layer, ".attn_norm.weight");
    LayerNameIsText(layer, ".attn_sub_norm.weight");
    LayerNameIsText(layer, ".attn_q.weight");
    LayerNameIsText(layer, ".attn_k.weight");
    LayerNameIsText(layer, ".attn_v.weight");
    LayerNameIsText(layer, ".attn_output.weight");
    LayerNameIsText(layer, ".ffn_norm.weight");
    LayerNameIsText(layer, ".ffn_sub_norm.weight");
    LayerNameIsText(layer, ".ffn_gate.weight");
    LayerNameIsText(layer, ".ffn_up.weight");
    LayerNameIsText(layer, ".ffn_down.weight");
  }

  lemma LayerNameIsText(layer: nat, part: string)
    requires layer <= MAX_COUNT && |part| <= 32
    ensures IsText(LayerName(layer, part))
  {
    AsciiIsText("blk." + Decimal(layer) + part);
  }

  lemma FrontFillable(cfg: Config)
    requires Buildable(cfg)
    ensures Fillable(Embedding(cfg)) && Fillable(OutputHead(cfg)) && Fillable(Norm(Ascii("output_norm.weight"), cfg.nEmbd))
  {
    hide IsText, Ascii;
    AsciiIsText("token_embd.weight");
    AsciiIsText("output.weight");
    AsciiIsText("output_norm.weight");
  }

  /** The list in the builder's order: embedding, output weight if asked for, output norm, then each layer. */
  method BuildTensors(cfg: Config, randomWeights: bool, outputWeight: bool) returns (ts: seq<Tensor>)
    requires Buildable(cfg)
    ensures FillsAll(ts, Directory(cfg, outputWeight), Start(cfg.seed), !randomWeights)
  {
    hide Fills, Fillable, LayerDirectory, Embedding, OutputHead, Norm, Buildable, FillsAll, DrawsTo, StateAfter, Next;
    var rng := new Xorshift64(cfg.seed);
    FrontFillable(cfg);
    ts := FillMany([Embedding(cfg)], rng, !randomWeights);
    ghost var ds := [Embedding(cfg)];
    if outputWeight {
      ts := FillFurther(ts, ds, [OutputHead(cfg)], rng, Start(cfg.seed), !randomWeights);
      ds := ds + [OutputHead(cfg)];
    }
    var last := Norm(Ascii("output_norm.weight"), cfg.nEmbd);
    ts := FillFurther(ts, ds, [last], rng, Start(cfg.seed), !randomWeights);
    ds := ds + [last];
    ghost var front := ds;
    var layer := 0;
    assert front + Layers(cfg, 0) == front;
    while layer < cfg.nLayers
      invariant 0 <= layer <= cfg.nLayers && ds == front + Layers(cfg, layer)
      invariant FillsAll(ts, ds, Start(cfg.seed), !randomWeights)
      invariant rng.state == StateAfter(Start(cfg.seed), DrawsTo(ds, |ds|, !randomWeights))
    {
      LayerFillable(cfg, layer);
      ts := FillFurther(ts, ds, LayerDirectory(cfg, layer), rng, Start(cfg.seed), !randomWeights);
      ds := ds + LayerDirectory(cfg, layer);
      assert front + Layers(cfg, layer + 1) == (front + Layers(cfg, layer)) + LayerDirectory(cfg, layer);
      layer := layer + 1;
    }
    assert front + Layers(cfg, cfg.nLayers) == Directory(cfg, outputWeight);
  }

  /** The tensors of a further list, after those of the lists before it. */
  method FillFurther(ts: seq<Tensor>, ghost ds: seq<Desc>, more: seq<Desc>, rng: Xorshift64, ghost s: bv64, allZero: bool)
    returns (longer: seq<Tensor>)
    requires FillsAll(ts, ds, s, allZero) && rng.state == StateAfter(s, DrawsTo(ds, |ds|, allZero))
    requires forall i :: 0 <= i < |more| ==> Fillable(more[i])
    modifies rng
    ensures FillsAll(longer, ds + more, s, allZero)
    ensures rng.state == StateAfter(s, DrawsTo(ds + more, |ds + more|, allZero))
  {
    hide Fillable, FillsAll, DrawsTo, StateAfter, Next;
    var further := FillMany(more, rng, allZero);
    longer := ts + further;
    FillsConcat(ts, ds, further, more, s, allZero);
    DrawsConcat(ds, more, |more|, allZero);
    StepsAdd(s, DrawsTo(ds, |ds|, allZero), DrawsTo(more, |more|, allZero));
  }

  // ---------------------------------------------------------------------------
  // The file
  // ---------------------------------------------------------------------------

  function U32(key: string, value: nat): KV {
    KV(Ascii(key), Number(UINT32, value))
  }

  function Metadata(cfg: Config): (r: seq<KV>)
    ensures |r| == 11
  {
    [KV(Ascii("general.architecture"), Str(Ascii("bitnet-b1.58"))),
     U32("bitnet-b1.58.block_count", cfg.nLayers),
     U32("bitnet-b1.58.embedding_length", cfg.nEmbd),
     U32("bitnet-b1.58.feed_forward_length", cfg.nFf),
     U32("bitnet-b1.58.context_length", cfg.contextLength),
     U32("bitnet-b1.58.attention.head_count", cfg.headCount),
     U32("bitnet-b1.58.attention.head_count_kv", cfg.headCountKv),
     KV(Ascii("bitnet-b1.58.attention.layer_norm_rms_epsilon"), Number(FLOAT32, cfg.epsilon)),
     U32("bitnet-b1.58.rope.dimension_count", cfg.headDim),
     KV(Ascii("bitnet-b1.58.rope.freq_base"), Number(FLOAT32, cfg.ropeFreqBase)),
     U32("bitnet-b1.58.vocab_size", cfg.vocabSize)]
  }

  lemma MetadataWritable(cfg: Config)
    requires Buildable(cfg)
    ensures WritableKvs(Metadata(cfg))
    ensures forall i :: 0 <= i < 11 ==> Metadata(cfg)[i].key != ALIGNMENT_KEY
  {
    hide IsText, Ascii;
    AsciiIsText("general.architecture");
    AsciiIsText("bitnet-b1.58");
    AsciiIsText("bitnet-b1.58.block_count");
    AsciiIsText("bitnet-b1.58.embedding_length");
    AsciiIsText("bitnet-b1.58.feed_forward_length");
    AsciiIsText("bitnet-b1.58.context_length");
    AsciiIsText("bitnet-b1.58.attention.head_count");
    AsciiIsText("bitnet-b1.58.attention.head_count_kv");
    AsciiIsText("bitnet-b1.58.attention.layer_norm_rms_epsilon");
    AsciiIsText("bitnet-b1.58.rope.dimension_count");
    AsciiIsText("bitnet-b1.58.rope.freq_base");
    AsciiIsText("bitnet-b1.58.vocab_size");
    assert |ALIGNMENT_KEY| == 17;
  }

  lemma RepeatLength(unit: seq<byte>, n: nat)
    ensures |Repeat(unit, n)| == |unit| * n
  {
  }

  lemma FillsIsWritable(t: Tensor, d: Desc, s: bv64, allZero: bool)
    requires Fills(t, d, s, allZero)
    ensures WritableTensor(t) && t.data != []
  {
    hide IsText, TensorBytes, Repeat, Ternaries;
    SizeIsTensorBytes(d);
    if d.raw == F32 { RepeatLength(ONE_F32, d.shape[0]); }
    if d.raw == F16 { RepeatLength(ONE_F16, d.shape[0] * d.shape[1]); }
  }

  lemma KeysDiffer(a: string, b: string)
    requires |a| != |b| || (|a| > 13 && a[13] != b[13] && (a[13] as int) < 128 && (b[13] as int) < 128)
    ensures Ascii(a) != Ascii(b)
  {
    if |a| == |b| { assert Ascii(a)[13] != Ascii(b)[13]; }
  }

  /** No key is written twice. */
  lemma MetadataKeysDiffer(cfg: Config)
    ensures forall j, k :: 0 <= j < k < 11 ==> Metadata(cfg)[j].key != Metadata(cfg)[k].key
  {
    hide Ascii;
    KeysDiffer("bitnet-b1.58.context_length", "bitnet-b1.58.rope.freq_base");
    KeysDiffer("bitnet-b1.58.attention.head_count", "bitnet-b1.58.rope.dimension_count");
  }

  /** So the map the reader makes of them holds every pair. */
  lemma MetadataReadsBack(cfg: Config, i: nat)
    requires i < 11
    ensures var kv := Metadata(cfg)[i]; kv.key in MapOf(Metadata(cfg)) && MapOf(Metadata(cfg))[kv.key] == kv.value
  {
    hide Metadata;
    MetadataKeysDiffer(cfg);
    DistinctKeys(Metadata(cfg), i);
  }

  /** The file has the pair. */
  predicate HasPair(file: GgufFile, kv: KV) {
    kv.key in file.header.metadata && file.header.metadata[kv.key] == kv.value
  }

  /**
    The built file is a function of the configuration. Whatever the configuration, reading it
    back gives every metadata pair and every tensor as built, when the file's size is one a
    64-bit offset can hold.
    */
  method BuildGguf(cfg: Config, randomWeights: bool, outputWeight: bool) returns (buf: seq<byte>, ghost ts: seq<Tensor>)
    requires Buildable(cfg)
    ensures FillsAll(ts, Directory(cfg, outputWeight), Start(cfg.seed), !randomWeights) && WritableTensors(ts)
    ensures WritableKvs(Metadata(cfg)) && buf == Print(Metadata(cfg), ts)
    ensures |buf| <= U64_MAX ==> ReadsBack(ParseFile(buf), Metadata(cfg), ts, |buf|)
    ensures |buf| <= U64_MAX ==> ParseFile(buf).Some? && forall i :: 0 <= i < 11 ==> HasPair(ParseFile(buf).value, Metadata(cfg)[i])
  {
    hide Fills, WritableTensor, Metadata, Print, Directory, ParseFile, MapOf, StateAfter, DrawsTo;
    MetadataWritable(cfg);
    var tensors := BuildTensors(cfg, randomWeights, outputWeight);
    ts := tensors;
    forall i: nat | i < |ts| ensures WritableTensor(ts[i]) && ts[i].data != [] {
      FillsIsWritable(ts[i], Directory(cfg, outputWeight)[i],
                      StateAfter(Start(cfg.seed), DrawsTo(Directory(cfg, outputWeight), i, !randomWeights)), !randomWeights);
    }
    buf := BuildFile(Metadata(cfg), tensors);
    if |buf| <= U64_MAX {
      PrintParse(Metadata(cfg), ts);
      forall i: nat | i < 11 ensures HasPair(ParseFile(buf).value, Metadata(cfg)[i]) { MetadataReadsBack(cfg, i); }
    }
  }
}
