/** Register-file and offset planning of the batch-reduce depthwise GEMM
    (brdgmm) JIT kernel generator.

    The generator lays out the vector register file as
      [0, aux)                      auxiliary registers (permute table, shifts, ...)
      aux                           the A data register
      aux + (fma-embedded ? 0 : 1)  the first B data register
      ... temporaries, counting down from just below the full-size tile ...
      [max_vmms - tile, max_vmms)   the accumulators of the current tile
    and computes byte offsets of the A, B, C, D, bias, scale and compensation
    elements it loads and stores. Only this integer arithmetic is modelled;
    the emitted instructions are not. */
module BrdgmmKernel {
  import opened Arith

  /** The ISA variants the kernel is instantiated for. */
  datatype Isa =
    | Avx2 | Avx2Vnni | Avx2Vnni2
    | Avx512Core | Avx512CoreVnni | Avx512CoreBf16 | Avx512CoreFp16

  /** Instruction-set features, used only to define the superset relation. */
  datatype Feature = Avx2F | AvxVnniF | AvxNeConvertF | Avx512F | Avx512VnniF | Avx512Bf16F | Avx512Fp16F

  function Features(isa: Isa): set<Feature> {
    match isa
    case Avx2 => {Avx2F}
    case Avx2Vnni => {Avx2F, AvxVnniF}
    case Avx2Vnni2 => {Avx2F, AvxVnniF, AvxNeConvertF}
    case Avx512Core => {Avx2F, Avx512F}
    case Avx512CoreVnni => {Avx2F, Avx512F, Avx512VnniF}
    case Avx512CoreBf16 => {Avx2F, Avx512F, Avx512VnniF, Avx512Bf16F}
    case Avx512CoreFp16 => {Avx2F, Avx512F, Avx512VnniF, Avx512Bf16F, Avx512Fp16F}
  }

  /** `isa` offers everything `base` offers. */
  predicate IsSuperset(isa: Isa, base: Isa) {
    Features(base) <= Features(isa)
  }

  /** How the zero point of the A operand is broadcast. */
  datatype Broadcast = NoBroadcast | PerTensor | PerM | PerN | PerK

  /** The fields of the brgemm descriptor that the layout arithmetic reads.
      `sumScaleIsOne` stands for the float comparison `sum_scale == 1`. */
  datatype Brgemm = Brgemm(
    isDgmm: bool, isInt8: bool, isF32: bool, isXf16: bool,
    isaImpl: Isa,
    reqS8s8Compensation: bool, zpTypeA: Broadcast,
    withSum: bool, sumScaleIsOne: bool, isOcScale: bool,
    bcastDim: nat, loadDim: nat,
    bdBlock2: nat,
    ldBlock: nat, ldbTail: nat, ldBlock2: nat, ldb2Tail: nat,
    typesizeA: nat, typesizeB: nat, typesizeC: nat, typesizeD: nat, typesizeBias: nat,
    lda: nat, ldc: nat, ldd: nat)

  /** One kernel instance: the template ISA, the descriptor, and the values the
      constructor fixes (vector width in elements, size of the register file,
      whether vertical padding is handled). */
  datatype Kernel = Kernel(isa: Isa, brg: Brgemm, simdW: Positive, maxVmms: nat, hasVpad: bool)

  type Positive = x: nat | x > 0 witness 1

  /** Blocking accessors, named as in the generator. */
  function M(k: Kernel): nat { k.brg.bcastDim }
  function MBlock2(k: Kernel): nat { k.brg.bdBlock2 }
  function NBlock1(k: Kernel): nat { k.brg.ldBlock }
  function NBlock1Tail(k: Kernel): nat { k.brg.ldbTail }
  function NBlock2(k: Kernel): nat { k.brg.ldBlock2 }
  function NBlock2Tail(k: Kernel): nat { k.brg.ldb2Tail }

  // ---------------------------------------------------------------------------
  // Auxiliary registers

  /** The fused fast path for int8 depthwise kernels with VNNI. */
  function IsFastVnniInt8(brg: Brgemm): (r: bool)
    ensures r <==> brg.isDgmm && brg.isInt8 && brg.isaImpl == Avx512CoreVnni && brg.ldbTail == 0
    ensures r ==> IsSuperset(brg.isaImpl, Avx512Core)
  {
    brg.isDgmm && brg.isInt8 && brg.isaImpl == Avx512CoreVnni && brg.ldbTail == 0
  }

  /** The purposes an auxiliary register is reserved for. */
  datatype AuxRole = PermuteTable | S8s8Shift | SrcZpComp | SrcZpBcast | SumScaleBcast

  /** The sum post-op needs its scale broadcast into a register of its own. */
  predicate NeedsSumScaleVmm(brg: Brgemm) {
    brg.withSum && !IsSuperset(brg.isaImpl, Avx512Core) && !brg.sumScaleIsOne
  }

  /** The reserved auxiliary roles, in reservation order. */
  function AuxRoles(brg: Brgemm): (roles: seq<AuxRole>)
    ensures forall i, j :: 0 <= i < j < |roles| ==> roles[i] != roles[j]
    ensures PermuteTable in roles <==> IsFastVnniInt8(brg)
    ensures S8s8Shift in roles <==> brg.reqS8s8Compensation
    ensures SrcZpComp in roles <==> brg.zpTypeA != NoBroadcast
    ensures SrcZpBcast in roles <==> brg.zpTypeA != NoBroadcast && brg.isaImpl in {Avx2Vnni, Avx2Vnni2}
    ensures SumScaleBcast in roles <==> brg.zpTypeA == NoBroadcast && NeedsSumScaleVmm(brg)
  {
    (if IsFastVnniInt8(brg) then [PermuteTable] else [])
    + (if brg.reqS8s8Compensation then [S8s8Shift] else [])
    + (if brg.zpTypeA != NoBroadcast then
         [SrcZpComp] + (if brg.isaImpl in {Avx2Vnni, Avx2Vnni2} then [SrcZpBcast] else [])
       else if NeedsSumScaleVmm(brg) then [SumScaleBcast]
       else [])
  }

  /** Number of auxiliary vector registers a configuration reserves. It is one
      per reserved role, and never more than three: the fast VNNI path runs on
      avx512_core_vnni, which needs neither the avx2 zero-point broadcast nor the
      sum-scale register. */
  function GetAuxVmmCount(brg: Brgemm): (r: nat)
    ensures r == |AuxRoles(brg)|
    ensures r <= 3
    ensures r == 0 <==> !IsFastVnniInt8(brg) && !brg.reqS8s8Compensation
                        && brg.zpTypeA == NoBroadcast && !NeedsSumScaleVmm(brg)
  {
    var count := 0;
    var count := if IsFastVnniInt8(brg) then count + 1 else count;
    var count := if brg.reqS8s8Compensation then count + 1 else count;
    if brg.zpTypeA != NoBroadcast then
      var count := count + 1;
      if brg.isaImpl in {Avx2Vnni, Avx2Vnni2} then count + 1 else count
    else if brg.withSum && !IsSuperset(brg.isaImpl, Avx512Core) then
      if !brg.sumScaleIsOne then count + 1 else count
    else
      count
  }

  // ---------------------------------------------------------------------------
  // Data registers, accumulators, temporaries

  /** B is fed to the FMA straight from memory (no B register of its own). */
  predicate IsFmaEmbd(k: Kernel) {
    k.brg.isF32 && IsSuperset(k.isa, Avx512Core)
  }

  /** Sub-steps per VNNI lane pair: avx2_vnni_2 splits xf16 data into two. */
  function VnniSubstep(k: Kernel): (r: nat)
    ensures r == 1 || r == 2
    ensures r == 2 <==> k.brg.isaImpl == Avx2Vnni2 && k.brg.isXf16
  {
    if k.brg.isaImpl == Avx2Vnni2 && k.brg.isXf16 then 2 else 1
  }

  /** First register above the auxiliary ones. */
  function GetVmmBaseIdx(k: Kernel): (r: nat)
    ensures r == |AuxRoles(k.brg)| && r <= 3
  {
    GetAuxVmmCount(k.brg)
  }

  /** The A data register sits right above the auxiliary registers. */
  function VmmA(k: Kernel): (r: nat)
    ensures r == |AuxRoles(k.brg)|
  {
    GetVmmBaseIdx(k)
  }

  /** The `bi`-th B data register: right after A, or on A itself when f32
      data on an avx512_core superset feeds B to the FMA from memory. */
  function VmmB(k: Kernel, bi: nat): (r: nat)
    ensures r == VmmA(k) + bi <==> k.brg.isF32 && IsSuperset(k.isa, Avx512Core)
    ensures r == VmmA(k) + bi + 1 <==> !(k.brg.isF32 && IsSuperset(k.isa, Avx512Core))
  {
    GetVmmBaseIdx(k) + (if IsFmaEmbd(k) then 0 else 1) + bi
  }

  /** Number of accumulator registers of an m_blocks x n_blocks tile. */
  function TileVmms(k: Kernel, mBlocks: nat, nBlocks: nat): nat {
    mBlocks * nBlocks * VnniSubstep(k)
  }

  /** First accumulator register of an m_blocks x n_blocks tile. */
  function AccmStart(k: Kernel, mBlocks: nat, nBlocks: nat): int {
    k.maxVmms - TileVmms(k, mBlocks, nBlocks)
  }

  /** The tile's accumulators all lie above the first B register (the
      generator asserts this of every accumulator it hands out; the lowest
      one is the tile's first). */
  predicate TileFits(k: Kernel, mBlocks: nat, nBlocks: nat) {
    AccmStart(k, mBlocks, nBlocks) > VmmB(k, 0)
  }

  /** Accumulator register of element (m, n, vnni_idx) of the tile, row-major. */
  function Accm(k: Kernel, mBlocks: nat, nBlocks: nat, m: nat, n: nat, vnniIdx: nat): (idx: int)
    requires mBlocks <= MBlock2(k) && m < mBlocks
    requires nBlocks <= NBlock2(k) && n < nBlocks
    requires vnniIdx < VnniSubstep(k)
    requires TileFits(k, mBlocks, nBlocks)
    ensures AccmStart(k, mBlocks, nBlocks) <= idx < k.maxVmms
    ensures idx > VmmB(k, 0)
  {
    var s := VnniSubstep(k);
    var accmStart := k.maxVmms - mBlocks * nBlocks * s;
    var accmRelIdx := m * nBlocks * s + n * s + vnniIdx;
    RowMajorBound(m, n, vnniIdx, mBlocks, nBlocks, s);
    accmStart + accmRelIdx
  }

  /** Coordinates of an accumulator register of the tile: the inverse of Accm. */
  function AccmCoords(k: Kernel, mBlocks: nat, nBlocks: nat, idx: int): (c: (nat, nat, nat))
    requires AccmStart(k, mBlocks, nBlocks) <= idx < k.maxVmms
    ensures c.0 < mBlocks && c.1 < nBlocks && c.2 < VnniSubstep(k)
  {
    var s := VnniSubstep(k);
    var rel := idx - AccmStart(k, mBlocks, nBlocks);
    DivBelow(rel, s, mBlocks * nBlocks);
    DivBelow(rel / s, nBlocks, mBlocks);
    (rel / s / nBlocks, rel / s % nBlocks, rel % s)
  }

  /** Distinct tile elements get distinct accumulator registers. */
  lemma AccmInjective(k: Kernel, mBlocks: nat, nBlocks: nat,
                      m1: nat, n1: nat, v1: nat, m2: nat, n2: nat, v2: nat)
    requires mBlocks <= MBlock2(k) && m1 < mBlocks && m2 < mBlocks
    requires nBlocks <= NBlock2(k) && n1 < nBlocks && n2 < nBlocks
    requires v1 < VnniSubstep(k) && v2 < VnniSubstep(k)
    requires TileFits(k, mBlocks, nBlocks)
    requires Accm(k, mBlocks, nBlocks, m1, n1, v1) == Accm(k, mBlocks, nBlocks, m2, n2, v2)
    ensures m1 == m2 && n1 == n2 && v1 == v2
  {
    var s := VnniSubstep(k);
    AccmRel(k, mBlocks, nBlocks, m1, n1, v1);
    AccmRel(k, mBlocks, nBlocks, m2, n2, v2);
    DigitsUnique(m1 * nBlocks + n1, v1, m2 * nBlocks + n2, v2, s);
    DigitsUnique(m1, n1, m2, n2, nBlocks);
  }

  /** The accumulator of (m, n, v) sits (m * nBlocks + n) * substep + v
      registers above the start of the tile. */
  lemma AccmRel(k: Kernel, mBlocks: nat, nBlocks: nat, m: nat, n: nat, v: nat)
    requires mBlocks <= MBlock2(k) && m < mBlocks
    requires nBlocks <= NBlock2(k) && n < nBlocks
    requires v < VnniSubstep(k)
    requires TileFits(k, mBlocks, nBlocks)
    ensures Accm(k, mBlocks, nBlocks, m, n, v) == AccmStart(k, mBlocks, nBlocks) + (m * nBlocks + n) * VnniSubstep(k) + v
  {
    Digits(m, n, v, nBlocks, VnniSubstep(k));
  }

  /** Every register of [AccmStart, max_vmms) is the accumulator of exactly the
      element AccmCoords names: together with AccmInjective, Accm is a
      bijection from the tile onto the top TileVmms registers. */
  lemma AccmOnto(k: Kernel, mBlocks: nat, nBlocks: nat, idx: int)
    requires mBlocks <= MBlock2(k) && nBlocks <= NBlock2(k)
    requires TileFits(k, mBlocks, nBlocks)
    requires AccmStart(k, mBlocks, nBlocks) <= idx < k.maxVmms
    ensures var c := AccmCoords(k, mBlocks, nBlocks, idx);
            Accm(k, mBlocks, nBlocks, c.0, c.1, c.2) == idx
  {
    var rel := idx - AccmStart(k, mBlocks, nBlocks);
    Recompose(rel, VnniSubstep(k), nBlocks);
  }

  /** The row-major index of (m, n, v) read as two nested mixed-radix digits. */
  lemma Digits(m: nat, n: nat, v: nat, nB: nat, s: nat)
    ensures m * nB * s + n * s + v == (m * nB + n) * s + v
  {
  }

  /** Mixed-radix digits of `rel` (radices nB and s) recombine to `rel`. */
  lemma Recompose(rel: int, s: nat, nB: nat)
    requires rel >= 0 && s > 0 && nB > 0
    ensures (rel / s / nB) * nB * s + (rel / s % nB) * s + rel % s == rel
  {
    var q := rel / s;
    assert rel == q * s + rel % s;
    assert q == (q / nB) * nB + q % nB;
    assert (q / nB) * nB * s + (q % nB) * s == ((q / nB) * nB + q % nB) * s;
  }

  /** Temporary register `i`: counts down from just below the full-size
      (m_block2 x n_block2) accumulator tile. The generator asserts it stays
      clear of register 0 when that register holds the fast-path permute table. */
  function VmmTmp(k: Kernel, i: nat): (r: int)
    requires k.maxVmms - TileVmms(k, MBlock2(k), NBlock2(k)) - 1 - i >= (if IsFastVnniInt8(k.brg) then 1 else 0)
    ensures r < AccmStart(k, MBlock2(k), NBlock2(k))
    ensures r >= 0 && (IsFastVnniInt8(k.brg) ==> r >= 1)
  {
    k.maxVmms - MBlock2(k) * NBlock2(k) * VnniSubstep(k) - 1 - i
  }

  /** Later temporaries sit lower. */
  lemma VmmTmpDecreasing(k: Kernel, i: nat, j: nat)
    requires i < j
    requires k.maxVmms - TileVmms(k, MBlock2(k), NBlock2(k)) - 1 - j >= (if IsFastVnniInt8(k.brg) then 1 else 0)
    ensures VmmTmp(k, j) < VmmTmp(k, i)
  {
  }

  /** A temporary never overlaps an accumulator, whatever tile (no larger than
      m_block2 x n_block2) is being computed. */
  lemma VmmTmpBelowAccm(k: Kernel, i: nat, mBlocks: nat, nBlocks: nat, m: nat, n: nat, v: nat)
    requires k.maxVmms - TileVmms(k, MBlock2(k), NBlock2(k)) - 1 - i >= (if IsFastVnniInt8(k.brg) then 1 else 0)
    requires mBlocks <= MBlock2(k) && m < mBlocks
    requires nBlocks <= NBlock2(k) && n < nBlocks
    requires v < VnniSubstep(k)
    requires TileFits(k, mBlocks, nBlocks)
    ensures VmmTmp(k, i) < Accm(k, mBlocks, nBlocks, m, n, v)
  {
    var s := VnniSubstep(k);
    MulMono(mBlocks, MBlock2(k), nBlocks, NBlock2(k));
    MulMono(mBlocks * nBlocks, MBlock2(k) * NBlock2(k), s, s);
  }

  // ---------------------------------------------------------------------------
  // N tail

  /** Elements of the last, partial vector of the N tail: that is the width
      the last vector of a tail block gets, or 0 when that vector is full. */
  function TailLength(k: Kernel): (r: nat)
    ensures r < k.simdW
    ensures NBlock1Tail(k) < k.simdW ==> r == NBlock1Tail(k)
    ensures LastNBlockSize(k) > 0 && NBlock1Tail(k) > 0 ==>
              TailVectors(k) > 0
              && GetSubstepSimd(k, LastNBlockSize(k) - 1, TailVectors(k) - 1, true)
                 == (if r > 0 then r else k.simdW)
  {
    LastTailVector(k);
    NBlock1Tail(k) % k.simdW
  }

  /** The last vector of a tail block covers what is left of the tail after
      the full vectors before it. */
  lemma LastTailVector(k: Kernel)
    ensures NBlock1Tail(k) % k.simdW < k.simdW
    ensures NBlock1Tail(k) < k.simdW ==> NBlock1Tail(k) % k.simdW == NBlock1Tail(k)
    ensures LastNBlockSize(k) > 0 && NBlock1Tail(k) > 0 ==>
              TailVectors(k) > 0
              && GetSubstepSimd(k, LastNBlockSize(k) - 1, TailVectors(k) - 1, true)
                 == (if NBlock1Tail(k) % k.simdW > 0 then NBlock1Tail(k) % k.simdW else k.simdW)
  {
    var w, t := k.simdW, NBlock1Tail(k);
    DivMod(t, w);
    if t % w == 0 && t > 0 {
      MulSucc(t / w - 1, w);
    }
  }

  function Min(a: int, b: int): int { if a <= b then a else b }

  /** Size of the last N block of the outer (block2) loop. */
  function LastNBlockSize(k: Kernel): nat {
    if NBlock2Tail(k) > 0 then NBlock2Tail(k) else NBlock2(k)
  }

  /** Number of lanes the `v_i`-th vector of N block `n_i` covers: a full
      vector, except in the last block of a tail tile, where it stops at the
      end of the tail. */
  function GetSubstepSimd(k: Kernel, nI: nat, vI: nat, hasNTail: bool): (r: int)
    ensures r <= k.simdW
    ensures !(hasNTail && nI + 1 == LastNBlockSize(k)) ==> r == k.simdW
    ensures hasNTail && nI + 1 == LastNBlockSize(k) ==> vI * k.simdW + r <= NBlock1Tail(k)
    ensures hasNTail && nI + 1 == LastNBlockSize(k) && vI * k.simdW + k.simdW <= NBlock1Tail(k)
            ==> r == k.simdW
    ensures hasNTail && nI + 1 == LastNBlockSize(k) && vI * k.simdW < NBlock1Tail(k) ==> r > 0
  {
    var lastNBlockSz := if NBlock2Tail(k) > 0 then NBlock2Tail(k) else NBlock2(k);
    if hasNTail && nI + 1 == lastNBlockSz then
      Min(k.simdW, NBlock1Tail(k) - vI * k.simdW)
    else
      k.simdW
  }

  /** Number of simd-wide vectors the N tail spans. */
  function TailVectors(k: Kernel): nat
  {
    NBlock1Tail(k) / k.simdW + (if NBlock1Tail(k) % k.simdW > 0 then 1 else 0)
  }

  /** Lanes covered by the first `count` vectors of the last block of a tail tile. */
  function TailLanes(k: Kernel, count: nat): int
    requires LastNBlockSize(k) > 0
  {
    if count == 0 then 0
    else TailLanes(k, count - 1) + GetSubstepSimd(k, LastNBlockSize(k) - 1, count - 1, true)
  }

  /** The vectors of the last tail block cover exactly the tail: together the
      vectors the tail spans touch n_block1_tail lanes, no more and no fewer. */
  lemma {:induction false} TailLanesCoverTail(k: Kernel)
    requires LastNBlockSize(k) > 0
    ensures TailLanes(k, TailVectors(k)) == NBlock1Tail(k)
  {
    var w, t := k.simdW, NBlock1Tail(k);
    var q := t / w;
    DivMod(t, w);
    TailLanesFull(k, q);
    if t % w > 0 {
      assert TailVectors(k) == q + 1;
      assert GetSubstepSimd(k, LastNBlockSize(k) - 1, q, true) == Min(w, t - q * w);
    }
  }

  /** Vectors that lie wholly inside the tail are full. */
  lemma {:induction false} TailLanesFull(k: Kernel, count: nat)
    requires LastNBlockSize(k) > 0
    requires count * k.simdW <= NBlock1Tail(k)
    ensures TailLanes(k, count) == count * k.simdW
  {
    if count > 0 {
      MulSucc(count - 1, k.simdW);
      TailLanesFull(k, count - 1);
    }
  }

  // ---------------------------------------------------------------------------
  // Padding

  /** Vertical padding matters only when M spans more than one block2 tile. */
  predicate CheckEffectivePadding(k: Kernel) {
    k.hasVpad && M(k) > MBlock2(k)
  }

  // ---------------------------------------------------------------------------
  // Byte offsets

  /** Logical output channel at which N block `n` starts. */
  function OcLogicalOffset(k: Kernel, n: nat): nat {
    n * NBlock1(k)
  }

  /** Element index of (row, col) in a row-major matrix with leading dimension ld. */
  function RowMajor(ld: nat, row: nat, col: nat): nat {
    row * ld + col
  }

  /** Byte offset of the A element of row m at the start of N block n. Its
      steps are stated in RowStep and BlockStep. */
  function AOffset(k: Kernel, m: nat, n: nat): (r: nat)
    ensures k.brg.typesizeA > 0 ==> r % k.brg.typesizeA == 0
  {
    WholeElements(k.brg.typesizeA, RowMajor(k.brg.lda, m, OcLogicalOffset(k, n)));
    k.brg.typesizeA * RowMajor(k.brg.lda, m, OcLogicalOffset(k, n))
  }

  /** Byte offset of the B elements of N block n. */
  function BOffset(k: Kernel, n: nat): (r: nat)
    ensures k.brg.typesizeB > 0 ==> r % k.brg.typesizeB == 0
  {
    WholeElements(k.brg.typesizeB, OcLogicalOffset(k, n));
    k.brg.typesizeB * OcLogicalOffset(k, n)
  }

  /** Byte offset of vector v of N block n in row m of C. */
  function COffset(k: Kernel, m: nat, n: nat, v: nat): (r: nat)
    ensures k.brg.typesizeC > 0 ==> r % k.brg.typesizeC == 0
  {
    WholeElements(k.brg.typesizeC, RowMajor(k.brg.ldc, m, OcLogicalOffset(k, n) + v * k.simdW));
    k.brg.typesizeC * RowMajor(k.brg.ldc, m, OcLogicalOffset(k, n) + v * k.simdW)
  }

  /** Byte offset of vector v of N block n in row m of D. */
  function DOffset(k: Kernel, m: nat, n: nat, v: nat): (r: nat)
    ensures k.brg.typesizeD > 0 ==> r % k.brg.typesizeD == 0
  {
    WholeElements(k.brg.typesizeD, RowMajor(k.brg.ldd, m, OcLogicalOffset(k, n) + v * k.simdW));
    k.brg.typesizeD * RowMajor(k.brg.ldd, m, OcLogicalOffset(k, n) + v * k.simdW)
  }

  /** Byte offset of the bias of vector v of N block n. */
  function BiasOffset(k: Kernel, n: nat, v: nat): (r: nat)
    ensures k.brg.typesizeBias > 0 ==> r % k.brg.typesizeBias == 0
  {
    WholeElements(k.brg.typesizeBias, OcLogicalOffset(k, n) + v * k.simdW);
    k.brg.typesizeBias * (OcLogicalOffset(k, n) + v * k.simdW)
  }

  const SizeofFloat: nat := 4
  const SizeofInt32: nat := 4

  /** Scales are per output channel only when `is_oc_scale`; a common scale
      always sits at offset 0. */
  function ScalesOffset(k: Kernel, n: nat, v: nat): (r: nat)
    ensures !k.brg.isOcScale ==> r == 0
  {
    SizeofFloat * (if k.brg.isOcScale then 1 else 0) * (OcLogicalOffset(k, n) + v * k.simdW)
  }

  /** Byte offset of the int32 compensation of N block n. */
  function CompOffset(k: Kernel, n: nat): (r: nat)
    ensures r % SizeofInt32 == 0
  {
    WholeElements(SizeofInt32, OcLogicalOffset(k, n));
    SizeofInt32 * OcLogicalOffset(k, n)
  }

  /** Every offset of the first vector of the first block is 0. */
  lemma OffsetsStartAtZero(k: Kernel)
    ensures AOffset(k, 0, 0) == 0 && BOffset(k, 0) == 0 && COffset(k, 0, 0, 0) == 0 && DOffset(k, 0, 0, 0) == 0
    ensures BiasOffset(k, 0, 0) == 0 && ScalesOffset(k, 0, 0) == 0 && CompOffset(k, 0) == 0
  {
  }

  /** One row down moves A, C and D by one leading dimension of their elements. */
  lemma RowStep(k: Kernel, m: nat, n: nat, v: nat)
    ensures AOffset(k, m + 1, n) == AOffset(k, m, n) + k.brg.typesizeA * k.brg.lda
    ensures COffset(k, m + 1, n, v) == COffset(k, m, n, v) + k.brg.typesizeC * k.brg.ldc
    ensures DOffset(k, m + 1, n, v) == DOffset(k, m, n, v) + k.brg.typesizeD * k.brg.ldd
  {
    var c := OcLogicalOffset(k, n);
    MulSucc(m, k.brg.lda);
    MulAdd(k.brg.typesizeA, RowMajor(k.brg.lda, m, c), k.brg.lda);
    MulSucc(m, k.brg.ldc);
    MulAdd(k.brg.typesizeC, RowMajor(k.brg.ldc, m, c + v * k.simdW), k.brg.ldc);
    MulSucc(m, k.brg.ldd);
    MulAdd(k.brg.typesizeD, RowMajor(k.brg.ldd, m, c + v * k.simdW), k.brg.ldd);
  }

  /** The next N block moves every offset by n_block1 elements. */
  lemma BlockStep(k: Kernel, m: nat, n: nat, v: nat)
    ensures AOffset(k, m, n + 1) == AOffset(k, m, n) + k.brg.typesizeA * NBlock1(k)
    ensures BOffset(k, n + 1) == BOffset(k, n) + k.brg.typesizeB * NBlock1(k)
    ensures COffset(k, m, n + 1, v) == COffset(k, m, n, v) + k.brg.typesizeC * NBlock1(k)
    ensures DOffset(k, m, n + 1, v) == DOffset(k, m, n, v) + k.brg.typesizeD * NBlock1(k)
    ensures BiasOffset(k, n + 1, v) == BiasOffset(k, n, v) + k.brg.typesizeBias * NBlock1(k)
    ensures CompOffset(k, n + 1) == CompOffset(k, n) + SizeofInt32 * NBlock1(k)
    ensures k.brg.isOcScale ==> ScalesOffset(k, n + 1, v) == ScalesOffset(k, n, v) + SizeofFloat * NBlock1(k)
  {
    var b, c, x := NBlock1(k), OcLogicalOffset(k, n), v * k.simdW;
    MulSucc(n, b);
    assert OcLogicalOffset(k, n + 1) == c + b;
    MulAdd(k.brg.typesizeA, RowMajor(k.brg.lda, m, c), b);
    MulAdd(k.brg.typesizeB, c, b);
    assert RowMajor(k.brg.ldc, m, c + b + x) == RowMajor(k.brg.ldc, m, c + x) + b;
    MulAdd(k.brg.typesizeC, RowMajor(k.brg.ldc, m, c + x), b);
    assert RowMajor(k.brg.ldd, m, c + b + x) == RowMajor(k.brg.ldd, m, c + x) + b;
    MulAdd(k.brg.typesizeD, RowMajor(k.brg.ldd, m, c + x), b);
    MulAdd(k.brg.typesizeBias, c + x, b);
    MulAdd(SizeofInt32, c, b);
    MulAdd(SizeofFloat * 1, c + x, b);
  }

  /** The next vector of a block moves C, D, bias and per-channel scales by
      simd_w elements. */
  lemma VectorStep(k: Kernel, m: nat, n: nat, v: nat)
    ensures COffset(k, m, n, v + 1) == COffset(k, m, n, v) + k.brg.typesizeC * k.simdW
    ensures DOffset(k, m, n, v + 1) == DOffset(k, m, n, v) + k.brg.typesizeD * k.simdW
    ensures BiasOffset(k, n, v + 1) == BiasOffset(k, n, v) + k.brg.typesizeBias * k.simdW
    ensures k.brg.isOcScale ==> ScalesOffset(k, n, v + 1) == ScalesOffset(k, n, v) + SizeofFloat * k.simdW
  {
    var w, c := k.simdW, OcLogicalOffset(k, n);
    MulSucc(v, w);
    assert RowMajor(k.brg.ldc, m, c + (v + 1) * w) == RowMajor(k.brg.ldc, m, c + v * w) + w;
    MulAdd(k.brg.typesizeC, RowMajor(k.brg.ldc, m, c + v * w), w);
    assert RowMajor(k.brg.ldd, m, c + (v + 1) * w) == RowMajor(k.brg.ldd, m, c + v * w) + w;
    MulAdd(k.brg.typesizeD, RowMajor(k.brg.ldd, m, c + v * w), w);
    MulAdd(k.brg.typesizeBias, c + v * w, w);
    MulAdd(SizeofFloat * 1, c + v * w, w);
  }

  /** Vector (m, n, v) of an output tile: v counts simd-wide vectors inside
      N block n, and the vector ends inside both the block and the row. */
  predicate VectorInRow(ld: nat, nBlock1: nat, simdW: nat, n: nat, v: nat) {
    (v + 1) * simdW <= nBlock1 && n * nBlock1 + (v + 1) * simdW <= ld
  }

  /** The element ranges of two distinct vectors of a row-major matrix never
      overlap. */
  lemma RowMajorVectorsDisjoint(ld: nat, nBlock1: nat, simdW: nat,
                                m1: nat, n1: nat, v1: nat, m2: nat, n2: nat, v2: nat)
    requires simdW > 0
    requires VectorInRow(ld, nBlock1, simdW, n1, v1) && VectorInRow(ld, nBlock1, simdW, n2, v2)
    requires m1 != m2 || n1 != n2 || v1 != v2
    ensures var e1 := m1 * ld + (n1 * nBlock1 + v1 * simdW);
            var e2 := m2 * ld + (n2 * nBlock1 + v2 * simdW);
            e1 + simdW <= e2 || e2 + simdW <= e1
  {
    if m1 < m2 || (m1 == m2 && n1 < n2) || (m1 == m2 && n1 == n2 && v1 < v2) {
      VectorsOrdered(ld, nBlock1, simdW, m1, n1, v1, m2, n2, v2);
    } else {
      VectorsOrdered(ld, nBlock1, simdW, m2, n2, v2, m1, n1, v1);
    }
  }

  /** The lexicographic order of (m, n, v) is the order of the vectors in memory. */
  lemma VectorsOrdered(ld: nat, nBlock1: nat, simdW: nat,
                       m1: nat, n1: nat, v1: nat, m2: nat, n2: nat, v2: nat)
    requires simdW > 0
    requires VectorInRow(ld, nBlock1, simdW, n1, v1) && VectorInRow(ld, nBlock1, simdW, n2, v2)
    requires m1 < m2 || (m1 == m2 && n1 < n2) || (m1 == m2 && n1 == n2 && v1 < v2)
    ensures m1 * ld + (n1 * nBlock1 + v1 * simdW) + simdW <= m2 * ld + (n2 * nBlock1 + v2 * simdW)
  {
    VectorEnds(nBlock1, n1, v1, simdW);
    if m1 < m2 {
      StepOrdered(ld, m1, m2, n1 * nBlock1 + v1 * simdW, n2 * nBlock1 + v2 * simdW, simdW);
    } else if n1 < n2 {
      MulSucc(v1, simdW);
      StepOrdered(nBlock1, n1, n2, v1 * simdW, v2 * simdW, simdW);
    } else {
      MulSucc(v1, simdW);
      MulLe(v1 + 1, v2, simdW);
    }
  }

  lemma VectorEnds(nBlock1: nat, n: nat, v: nat, w: nat)
    ensures n * nBlock1 + v * w + w == n * nBlock1 + (v + 1) * w
  {
    MulSucc(v, w);
  }

  /** A run of width w that ends inside its stride-ld step ends before any
      later step starts. */
  lemma StepOrdered(ld: nat, i1: nat, i2: nat, c1: nat, c2: nat, w: nat)
    requires i1 < i2 && c1 + w <= ld
    ensures i1 * ld + c1 + w <= i2 * ld + c2
  {
    MulSucc(i1, ld);
    MulLe(i1 + 1, i2, ld);
  }

  /** Scaling element ranges that do not overlap by a type size keeps them apart. */
  lemma ScaledApart(e1: nat, e2: nat, w: nat, ts: nat)
    requires e1 + w <= e2
    ensures ts * e1 + ts * w <= ts * e2
  {
    MulLe(e1 + w, e2, ts);
    assert ts * (e1 + w) == ts * e1 + ts * w;
  }

  /** Stores of distinct accumulator vectors of a tile go to disjoint byte
      ranges of C. */
  lemma COffsetsDisjoint(k: Kernel, m1: nat, n1: nat, v1: nat, m2: nat, n2: nat, v2: nat)
    requires VectorInRow(k.brg.ldc, NBlock1(k), k.simdW, n1, v1)
    requires VectorInRow(k.brg.ldc, NBlock1(k), k.simdW, n2, v2)
    requires m1 != m2 || n1 != n2 || v1 != v2
    ensures var ts := k.brg.typesizeC;
            COffset(k, m1, n1, v1) + ts * k.simdW <= COffset(k, m2, n2, v2)
            || COffset(k, m2, n2, v2) + ts * k.simdW <= COffset(k, m1, n1, v1)
  {
    var ts, w := k.brg.typesizeC, k.simdW;
    var e1 := m1 * k.brg.ldc + (n1 * NBlock1(k) + v1 * w);
    var e2 := m2 * k.brg.ldc + (n2 * NBlock1(k) + v2 * w);
    RowMajorVectorsDisjoint(k.brg.ldc, NBlock1(k), w, m1, n1, v1, m2, n2, v2);
    assert COffset(k, m1, n1, v1) == ts * e1;
    assert COffset(k, m2, n2, v2) == ts * e2;
    if e1 + w <= e2 {
      ScaledApart(e1, e2, w, ts);
    } else {
      ScaledApart(e2, e1, w, ts);
    }
  }

  /** Stores of distinct vectors of a tile go to disjoint byte ranges of D. */
  lemma DOffsetsDisjoint(k: Kernel, m1: nat, n1: nat, v1: nat, m2: nat, n2: nat, v2: nat)
    requires VectorInRow(k.brg.ldd, NBlock1(k), k.simdW, n1, v1)
    requires VectorInRow(k.brg.ldd, NBlock1(k), k.simdW, n2, v2)
    requires m1 != m2 || n1 != n2 || v1 != v2
    ensures var ts := k.brg.typesizeD;
            DOffset(k, m1, n1, v1) + ts * k.simdW <= DOffset(k, m2, n2, v2)
            || DOffset(k, m2, n2, v2) + ts * k.simdW <= DOffset(k, m1, n1, v1)
  {
    var ts, w := k.brg.typesizeD, k.simdW;
    var e1 := m1 * k.brg.ldd + (n1 * NBlock1(k) + v1 * w);
    var e2 := m2 * k.brg.ldd + (n2 * NBlock1(k) + v2 * w);
    RowMajorVectorsDisjoint(k.brg.ldd, NBlock1(k), w, m1, n1, v1, m2, n2, v2);
    assert DOffset(k, m1, n1, v1) == ts * e1;
    assert DOffset(k, m2, n2, v2) == ts * e2;
    if e1 + w <= e2 {
      ScaledApart(e1, e2, w, ts);
    } else {
      ScaledApart(e2, e1, w, ts);
    }
  }

  // ---------------------------------------------------------------------------
  // Stack frame

  const RegBatch0AddrOffs: nat := 0
  const RegBiasOffs: nat := 8
  const RegScalesOffs: nat := 16
  const RegAOffs: nat := 24
  const RegBOffs: nat := 32
  const AbiParam1Offs: nat := 40
  const RegDstScalesOffs: nat := 48
  const RegS8s8CompOffs: nat := 56
  const DstZpValue: nat := 64
  const SrcZpValue: nat := 72
  const ZpCompensation: nat := 80
  const StackSpaceNeeded: nat := 88

  /** The spill slots of the kernel's stack frame: distinct, 8-byte aligned,
      each an 8-byte slot inside the reserved stack space. */
  function StackSlots(): (s: seq<nat>)
    ensures |s| == 11
    ensures forall i :: 0 <= i < |s| ==> s[i] % 8 == 0 && s[i] + 8 <= StackSpaceNeeded
    ensures forall i, j :: 0 <= i < j < |s| ==> s[i] + 8 <= s[j]
  {
    [RegBatch0AddrOffs, RegBiasOffs, RegScalesOffs, RegAOffs, RegBOffs, AbiParam1Offs,
     RegDstScalesOffs, RegS8s8CompOffs, DstZpValue, SrcZpValue, ZpCompensation]
  }

  // ---------------------------------------------------------------------------
  // Arithmetic helpers

  /** i * b * s + j * s + v stays below a * b * s for coordinates in range. */
  lemma RowMajorBound(i: nat, j: nat, v: nat, a: nat, b: nat, s: nat)
    requires i < a && j < b && v < s
    ensures i * b * s + j * s + v < a * b * s
  {
    MulSucc(i, b);
    MulLe(i + 1, a, b);
    MulSucc(i * b + j, s);
    MulLe(i * b + j + 1, a * b, s);
    assert (i * b + j) * s == i * b * s + j * s;
  }
}
