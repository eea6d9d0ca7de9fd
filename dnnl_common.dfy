/** Shape and axis helpers of the DNNL graph backend: default format tags,
    dilation normalisation, group split and merge of a dims vector, leading-one
    expansion, the axis permutations handed to `permute_axes`, and the layout
    rule used when a shape is propagated from one logical tensor to another. */
module DnnlCommon {
  import opened GraphTypes
  import opened Arith

  type Dims = seq<int>

  // ---------------------------------------------------------------------------
  // Default format

  /** The plain format tags, one per rank from 1 to 6. */
  datatype FormatTag = Undef | A | Ab | Abc | Abcd | Abcde | Abcdef

  /** Dimension letters of a plain tag, outermost first. */
  function Letters(t: FormatTag): string {
    match t
    case Undef => ""
    case A => "a"
    case Ab => "ab"
    case Abc => "abc"
    case Abcd => "abcd"
    case Abcde => "abcde"
    case Abcdef => "abcdef"
  }

  /** The plain (row-major) tag of a rank: `a`, `ab`, ... up to rank 6. */
  function GetDefaultFormat(ndim: nat): (t: FormatTag)
    ensures t == Undef <==> !(1 <= ndim <= 6)
    ensures t != Undef ==> Letters(t) == "abcdef"[..ndim]
  {
    match ndim
    case 1 => A
    case 2 => Ab
    case 3 => Abc
    case 4 => Abcd
    case 5 => Abcde
    case 6 => Abcdef
    case _ => Undef
  }

  /** The plain tag of a dims vector: one letter per dimension. */
  function GetDefaultFormatOfDims(adims: Dims): (t: FormatTag)
    ensures t != Undef <==> 1 <= |adims| <= 6
    ensures t != Undef ==> |Letters(t)| == |adims|
  {
    GetDefaultFormat(|adims|)
  }

  // ---------------------------------------------------------------------------
  // Dilations

  /** The graph API counts dilation from 1 (no dilation); the primitives count
      from 0. A list that is empty or holds a non-positive entry becomes
      `input_size - 2` zeros (one per spatial dimension). */
  function GetCompatibleDilates(dilates: Dims, inputSize: nat): (r: Dims)
    requires !AllPositive(dilates) ==> inputSize >= 2
    ensures AllPositive(dilates) ==> |r| == |dilates| && forall i | 0 <= i < |r| :: r[i] + 1 == dilates[i]
    ensures !AllPositive(dilates) ==> |r| == inputSize - 2 && forall i | 0 <= i < |r| :: r[i] == 0
    ensures forall i | 0 <= i < |r| :: r[i] >= 0
  {
    if AllPositive(dilates) then seq(|dilates|, i requires 0 <= i < |dilates| => dilates[i] - 1)
    else seq(inputSize - 2, _ => 0)
  }

  predicate AllPositive(d: Dims) {
    |d| > 0 && forall i | 0 <= i < |d| :: d[i] > 0
  }

  // ---------------------------------------------------------------------------
  // Groups

  /** Integer division rounding toward zero, as the 64-bit `/` on dims does:
      the magnitude is the quotient of the magnitudes, the sign the product of
      the signs. */
  function TruncDiv(a: int, b: int): (q: int)
    requires b != 0
    ensures Abs(q) == Abs(a) / Abs(b)
    ensures q == 0 || ((q > 0) <==> ((a > 0) == (b > 0)))
    ensures a % b == 0 ==> q * b == a
  {
    var x: int := Abs(a);
    var y: int := Abs(b);
    DivNonNeg(x, y);
    QuotientPositive(Abs(a), Abs(b));
    ExactTruncDiv(a, b);
    if (a < 0) == (b < 0) then x / y else -(x / y)
  }

  lemma QuotientPositive(a: nat, b: nat)
    requires b > 0
    ensures a / b > 0 ==> a >= b
  {
    DivMod(a, b);
    if a / b > 0 {
      MulLe(1, a / b, b);
    }
  }

  /** When b divides a exactly, rounding toward zero loses nothing. */
  lemma ExactTruncDiv(a: int, b: int)
    requires b != 0
    ensures var q0: int := Abs(a) / Abs(b);
            a % b == 0 ==> (if (a < 0) == (b < 0) then q0 else -q0) * b == a
  {
    if a % b == 0 {
      var k := a / b;
      assert a == k * b + a % b;
      MulAbs(k, b);
      DivOfMultiple(Abs(k), Abs(b));
      SignOfProduct(k, b);
    }
  }

  /** The sign of k decides the sign of the rounded quotient of k * b by b. */
  lemma SignOfProduct(k: int, b: int)
    requires b != 0
    ensures var m: int := Abs(k);
            (if (k * b < 0) == (b < 0) then m else -m) * b == k * b
  {
    if k > 0 && b > 0 {
      MulPos(k, b);
    } else if k > 0 {
      MulPos(k, -b);
      assert k * b == -(k * (-b));
    } else if k < 0 && b > 0 {
      MulPos(-k, b);
      assert k * b == -((-k) * b);
    } else if k < 0 {
      MulPos(-k, -b);
      assert k * b == (-k) * (-b);
    }
  }

  lemma MulPos(x: int, y: int)
    requires x > 0 && y > 0
    ensures x * y > 0
  {
    MulLe(1, x, y);
  }

  /** `group_dims`: split the output-channel dimension into `groups` groups,
      giving `[groups, dims[0] / groups, dims[1], ...]`. */
  function GroupDims(adims: Dims, groups: int): (r: Dims)
    requires |adims| >= 1 && groups != 0
    ensures |r| == |adims| + 1 && r[0] == groups && r[2..] == adims[1..]
    ensures adims[0] % groups == 0 ==> r[1] * groups == adims[0]
    ensures r[1] == TruncDiv(adims[0], groups)
  {
    [groups] + [TruncDiv(adims[0], groups)] + adims[1..]
  }

  /** The dims step of `from_grouped`: fold the leading groups value back into
      the first remaining dimension. */
  function FromGroupedDims(adims: Dims): (r: Dims)
    requires |adims| >= 2
    ensures |r| == |adims| - 1 && r[0] == adims[1] * adims[0] && r[1..] == adims[2..]
  {
    [adims[1] * adims[0]] + adims[2..]
  }

  /** Merging after splitting gives back the dims, when the groups divide the
      first dimension. */
  lemma FromGroupedUndoesGroup(adims: Dims, groups: int)
    requires |adims| >= 1 && groups != 0 && adims[0] % groups == 0
    ensures FromGroupedDims(GroupDims(adims, groups)) == adims
  {
    var g := GroupDims(adims, groups);
    assert g[1] * g[0] == adims[0];
    assert FromGroupedDims(g)[1..] == adims[1..];
  }

  /** Splitting a merged shape by its own group count gives it back. */
  lemma GroupUndoesFromGrouped(adims: Dims)
    requires |adims| >= 2 && adims[0] != 0
    ensures GroupDims(FromGroupedDims(adims), adims[0]) == adims
  {
    var f := FromGroupedDims(adims);
    var g := adims[0];
    DivOfMultiple(adims[1], g);
    var q := TruncDiv(f[0], g);
    assert q * g == adims[1] * g;
    MulCancel(q, adims[1], g);
    assert GroupDims(f, g)[2..] == adims[2..];
  }

  lemma MulCancel(a: int, b: int, g: int)
    requires g != 0 && a * g == b * g
    ensures a == b
  {
    assert (a - b) * g == 0;
  }

  /** Number of elements of a shape. */
  function Product(d: Dims): int {
    if |d| == 0 then 1 else d[0] * Product(d[1..])
  }

  /** Splitting into groups keeps the element count, so the reshape of
      `to_grouped` is well defined. */
  lemma GroupDimsKeepsVolume(adims: Dims, groups: int)
    requires |adims| >= 1 && groups != 0 && adims[0] % groups == 0
    ensures Product(GroupDims(adims, groups)) == Product(adims)
  {
    var g := GroupDims(adims, groups);
    var rest := Product(adims[1..]);
    assert g[2..] == adims[1..];
    assert Product(g[1..]) == g[1] * rest;
    calc {
      Product(g);
      groups * (g[1] * rest);
      { MulAssoc(groups, g[1], rest); }
      (groups * g[1]) * rest;
      adims[0] * rest;
    }
  }

  /** Merging groups keeps the element count. */
  lemma FromGroupedKeepsVolume(adims: Dims)
    requires |adims| >= 2
    ensures Product(FromGroupedDims(adims)) == Product(adims)
  {
    var f := FromGroupedDims(adims);
    var rest := Product(adims[2..]);
    assert f[1..] == adims[2..];
    assert Product(adims[1..]) == adims[1] * rest;
    calc {
      Product(f);
      (adims[1] * adims[0]) * rest;
      { MulAssoc(adims[0], adims[1], rest); }
      adims[0] * (adims[1] * rest);
    }
  }

  lemma MulAssoc(a: int, b: int, c: int)
    ensures a * (b * c) == (a * b) * c && a * b == b * a
  {
  }

  // ---------------------------------------------------------------------------
  // Expansion

  /** The dims step of `expand`: prepend ones up to `tgt_ndims` dimensions. */
  function Expand(adims: Dims, tgtNdims: int): (r: Dims)
    requires tgtNdims >= |adims|
    ensures |r| == tgtNdims
    ensures forall i | 0 <= i < tgtNdims - |adims| :: r[i] == 1
    ensures r[tgtNdims - |adims|..] == adims
  {
    seq(tgtNdims - |adims|, _ => 1) + adims
  }

  /** Leading ones do not change the element count, so the reshape of
      `expand` is well defined. */
  lemma {:induction false} ExpandKeepsVolume(adims: Dims, tgtNdims: int)
    requires tgtNdims >= |adims|
    ensures Product(Expand(adims, tgtNdims)) == Product(adims)
    decreases tgtNdims - |adims|
  {
    if tgtNdims > |adims| {
      var e := Expand(adims, tgtNdims);
      assert e[1..] == Expand(adims, tgtNdims - 1);
      ExpandKeepsVolume(adims, tgtNdims - 1);
    } else {
      assert Expand(adims, tgtNdims) == adims;
    }
  }

  /** Expanding in two steps is expanding once. */
  lemma ExpandTwice(adims: Dims, t1: int, t2: int)
    requires |adims| <= t1 <= t2
    ensures Expand(Expand(adims, t1), t2) == Expand(adims, t2)
  {
    var l := Expand(Expand(adims, t1), t2);
    var r := Expand(adims, t2);
    forall i | 0 <= i < t2
      ensures l[i] == r[i]
    {
      if i >= t2 - |adims| {
        assert l[i] == Expand(adims, t1)[i - (t2 - t1)];
      }
    }
  }

  // ---------------------------------------------------------------------------
  // Axis permutations
  //
  // `permute_axes(perm)` moves logical dimension i to position perm[i]: the
  // result's dims satisfy new[perm[i]] == old[i].

  /** `perm` lists every axis of 0..n-1 exactly once. */
  predicate IsPermutation(perm: seq<int>, n: nat) {
    |perm| == n
    && (forall i | 0 <= i < n :: 0 <= perm[i] < n)
    && (forall i, j | 0 <= i < j < n :: perm[i] != perm[j])
  }

  /** `e` is `d` with dimension i moved to position perm[i]. */
  predicate PermutedBy(d: Dims, perm: seq<int>, e: Dims) {
    |perm| == |d| == |e|
    && forall i | 0 <= i < |d| :: 0 <= perm[i] < |e| && e[perm[i]] == d[i]
  }

  /** `q` undoes `p` on the axes 0..n-1. */
  predicate Undoes(q: seq<int>, p: seq<int>, n: nat) {
    |p| == |q| == n
    && forall i | 0 <= i < n :: 0 <= p[i] < n && q[p[i]] == i
  }

  /** An axes vector with a left inverse is a permutation. */
  lemma UndoneIsPermutation(q: seq<int>, p: seq<int>, n: nat)
    requires Undoes(q, p, n)
    ensures IsPermutation(p, n)
  {
    forall i, j | 0 <= i < j < n
      ensures p[i] != p[j]
    {
      assert q[p[i]] == i && q[p[j]] == j;
    }
  }

  /** Permuting by p and then by an inverse q of p gives the dims back. */
  lemma {:induction false} InversePermutationsCancel(d: Dims, p: seq<int>, q: seq<int>, e: Dims, f: Dims)
    requires Undoes(q, p, |d|)
    requires PermutedBy(d, p, e) && PermutedBy(e, q, f)
    ensures f == d
  {
    forall i | 0 <= i < |d|
      ensures f[i] == d[i]
    {
      assert f[q[p[i]]] == e[p[i]];
    }
  }

  /** 0, 1, ..., n-1. */
  function Identity(n: nat): seq<int> {
    seq(n, i => i)
  }

  /** Axes 0..n-1 with positions d0 and d1 exchanged. */
  function Swapped(n: nat, d0: nat, d1: nat): seq<int> {
    seq(n, i => if i == d1 then d0 else if i == d0 then d1 else i)
  }

  /** NXC to NCX: batch stays first, channels go last-to-second. */
  function NxcToNcx(n: nat): seq<int> {
    seq(n, i => if i == 0 then 0 else if i == n - 1 then 1 else i + 1)
  }

  /** NCX to NXC: batch stays first, channels go second-to-last. */
  function NcxToNxc(n: nat): seq<int> {
    seq(n, i => if i == 0 then 0 else if i == 1 then n - 1 else i - 1)
  }

  /** XIO to OIX: the spatial axes move behind O and I. */
  function XioToOix(n: nat): seq<int>
    requires n >= 2
  {
    seq(n, i => if i < n - 2 then i + 2 else if i == n - 2 then 1 else 0)
  }

  /** OIX to XIO: O and I move behind the spatial axes. */
  function OixToXio(n: nat): seq<int>
    requires n >= 2
  {
    seq(n, i => if i == 0 then n - 1 else if i == 1 then n - 2 else i - 2)
  }

  /** `std::generate` with a running counter: the axes 0..n-1. */
  method Iota(n: nat) returns (axes: seq<int>)
    ensures |axes| == n && forall i | 0 <= i < n :: axes[i] == i
  {
    axes := [];
    var count := 0;
    while count < n
      invariant count <= n && |axes| == count
      invariant forall i | 0 <= i < count :: axes[i] == i
    {
      axes := axes + [count];
      count := count + 1;
    }
  }

  /** Axes of `permute_last_two_dims`: swap the right-most two. */
  method PermuteLastTwoDimsAxes(ndims: nat) returns (axes: seq<int>)
    requires ndims > 1
    ensures axes == Swapped(ndims, ndims - 2, ndims - 1)
    ensures IsPermutation(axes, ndims)
  {
    axes := Iota(ndims);
    var lastDim := ndims - 1;
    axes := axes[lastDim := axes[lastDim - 1]][lastDim - 1 := axes[lastDim]];
    SwappedSelfInverse(ndims, ndims - 2, ndims - 1);
  }

  /** Axes of `permute_NXC2NCX`: push axis 1 to the back, then erase it. */
  method PermuteNxcToNcxAxes(ndims: nat) returns (axes: seq<int>)
    requires ndims > 2
    ensures axes == NxcToNcx(ndims)
    ensures IsPermutation(axes, ndims)
  {
    axes := Iota(ndims);
    axes := axes + [axes[1]];
    axes := axes[..1] + axes[2..];
    NcxNxcInverse(ndims);
  }

  /** Axes of `permute_NCX2NXC`: insert the last axis at 1, then pop it. */
  method PermuteNcxToNxcAxes(ndims: nat) returns (axes: seq<int>)
    requires ndims > 2
    ensures axes == NcxToNxc(ndims)
    ensures IsPermutation(axes, ndims)
  {
    axes := Iota(ndims);
    axes := axes[..1] + [axes[|axes| - 1]] + axes[1..];
    axes := axes[..|axes| - 1];
    NcxNxcInverse(ndims);
  }

  /** Axes of `permute_XIO2OIX`: push axes 1 and 0, then erase the first two. */
  method PermuteXioToOixAxes(ndims: nat) returns (axes: seq<int>)
    requires ndims > 2
    ensures axes == XioToOix(ndims)
    ensures IsPermutation(axes, ndims)
  {
    axes := Iota(ndims);
    axes := axes + [axes[1]];
    axes := axes + [axes[0]];
    axes := axes[1..];
    axes := axes[1..];
    XioOixInverse(ndims);
  }

  /** Axes of `permute_OIX2XIO`: insert the second-to-last and then the (new)
      last axis at the front, then pop two. Indexing the second-to-last axis
      needs two axes. */
  method PermuteOixToXioAxes(ndims: nat) returns (axes: seq<int>)
    requires ndims >= 2
    ensures axes == OixToXio(ndims)
    ensures IsPermutation(axes, ndims)
  {
    axes := Iota(ndims);
    axes := [axes[|axes| - 2]] + axes;
    axes := [axes[|axes| - 1]] + axes;
    axes := axes[..|axes| - 1];
    axes := axes[..|axes| - 1];
    XioOixInverse(ndims);
  }

  /** Axes of `transpose(dim0, dim1)`: the identity with dim0 and dim1
      exchanged. */
  method TransposeAxes(ndims: nat, dim0: nat, dim1: nat) returns (axes: seq<int>)
    requires dim0 < ndims && dim1 < ndims
    ensures axes == Swapped(ndims, dim0, dim1)
    ensures IsPermutation(axes, ndims)
  {
    axes := Iota(ndims);
    axes := axes[dim0 := dim1];
    axes := axes[dim1 := dim0];
    SwappedSelfInverse(ndims, dim0, dim1);
  }

  /** A swap undoes itself, so it is a permutation and transposing twice is
      the identity. */
  lemma SwappedSelfInverse(n: nat, d0: nat, d1: nat)
    requires d0 < n && d1 < n
    ensures Undoes(Swapped(n, d0, d1), Swapped(n, d0, d1), n)
    ensures IsPermutation(Swapped(n, d0, d1), n)
  {
    UndoneIsPermutation(Swapped(n, d0, d1), Swapped(n, d0, d1), n);
  }

  /** NXC2NCX and NCX2NXC undo each other, in both orders. */
  lemma NcxNxcInverse(n: nat)
    requires n > 2
    ensures Undoes(NcxToNxc(n), NxcToNcx(n), n) && Undoes(NxcToNcx(n), NcxToNxc(n), n)
    ensures IsPermutation(NxcToNcx(n), n) && IsPermutation(NcxToNxc(n), n)
  {
    UndoneIsPermutation(NcxToNxc(n), NxcToNcx(n), n);
    UndoneIsPermutation(NxcToNcx(n), NcxToNxc(n), n);
  }

  /** XIO2OIX and OIX2XIO undo each other, in both orders. */
  lemma XioOixInverse(n: nat)
    requires n >= 2
    ensures Undoes(OixToXio(n), XioToOix(n), n) && Undoes(XioToOix(n), OixToXio(n), n)
    ensures IsPermutation(XioToOix(n), n) && IsPermutation(OixToXio(n), n)
  {
    UndoneIsPermutation(OixToXio(n), XioToOix(n), n);
    UndoneIsPermutation(XioToOix(n), OixToXio(n), n);
  }

  /** The documented 4-D permutations. */
  lemma FourDimInstances()
    ensures NxcToNcx(4) == [0, 2, 3, 1]
    ensures NcxToNxc(4) == [0, 3, 1, 2]
    ensures XioToOix(4) == [2, 3, 1, 0]
    ensures OixToXio(4) == [3, 2, 0, 1]
  {
  }

  /** NHWC dims permuted by NXC2NCX are the NCHW dims, and HWIO dims permuted
      by XIO2OIX are the OIHW dims. */
  lemma FourDimDims(n: int, c: int, h: int, w: int, o: int, i: int)
    ensures PermutedBy([n, h, w, c], NxcToNcx(4), [n, c, h, w])
    ensures PermutedBy([h, w, i, o], XioToOix(4), [o, i, h, w])
  {
    FourDimInstances();
  }

  /** Converting a shape NXC -> NCX -> NXC, or XIO -> OIX -> XIO, gives it
      back. */
  lemma LayoutRoundTrips(d: Dims, e: Dims, f: Dims)
    requires |d| > 2
    ensures PermutedBy(d, NxcToNcx(|d|), e) && PermutedBy(e, NcxToNxc(|d|), f) ==> f == d
    ensures PermutedBy(d, XioToOix(|d|), e) && PermutedBy(e, OixToXio(|d|), f) ==> f == d
    ensures forall d0: nat, d1: nat | d0 < |d| && d1 < |d| ::
              PermutedBy(d, Swapped(|d|, d0, d1), e) && PermutedBy(e, Swapped(|d|, d0, d1), f) ==> f == d
  {
    NcxNxcInverse(|d|);
    XioOixInverse(|d|);
    if PermutedBy(d, NxcToNcx(|d|), e) && PermutedBy(e, NcxToNxc(|d|), f) {
      InversePermutationsCancel(d, NxcToNcx(|d|), NcxToNxc(|d|), e, f);
    }
    if PermutedBy(d, XioToOix(|d|), e) && PermutedBy(e, OixToXio(|d|), f) {
      InversePermutationsCancel(d, XioToOix(|d|), OixToXio(|d|), e, f);
    }
    forall d0: nat, d1: nat | d0 < |d| && d1 < |d| &&
        PermutedBy(d, Swapped(|d|, d0, d1), e) && PermutedBy(e, Swapped(|d|, d0, d1), f)
      ensures f == d
    {
      SwappedSelfInverse(|d|, d0, d1);
      InversePermutationsCancel(d, Swapped(|d|, d0, d1), Swapped(|d|, d0, d1), e, f);
    }
  }

  // ---------------------------------------------------------------------------
  // Shape and layout propagation

  datatype SetResult = SetResult(dst: LogicalTensor, status: Status)

  /** `set_shape_and_layout`: copy src's dims into dst (always, even when the
      call then fails); when dst's layout is `any`, adopt src's layout unless
      src is strided, which is an invalid argument. */
  function SetShapeAndLayout(dst: LogicalTensor, src: LogicalTensor): (r: SetResult)
    ensures r.dst.dims == src.dims && r.dst.id == dst.id && r.dst.dataType == dst.dataType
    ensures r.status != InvalidGraph
    ensures r.status == InvalidArgument <==> dst.layoutType == AnyLayout && src.layoutType == Strided
    ensures dst.layoutType == AnyLayout && r.status == Success ==>
              r.dst.layoutType == src.layoutType && r.dst.layoutId == src.layoutId
    ensures dst.layoutType != AnyLayout || r.status == InvalidArgument ==>
              r.dst.layoutType == dst.layoutType && r.dst.layoutId == dst.layoutId
  {
    var shaped := dst.(dims := src.dims);
    if dst.layoutType == AnyLayout then
      if src.layoutType == Strided then SetResult(shaped, InvalidArgument)
      else SetResult(shaped.(layoutType := src.layoutType, layoutId := src.layoutId), Success)
    else SetResult(shaped, Success)
  }

  /** Propagating the same source twice changes nothing the second time. */
  lemma SetShapeAndLayoutIdempotent(dst: LogicalTensor, src: LogicalTensor)
    ensures var r := SetShapeAndLayout(dst, src);
            SetShapeAndLayout(r.dst, src) == r
  {
  }
}
