/**
 * The part of numpy the bridge relies on: type numbers, the normalisation
 * of an array's element type before it is copied into R, and the
 * row-major / column-major layouts of an n-dimensional array.
 */
module Numpy {
  import opened Wrappers

  // Type numbers of numpy's NPY_TYPES enumeration.
  const NPY_BOOL: int := 0
  const NPY_BYTE: int := 1
  const NPY_UBYTE: int := 2
  const NPY_SHORT: int := 3
  const NPY_USHORT: int := 4
  const NPY_INT: int := 5
  const NPY_UINT: int := 6
  const NPY_LONG: int := 7
  const NPY_ULONG: int := 8
  const NPY_LONGLONG: int := 9
  const NPY_ULONGLONG: int := 10
  const NPY_FLOAT: int := 11
  const NPY_DOUBLE: int := 12
  const NPY_LONGDOUBLE: int := 13

  /** A C double, kept opaque: the model does no floating-point arithmetic. */
  datatype Double = Double(bits: bv64)

  /**
   * The element type an array of type `typenum` is cast to before its data
   * is copied into R (booleans stay booleans, every signed or small unsigned
   * integer type widens to C long, float widens to double), or None for a
   * type the bridge refuses.
   */
  function NormalizeType(typenum: int): (r: Option<int>)
    ensures r.Some? ==> r.value == NPY_BOOL || r.value == NPY_LONG || r.value == NPY_DOUBLE
    ensures r.Some? ==> NPY_BOOL <= typenum <= NPY_DOUBLE
    ensures r == Some(NPY_BOOL) <==> typenum == NPY_BOOL
    ensures r == Some(NPY_LONG) <==> typenum in {NPY_BYTE, NPY_UBYTE, NPY_SHORT, NPY_USHORT, NPY_INT, NPY_LONG}
    ensures r == Some(NPY_DOUBLE) <==> typenum in {NPY_FLOAT, NPY_DOUBLE}
    ensures r.None? <==> typenum !in {NPY_BOOL, NPY_BYTE, NPY_UBYTE, NPY_SHORT, NPY_USHORT, NPY_INT, NPY_LONG, NPY_FLOAT, NPY_DOUBLE}
  {
    if typenum == NPY_BOOL then Some(NPY_BOOL)
    else if typenum == NPY_BYTE || typenum == NPY_UBYTE || typenum == NPY_SHORT
         || typenum == NPY_USHORT || typenum == NPY_INT || typenum == NPY_LONG then Some(NPY_LONG)
    else if typenum == NPY_FLOAT || typenum == NPY_DOUBLE then Some(NPY_DOUBLE)
    else None
  }

  /** An element of an array, as the value it denotes once cast to its normalised type. */
  datatype NpyElem = EBool(b: bool) | EInt(i: int) | EReal(d: Double) | EOther

  /** Whether element `e` can be an element of an array of type `typenum`. */
  predicate Fits(typenum: int, e: NpyElem) {
    match NormalizeType(typenum)
    case Some(t) =>
      && (t == NPY_BOOL ==> e.EBool?)
      && (t == NPY_LONG ==> e.EInt?)
      && (t == NPY_DOUBLE ==> e.EReal?)
    case None => true
  }

  /** The two contiguous layouts: row-major (C) and column-major (Fortran, R's own). */
  datatype Layout = COrder | FortranOrder

  /** Number of elements of an array with these dimensions (PyArray_SIZE). */
  function Prod(dims: seq<nat>): nat {
    if dims == [] then 1 else dims[0] * Prod(dims[1..])
  }

  /**
   * An array: type number, dimensions, layout, and its elements in the
   * order of that layout.
   */
  datatype RawArray = RawArray(typenum: int, dims: seq<nat>, layout: Layout, data: seq<NpyElem>) {
    predicate Consistent() {
      && |data| == Prod(dims)
      && forall i :: 0 <= i < |data| ==> Fits(typenum, data[i])
    }
  }

  /** numpy guarantees that an array's size is the product of its dimensions. */
  type NdArray = a: RawArray | a.Consistent() witness RawArray(NPY_BOOL, [0], COrder, [])

  predicate InBounds(dims: seq<nat>, idx: seq<nat>) {
    |idx| == |dims| && forall k :: 0 <= k < |dims| ==> idx[k] < dims[k]
  }

  /** Column-major offset of a multi-index: first index varies fastest. */
  function FOffset(dims: seq<nat>, idx: seq<nat>): nat
    requires InBounds(dims, idx)
  {
    if dims == [] then 0 else idx[0] + dims[0] * FOffset(dims[1..], idx[1..])
  }

  /** Row-major offset of a multi-index: last index varies fastest. */
  function COffset(dims: seq<nat>, idx: seq<nat>): nat
    requires InBounds(dims, idx)
  {
    if dims == [] then 0 else idx[0] * Prod(dims[1..]) + COffset(dims[1..], idx[1..])
  }

  lemma MulBelow(a: nat, x: nat, b: nat)
    requires x < a
    ensures x * b + b <= a * b
  {
    calc {
      x * b + b;
      (x + 1) * b;
    <= { assert x + 1 <= a; }
      a * b;
    }
  }

  lemma MulSign(d: int, k: int)
    requires d > 0
    ensures k > 0 ==> d * k >= d
    ensures k < 0 ==> d * k <= -d
  {
  }

  /** Dividing i + d * q by d gives back q with remainder i. */
  lemma DivModOf(i: nat, d: nat, q: nat)
    requires i < d
    ensures (i + d * q) / d == q && (i + d * q) % d == i
  {
    var n := i + d * q;
    var k, r := n / d, n % d;
    assert d * (k - q) == i - r by {
      assert n == d * k + r;
      assert d * (k - q) == d * k - d * q;
    }
    MulSign(d, k - q);
  }

  lemma DivBelow(p: nat, d: nat, rest: nat)
    requires p < d * rest
    ensures d > 0 && p / d < rest
  {
    MulSign(d, p / d - rest + 1);
    assert p == d * (p / d) + p % d;
  }

  lemma {:induction false} FOffsetBound(dims: seq<nat>, idx: seq<nat>)
    requires InBounds(dims, idx)
    ensures FOffset(dims, idx) < Prod(dims)
  {
    if dims != [] {
      FOffsetBound(dims[1..], idx[1..]);
      MulBelow(Prod(dims[1..]), FOffset(dims[1..], idx[1..]), dims[0]);
      assert dims[0] * FOffset(dims[1..], idx[1..]) + dims[0] <= dims[0] * Prod(dims[1..]);
    }
  }

  lemma {:induction false} COffsetBound(dims: seq<nat>, idx: seq<nat>)
    requires InBounds(dims, idx)
    ensures COffset(dims, idx) < Prod(dims)
  {
    if dims != [] {
      COffsetBound(dims[1..], idx[1..]);
      MulBelow(dims[0], idx[0], Prod(dims[1..]));
    }
  }

  /**
   * Row-major offset of the element found at column-major offset `p`: the
   * index permutation behind a cast to Fortran order.
   */
  function FToC(dims: seq<nat>, p: nat): (c: nat)
    requires p < Prod(dims)
    ensures c < Prod(dims)
  {
    if dims == [] then 0
    else
      var d, rest := dims[0], Prod(dims[1..]);
      DivBelow(p, d, rest);
      MulBelow(d, p % d, rest);
      (p % d) * rest + FToC(dims[1..], p / d)
  }

  /** The flat buffer of a Fortran-ordered cast copy of `a`, in R's storage order. */
  function ToFortran(a: NdArray): (buf: seq<NpyElem>)
    ensures |buf| == Prod(a.dims)
    ensures forall i :: 0 <= i < |buf| ==> Fits(a.typenum, buf[i])
  {
    if a.layout == FortranOrder then a.data
    else seq(|a.data|, p requires 0 <= p < |a.data| => a.data[FToC(a.dims, p)])
  }

  /** The element an array holds at a multi-index, whatever its layout. */
  function ElementAt(a: NdArray, idx: seq<nat>): NpyElem
    requires InBounds(a.dims, idx)
  {
    if a.layout == COrder then
      COffsetBound(a.dims, idx);
      a.data[COffset(a.dims, idx)]
    else
      FOffsetBound(a.dims, idx);
      a.data[FOffset(a.dims, idx)]
  }

  lemma {:induction false} FToCOfFOffset(dims: seq<nat>, idx: seq<nat>)
    requires InBounds(dims, idx)
    ensures FOffset(dims, idx) < Prod(dims)
    ensures FToC(dims, FOffset(dims, idx)) == COffset(dims, idx)
  {
    FOffsetBound(dims, idx);
    if dims != [] {
      var rest := FOffset(dims[1..], idx[1..]);
      FToCOfFOffset(dims[1..], idx[1..]);
      DivModOf(idx[0], dims[0], rest);
    }
  }

  /**
   * The Fortran-ordered cast copy keeps every element at its multi-index:
   * at the column-major offset of `idx` (where R looks for element `idx`)
   * it holds the element the array has at `idx`. Converting never transposes.
   */
  lemma FortranCopyKeepsIndices(a: NdArray, idx: seq<nat>)
    requires InBounds(a.dims, idx)
    ensures FOffset(a.dims, idx) < Prod(a.dims)
    ensures ToFortran(a)[FOffset(a.dims, idx)] == ElementAt(a, idx)
  {
    FToCOfFOffset(a.dims, idx);
  }

  /** The 2-by-3 case spelled out: R's [i, j] is numpy's [i][j]. */
  lemma MatrixCopyNoTranspose(a: NdArray, i: nat, j: nat)
    requires a.dims == [2, 3] && a.layout == COrder
    requires i < 2 && j < 3
    ensures |ToFortran(a)| == |a.data| == 6
    ensures ToFortran(a)[i + 2 * j] == a.data[3 * i + j]
  {
    var idx: seq<nat> := [i, j];
    assert InBounds(a.dims, idx);
    FortranCopyKeepsIndices(a, idx);
    assert FOffset(a.dims[1..], idx[1..]) == j;
    assert COffset(a.dims[1..], idx[1..]) == j;
  }

  lemma NormalizeIdempotent(typenum: int)
    requires NormalizeType(typenum).Some?
    ensures NormalizeType(NormalizeType(typenum).value) == NormalizeType(typenum)
  {
  }

  /**
   * PyArray_CastToType(a, t, NPY_ARRAY_FARRAY): a new Fortran-ordered array
   * of the normalised type t holding a's elements in column-major order.
   */
  function CastToFortran(a: NdArray, t: int): (c: NdArray)
    requires NormalizeType(a.typenum) == Some(t)
    ensures c.typenum == t && c.dims == a.dims && c.layout == FortranOrder
    ensures c.data == ToFortran(a)
    ensures forall idx :: InBounds(a.dims, idx) ==> ElementAt(c, idx) == ElementAt(a, idx)
  {
    NormalizeIdempotent(a.typenum);
    FortranCopyKeepsAll(a);
    RawArray(t, a.dims, FortranOrder, ToFortran(a))
  }

  /** FortranCopyKeepsIndices at every multi-index. */
  lemma FortranCopyKeepsAll(a: NdArray)
    ensures forall idx :: InBounds(a.dims, idx) ==>
      FOffset(a.dims, idx) < Prod(a.dims) && ToFortran(a)[FOffset(a.dims, idx)] == ElementAt(a, idx)
  {
    forall idx | InBounds(a.dims, idx)
      ensures FOffset(a.dims, idx) < Prod(a.dims) && ToFortran(a)[FOffset(a.dims, idx)] == ElementAt(a, idx)
    {
      FortranCopyKeepsIndices(a, idx);
    }
  }
}
