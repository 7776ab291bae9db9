/**
 * The classifiers: which R scalar type a Python value maps to, which single
 * scalar type a Python list shares, and the attribute categories reported
 * for introspection.
 */
module Classify {
  import opened Values

  /**
   * r_scalar_type: bool is tested before int, because a bool passes
   * PyInt_Check too; so a bool is always logical and never integer.
   */
  function RScalarType(x: PyValue): (t: SexpType)
    ensures t == LglSxp <==> x.PyBool?
    ensures t == IntSxp <==> x.PyInt?
    ensures t == RealSxp <==> x.PyFloat?
    ensures t == StrSxp <==> x.PyStr?
    ensures t != VecSxp && t != ExtPtrSxp
  {
    if x.BoolCheck() then LglSxp
    else if x.IntCheck() then IntSxp
    else if x.FloatCheck() then RealSxp
    else if x.StringCheck() then StrSxp
    else NilSxp
  }

  /** The R scalar types: the non-NIL results of RScalarType. */
  predicate IsScalarType(t: SexpType) {
    t == LglSxp || t == IntSxp || t == RealSxp || t == StrSxp
  }

  /**
   * The single scalar type every element of a list has, or NilSxp: for an
   * empty list, for a list whose elements are not scalars, and for a list
   * mixing two scalar types (an int next to a float is not widened).
   */
  function ScalarListKind(items: seq<PyValue>): SexpType {
    if |items| > 0 && forall i :: 0 <= i < |items| ==> RScalarType(items[i]) == RScalarType(items[0])
    then RScalarType(items[0])
    else NilSxp
  }

  /** scalar_list_type: the loop over the list with its early return. */
  method ScalarListType(items: seq<PyValue>) returns (t: SexpType)
    ensures t != NilSxp ==> |items| > 0 && forall i :: 0 <= i < |items| ==> RScalarType(items[i]) == t
    ensures t == NilSxp ==>
      || |items| == 0
      || RScalarType(items[0]) == NilSxp
      || exists i :: 0 <= i < |items| && RScalarType(items[i]) != RScalarType(items[0])
    ensures t == ScalarListKind(items)
  {
    var len := |items|;
    if len == 0 {
      return NilSxp;
    }
    var scalarType := RScalarType(items[0]);
    if scalarType == NilSxp {
      return NilSxp;
    }
    var i := 1;
    while i < len
      invariant 1 <= i <= len
      invariant forall k :: 0 <= k < i ==> RScalarType(items[k]) == scalarType
    {
      if RScalarType(items[i]) != scalarType {
        return NilSxp;
      }
      i := i + 1;
    }
    return scalarType;
  }

  // Codes of py_get_attribute_types.
  const VECTOR: int := 1
  const ARRAY: int := 2
  const LIST: int := 4
  const FUNCTION: int := 6

  /**
   * The category py_get_attribute_types reports for one attribute value:
   * callable first, then containers, arrays, scalars; anything else is
   * presumed to be an object and reported as a list.
   */
  function AttributeType(v: PyValue): (code: int)
    ensures code == FUNCTION || code == LIST || code == ARRAY || code == VECTOR
    ensures code == FUNCTION <==> v.CallableCheck()
    ensures code == ARRAY <==> v.PyArray?
    ensures code == VECTOR <==> RScalarType(v) != NilSxp
  {
    if v.CallableCheck() then FUNCTION
    else if v.ListCheck() || v.TupleCheck() || v.DictCheck() then LIST
    else if v.ArrayCheck() then ARRAY
    else if v.BoolCheck() || v.IntCheck() || v.FloatCheck() || v.StringCheck() then VECTOR
    else LIST
  }
}
