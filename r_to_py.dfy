/**
 * r_to_py: converting an R value into a Python value. RToPy is the
 * conversion as a function; ConvertToPy is the procedure that fills new
 * containers through scope guards, proved to compute RToPy and to hand its
 * caller exactly the references the result holds.
 */
module RToPy {
  import opened Wrappers
  import opened Numpy
  import opened Values
  import opened Runtime

  /** x.inherits("py_object"): only the handles py_xptr makes carry that class. */
  predicate InheritsPyObject(x: RValue) {
    x.PyHandle? && "py_object" in x.classes
  }

  /**
   * The numpy array PyArray_New makes over the data of an R matrix: an
   * integer matrix is NPY_INT, a double one NPY_DOUBLE, a logical one
   * NPY_BOOL, all Fortran-ordered with R's `dim` as shape; any other type
   * is refused.
   */
  function MatrixToPy(x: RValue): (r: Result<PyValue, Error>)
    requires x.Valid() && x.HasAttrs() && x.attrs.dim.Some?
    ensures r.Ok? <==> x.IntVec? || x.RealVec? || x.LglVec?
    ensures r.Err? ==> r.error == UnsupportedMatrixType
    ensures r.Ok? ==>
      && r.value.PyArray? && r.value.arr.dims == x.attrs.dim.value
      && r.value.arr.layout == FortranOrder && |r.value.arr.data| == x.Length()
  {
    var dims := x.attrs.dim.value;
    match x
    case IntVec(v, _) => Ok(PyArray(FortranArray(NPY_INT, dims, IntElems(v))))
    case RealVec(v, _) => Ok(PyArray(FortranArray(NPY_DOUBLE, dims, RealElems(v))))
    case LglVec(v, _) => Ok(PyArray(FortranArray(NPY_BOOL, dims, BoolElems(v))))
    case _ => Err(UnsupportedMatrixType)
  }

  /**
   * The logical-matrix branch as written: PyArray_New is told the data are
   * NPY_BOOL, one byte per element, but is given R's LOGICAL storage, four
   * bytes per element. Element k of the array reads byte k of that storage;
   * on a little-endian machine byte 4j is the low byte of logical j and the
   * other three bytes of a TRUE or FALSE are zero.
   */
  function LogicalMatrixAsWritten(lgl: seq<bool>, dims: seq<nat>): NdArray
    requires |lgl| == Prod(dims)
  {
    FortranArray(NPY_BOOL, dims, LogicalBytes(lgl))
  }

  /** The first |lgl| bytes of R's logical storage, read as numpy booleans. */
  function LogicalBytes(lgl: seq<bool>): (d: seq<NpyElem>)
    ensures |d| == |lgl|
    ensures forall k :: 0 <= k < |lgl| ==> d[k] == EBool(k % 4 == 0 && lgl[k / 4])
  {
    seq(|lgl|, k requires 0 <= k < |lgl| => EBool(k % 4 == 0 && lgl[k / 4]))
  }

  /**
   * The 1 x 2 logical matrix (TRUE, TRUE) reaches Python as
   * [[True, False]]: its second element reads a padding byte of the first
   * logical, where the corrected conversion keeps both values.
   */
  lemma LogicalMatrixMisread()
    ensures var x := LglVec([true, true], Attrs(Some([1, 2]), None));
      && x.Valid()
      && LogicalMatrixAsWritten(x.lgl, [1, 2]).data == [EBool(true), EBool(false)]
      && MatrixToPy(x) == Ok(PyArray(FortranArray(NPY_BOOL, [1, 2], [EBool(true), EBool(true)])))
  {
    var x := LglVec([true, true], Attrs(Some([1, 2]), None));
    assert Prod([1, 2]) == 2 by {
      assert Prod([2]) == 2 * Prod([]);
    }
    assert LogicalBytes(x.lgl)[1] == EBool(false);
    assert BoolElems(x.lgl) == [EBool(true), EBool(true)];
  }

  /**
   * As written, a logical matrix reaches numpy intact exactly when each of
   * its elements equals the byte read in its place: element k must be
   * FALSE unless k is a multiple of 4, and then it must equal element k/4.
   */
  lemma {:induction false} LogicalMatrixReadIntactIff(x: RValue)
    requires x.Valid() && x.LglVec? && x.attrs.dim.Some?
    ensures MatrixToPy(x).Ok?
    ensures LogicalMatrixAsWritten(x.lgl, x.attrs.dim.value).data == MatrixToPy(x).value.arr.data
        <==> forall k :: 0 <= k < |x.lgl| ==> x.lgl[k] == (k % 4 == 0 && x.lgl[k / 4])
  {
    var written, corrected := LogicalBytes(x.lgl), BoolElems(x.lgl);
    assert MatrixToPy(x).value.arr.data == corrected;
    if written == corrected {
      forall k | 0 <= k < |x.lgl| ensures x.lgl[k] == (k % 4 == 0 && x.lgl[k / 4]) {
        assert written[k] == corrected[k];
      }
    }
    if forall k :: 0 <= k < |x.lgl| ==> x.lgl[k] == (k % 4 == 0 && x.lgl[k / 4]) {
      assert forall k :: 0 <= k < |x.lgl| ==> written[k] == corrected[k];
    }
  }

  /**
   * The corrected conversion hands numpy an R matrix element for element:
   * storage position k holds the k-th element of the R vector, whatever the
   * type, and R's column-major order is numpy's Fortran order.
   */
  lemma {:induction false} MatrixToPyKeepsElements(x: RValue, k: nat)
    requires x.Valid() && x.HasAttrs() && x.attrs.dim.Some? && MatrixToPy(x).Ok?
    requires k < x.Length()
    ensures var a := MatrixToPy(x).value.arr;
      && k < |a.data|
      && (x.IntVec? ==> a.typenum == NPY_INT && a.data[k] == EInt(x.ints[k]))
      && (x.RealVec? ==> a.typenum == NPY_DOUBLE && a.data[k] == EReal(x.reals[k]))
      && (x.LglVec? ==> a.typenum == NPY_BOOL && a.data[k] == EBool(x.lgl[k]))
  {
  }

  /** A Fortran-ordered array over `data`, which R has already laid out column-major. */
  function FortranArray(t: int, dims: seq<nat>, data: seq<NpyElem>): NdArray
    requires |data| == Prod(dims) && forall i :: 0 <= i < |data| ==> Fits(t, data[i])
  {
    RawArray(t, dims, FortranOrder, data)
  }

  function IntElems(v: seq<int>): (d: seq<NpyElem>)
    ensures |d| == |v| && forall i :: 0 <= i < |v| ==> d[i] == EInt(v[i])
  {
    seq(|v|, i requires 0 <= i < |v| => EInt(v[i]))
  }

  function RealElems(v: seq<Double>): (d: seq<NpyElem>)
    ensures |d| == |v| && forall i :: 0 <= i < |v| ==> d[i] == EReal(v[i])
  {
    seq(|v|, i requires 0 <= i < |v| => EReal(v[i]))
  }

  function BoolElems(v: seq<bool>): (d: seq<NpyElem>)
    ensures |d| == |v| && forall i :: 0 <= i < |v| ==> d[i] == EBool(v[i])
  {
    seq(|v|, i requires 0 <= i < |v| => EBool(v[i]))
  }

  /** An atomic vector without `dim`: a length-one vector is a scalar, any other length a list. */
  function VectorToPy(x: RValue): (r: PyValue)
    requires x.LglVec? || x.IntVec? || x.RealVec? || x.StrVec?
    ensures x.Length() == 1 ==> r == ScalarOf(x, 0)
    ensures x.Length() != 1 ==>
      && r.PyList? && |r.items| == x.Length()
      && forall i :: 0 <= i < x.Length() ==> r.items[i] == ScalarOf(x, i)
  {
    if x.Length() == 1 then ScalarOf(x, 0)
    else PyList(seq(x.Length(), i requires 0 <= i < x.Length() => ScalarOf(x, i)))
  }

  /** PyBool_FromLong / PyInt_FromLong / PyFloat_FromDouble / PyString_FromString of element i. */
  function ScalarOf(x: RValue, i: nat): PyValue
    requires (x.LglVec? || x.IntVec? || x.RealVec? || x.StrVec?) && i < x.Length()
  {
    match x
    case LglVec(v, _) => PyBool(v[i])
    case IntVec(v, _) => PyInt(v[i])
    case RealVec(v, _) => PyFloat(v[i])
    case StrVec(v, _) => PyStr(v[i])
  }

  /** The dict PyDict_SetItemString builds, one name at a time in index order. */
  function DictFrom(names: seq<string>, vals: seq<PyValue>): seq<Entry>
    requires |names| == |vals|
  {
    if names == [] then []
    else DictSet(DictFrom(names[..|names| - 1], vals[..|vals| - 1]), names[|names| - 1], vals[|vals| - 1])
  }

  /** A dict holds one entry per name: its keys are distinct and are exactly the names. */
  lemma {:induction false} DictFromKeys(names: seq<string>, vals: seq<PyValue>)
    requires |names| == |vals|
    ensures Distinct(Keys(DictFrom(names, vals)))
    ensures forall k :: k in Keys(DictFrom(names, vals)) <==> k in names
  {
    if names != [] {
      var n := |names| - 1;
      DictFromKeys(names[..n], vals[..n]);
      DictSetKeys(DictFrom(names[..n], vals[..n]), names[n], vals[n]);
      assert names == names[..n] + [names[n]];
    }
  }

  /** Distinct names are stored in order, each with its own element. */
  lemma {:induction false} DictFromDistinct(names: seq<string>, vals: seq<PyValue>)
    requires |names| == |vals| && Distinct(names)
    ensures DictFrom(names, vals) == seq(|names|, i requires 0 <= i < |names| => Entry(names[i], vals[i]))
  {
    if names != [] {
      var n := |names| - 1;
      var last := Entry(names[n], vals[n]);
      DistinctLast(names);
      DictFromDistinct(names[..n], vals[..n]);
      var d := DictFrom(names[..n], vals[..n]);
      assert KeyIndex(d, names[n]) < 0 by {
        forall j | 0 <= j < n ensures d[j].key != names[n] {
          assert d[j].key == names[..n][j];
        }
      }
      assert DictFrom(names, vals) == d + [last];
    }
  }

  /** The values r_to_py accepts: no matrix of another type and no foreign external pointer, at any depth. */
  predicate Convertible(x: RValue)
    decreases x
  {
    match x
    case RNull => true
    case PyHandle(_, _) => InheritsPyObject(x)
    case RList(elems, attrs) =>
      attrs.dim.None? && forall i :: 0 <= i < |elems| ==> Convertible(elems[i])
    case _ => x.attrs.dim.Some? ==> !x.StrVec?
  }

  /**
   * r_to_py, checking in order: NULL, a py_object handle, a `dim`
   * attribute, then the vector types. A named list becomes a dict, an
   * unnamed one a tuple. It fails exactly on the values Convertible
   * excludes, with the message of the branch that refuses them.
   */
  function RToPy(x: RValue): (r: Result<PyValue, Error>)
    requires x.Valid()
    ensures r.Ok? <==> Convertible(x)
    ensures r.Err? ==> r.error == UnsupportedMatrixType || r.error == UnconvertibleType
    decreases x, 2
  {
    match x
    case RNull => Ok(PyNone)
    case PyHandle(o, classes) => if "py_object" in classes then Ok(Other(o)) else Err(UnconvertibleType)
    case RList(elems, attrs) =>
      if attrs.dim.Some? then Err(UnsupportedMatrixType) else ListToPy(elems, attrs.names)
    case _ =>
      if x.attrs.dim.Some? then MatrixToPy(x) else Ok(VectorToPy(x))
  }

  /**
   * A list without `dim`: a dict keyed by its names if it has them (one
   * entry per distinct name, element i under name i when the names are
   * distinct), a tuple of its converted elements otherwise.
   */
  function ListToPy(elems: seq<RValue>, names: Option<seq<string>>): (r: Result<PyValue, Error>)
    requires forall i :: 0 <= i < |elems| ==> elems[i].Valid()
    requires names.Some? ==> |names.value| == |elems|
    ensures r.Ok? <==> forall i :: 0 <= i < |elems| ==> Convertible(elems[i])
    ensures r.Ok? ==> (r.value.PyDict? <==> names.Some?)
    ensures r.Ok? && names.None? ==>
      && r.value.PyTuple? && r.value.fields == NoFields && |r.value.items| == |elems|
      && forall i :: 0 <= i < |elems| ==> RToPy(elems[i]) == Ok(r.value.items[i])
    ensures r.Ok? && names.Some? ==>
      && Distinct(Keys(r.value.entries))
      && forall k :: k in Keys(r.value.entries) <==> k in names.value
    ensures r.Ok? && names.Some? && Distinct(names.value) ==>
      && |r.value.entries| == |elems|
      && forall i :: 0 <= i < |elems| ==>
           r.value.entries[i].key == names.value[i] && RToPy(elems[i]) == Ok(r.value.entries[i].value)
    ensures r.Err? ==> r.error == UnsupportedMatrixType || r.error == UnconvertibleType
    decreases elems, 1
  {
    var items := ConvertElems(elems);
    if items.Err? then Err(items.error)
    else if names.Some? then
      DictFromKeys(names.value, items.value);
      if Distinct(names.value) then DictFromDistinct(names.value, items.value); Ok(PyDict(DictFrom(names.value, items.value)))
      else Ok(PyDict(DictFrom(names.value, items.value)))
    else Ok(PyTuple(items.value, NoFields))
  }

  /** Elements converted in index order; the first failure stops the conversion. */
  function ConvertElems(elems: seq<RValue>): (r: Result<seq<PyValue>, Error>)
    requires forall i :: 0 <= i < |elems| ==> elems[i].Valid()
    ensures r.Ok? <==> forall i :: 0 <= i < |elems| ==> Convertible(elems[i])
    ensures r.Ok? ==> |r.value| == |elems|
    ensures r.Ok? ==> forall i :: 0 <= i < |elems| ==> RToPy(elems[i]) == Ok(r.value[i])
    ensures r.Err? ==> r.error == UnsupportedMatrixType || r.error == UnconvertibleType
    decreases elems, 0
  {
    if elems == [] then Ok([])
    else
      var init := ConvertElems(elems[..|elems| - 1]);
      if init.Err? then init
      else
        var last := RToPy(elems[|elems| - 1]);
        if last.Err? then Err(last.error) else Ok(init.value + [last.value])
  }

  lemma ConvertElemsStep(elems: seq<RValue>, i: nat)
    requires i < |elems| && forall k :: 0 <= k < |elems| ==> elems[k].Valid()
    requires ConvertElems(elems[..i]).Ok?
    ensures ConvertElems(elems[..i + 1]) ==
      if RToPy(elems[i]).Err? then Err(RToPy(elems[i]).error)
      else Ok(ConvertElems(elems[..i]).value + [RToPy(elems[i]).value])
  {
    assert elems[..i + 1][..i] == elems[..i];
  }

  /** Once an element fails to convert, the conversion of the whole sequence fails with its error. */
  lemma {:induction false} ConvertElemsStops(elems: seq<RValue>, i: nat)
    requires forall k :: 0 <= k < |elems| ==> elems[k].Valid()
    requires i <= |elems| && ConvertElems(elems[..i]).Err?
    ensures ConvertElems(elems) == ConvertElems(elems[..i])
    decreases |elems|
  {
    var n := |elems|;
    if i < n {
      var init := elems[..n - 1];
      assert init[..i] == elems[..i];
      ConvertElemsStops(init, i);
      assert ConvertElems(init).Err?;
    } else {
      assert elems[..i] == elems;
    }
  }

  lemma ConvertElemsFailsAt(elems: seq<RValue>, i: nat)
    requires i < |elems| && forall k :: 0 <= k < |elems| ==> elems[k].Valid()
    requires ConvertElems(elems[..i]).Ok? && RToPy(elems[i]).Err?
    ensures ConvertElems(elems) == Err(RToPy(elems[i]).error)
  {
    ConvertElemsStep(elems, i);
    ConvertElemsStops(elems, i + 1);
  }

  lemma DictFromStep(names: seq<string>, vals: seq<PyValue>, i: nat, v: PyValue)
    requires i < |names| && |vals| == i
    ensures DictFrom(names[..i + 1], vals + [v]) == DictSet(DictFrom(names[..i], vals), names[i], v)
  {
    assert names[..i + 1][..i] == names[..i] && (vals + [v])[..i] == vals;
  }

  // The procedure.

  /**
   * r_to_py. The result carries one new reference for the caller: to None
   * or to the wrapped object, or, for a new container, the references it
   * holds to its items. On failure every reference taken so far has been
   * released again.
   */
  method ConvertToPy(rt: Interpreter, x: RValue) returns (r: Result<PyValue, Error>)
    requires x.Valid()
    modifies rt
    ensures r == RToPy(x)
    ensures rt.pending == old(rt.pending)
    ensures r.Ok? ==> rt.refs == old(rt.refs) + Refs(r.value)
    ensures r.Err? ==> rt.refs == old(rt.refs)
    decreases x, 3
  {
    if x.RNull? {
      rt.IncRef(PyNone);
      r := Ok(PyNone);
    } else if InheritsPyObject(x) {
      rt.IncRef(Other(x.obj));
      r := Ok(Other(x.obj));
    } else if x.HasAttrs() && x.attrs.dim.Some? {
      var dims := x.attrs.dim.value;
      if x.IntVec? {
        r := Ok(PyArray(FortranArray(NPY_INT, dims, IntElems(x.ints))));
      } else if x.RealVec? {
        r := Ok(PyArray(FortranArray(NPY_DOUBLE, dims, RealElems(x.reals))));
      } else if x.LglVec? {
        r := Ok(PyArray(FortranArray(NPY_BOOL, dims, BoolElems(x.lgl))));
      } else {
        r := Err(UnsupportedMatrixType);
      }
    } else if x.IntVec? || x.RealVec? || x.LglVec? || x.StrVec? {
      if x.Length() == 1 {
        r := Ok(ScalarOf(x, 0));
      } else {
        var list := NewList(rt, x);
        r := Ok(list);
      }
    } else if x.RList? {
      if x.attrs.names.Some? {
        r := NewDict(rt, x.elems, x.attrs.names.value);
      } else {
        r := NewTuple(rt, x.elems);
      }
    } else {
      r := Err(UnconvertibleType);
    }
  }

  /** A vector of length other than one: PyList_New(len), then PyList_SetItem of each new scalar. */
  method NewList(rt: Interpreter, x: RValue) returns (r: PyValue)
    requires (x.LglVec? || x.IntVec? || x.RealVec? || x.StrVec?) && x.Length() != 1
    modifies rt
    ensures r == VectorToPy(x) && Refs(r) == multiset{}
    ensures rt.refs == old(rt.refs) && rt.pending == old(rt.pending)
  {
    var list := new PyObjectPtr(rt, Some(PyList([])));
    for i := 0 to x.Length()
      invariant list.alive && list.rt == rt && list.held.Some? && list.held.value.PyList?
      invariant |list.held.value.items| == i
      invariant forall k :: 0 <= k < i ==> list.held.value.items[k] == ScalarOf(x, k)
      invariant Refs(list.held.value) == multiset{}
      modifies list
    {
      SetNextItem(list, ScalarOf(x, i));
    }
    var l := list.Detach();
    list.Destroy();
    r := l.value;
  }

  /**
   * One step of the named-list loop: the converted item's reference, held
   * by a guard, and the dict's references become the references of the
   * dict with the item stored under `name`.
   */
  method StoreItem(rt: Interpreter, dict: PyObjectPtr, name: string, v: PyValue, ghost base: multiset<RefKey>)
    requires dict.rt == rt && dict.held.Some? && dict.held.value.PyDict?
    requires rt.refs == base + Refs(dict.held.value) + Refs(v)
    modifies rt, dict
    ensures dict.held == Some(PyDict(DictSet(old(dict.held.value.entries), name, v)))
    ensures dict.alive == old(dict.alive)
    ensures rt.refs == base + Refs(dict.held.value) && rt.pending == old(rt.pending)
  {
    var item := new PyObjectPtr(rt, Some(v));
    ghost var before := dict.held.value;
    DictSetItemString(rt, dict, name, v);
    CancelRefs(rt.refs, base, Refs(dict.held.value), Refs(before), Refs(v));
    item.Destroy();
  }

  /** An unnamed list: PyTuple_New(len), filled with the converted elements, whose references it steals. */
  method NewTuple(rt: Interpreter, elems: seq<RValue>) returns (r: Result<PyValue, Error>)
    requires forall i :: 0 <= i < |elems| ==> elems[i].Valid()
    modifies rt
    ensures r == ListToPy(elems, None)
    ensures rt.pending == old(rt.pending)
    ensures r.Ok? ==> rt.refs == old(rt.refs) + Refs(r.value)
    ensures r.Err? ==> rt.refs == old(rt.refs)
    decreases elems, 1
  {
    var tuple := new PyObjectPtr(rt, Some(PyTuple([], NoFields)));
    var i := 0;
    while i < |elems|
      invariant 0 <= i <= |elems|
      invariant tuple.alive && tuple.rt == rt && tuple.held.Some?
      invariant tuple.held.value.PyTuple? && tuple.held.value.fields == NoFields
      invariant ConvertElems(elems[..i]) == Ok(tuple.held.value.items)
      invariant rt.refs == old(rt.refs) + Refs(tuple.held.value) && rt.pending == old(rt.pending)
      modifies rt, tuple
    {
      var item := ConvertToPy(rt, elems[i]);
      if item.Err? {
        ConvertElemsFailsAt(elems, i);
        DropRefs(old(rt.refs), Refs(tuple.held.value));
        tuple.Destroy();
        return Err(item.error);
      }
      ConvertElemsStep(elems, i);
      GrowRefs(old(rt.refs), Refs(tuple.held.value), Refs(item.value));
      SetNextItem(tuple, item.value);
      i := i + 1;
    }
    assert elems[..i] == elems;
    var t := tuple.Detach();
    tuple.Destroy();
    r := Ok(t.value);
  }

  /**
   * A named list: PyDict_New(), then for each element in index order its
   * conversion is held by a guard while PyDict_SetItemString stores it
   * under the element's name; a repeated name keeps the later element.
   */
  method NewDict(rt: Interpreter, elems: seq<RValue>, names: seq<string>) returns (r: Result<PyValue, Error>)
    requires forall i :: 0 <= i < |elems| ==> elems[i].Valid()
    requires |names| == |elems|
    modifies rt
    ensures r == ListToPy(elems, Some(names))
    ensures rt.pending == old(rt.pending)
    ensures r.Ok? ==> rt.refs == old(rt.refs) + Refs(r.value)
    ensures r.Err? ==> rt.refs == old(rt.refs)
    decreases elems, 1
  {
    var dict := new PyObjectPtr(rt, Some(PyDict([])));
    ghost var vals: seq<PyValue> := [];
    var i := 0;
    while i < |elems|
      invariant 0 <= i <= |elems|
      invariant dict.alive && dict.rt == rt
      invariant ConvertElems(elems[..i]) == Ok(vals)
      invariant dict.held == Some(PyDict(DictFrom(names[..i], vals)))
      invariant rt.refs == old(rt.refs) + Refs(dict.held.value) && rt.pending == old(rt.pending)
      modifies rt, dict
    {
      var name := names[i];
      var converted := ConvertToPy(rt, elems[i]);
      if converted.Err? {
        ConvertElemsFailsAt(elems, i);
        DropRefs(old(rt.refs), Refs(dict.held.value));
        dict.Destroy();
        return Err(converted.error);
      }
      ConvertElemsStep(elems, i);
      StoreItem(rt, dict, name, converted.value, old(rt.refs));
      DictFromStep(names, vals, i, converted.value);
      vals := vals + [converted.value];
      i := i + 1;
    }
    assert elems[..i] == elems && names[..i] == names;
    var d := dict.Detach();
    dict.Destroy();
    r := Ok(d.value);
  }
}
