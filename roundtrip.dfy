/**
 * What survives a trip across the bridge and back. An R value that
 * r_to_py accepts and py_to_r reads back unchanged, and a Python value
 * that py_to_r accepts and r_to_py rebuilds unchanged; and what the trip
 * changes for the values outside those classes.
 */
module RoundTrip {
  import opened Wrappers
  import opened Numpy
  import opened Values
  import opened Classify
  import PyToR
  import RToPy

  /**
   * The R values that come back unchanged: NULL, a handle with the classes
   * py_xptr gives it, a scalar or longer atomic vector without attributes,
   * an integer, double or logical array, and a list without `dim` whose
   * elements come back, unnamed or named by distinct names (a named list
   * must not be empty: an empty dict comes back without names).
   */
  predicate RRoundTrips(x: RValue)
    decreases x
  {
    match x
    case RNull => true
    case PyHandle(o, classes) => classes == PyToR.XPtrClasses(o)
    case RList(elems, attrs) =>
      && attrs.dim.None?
      && (attrs.names.Some? ==> |elems| > 0 && Distinct(attrs.names.value))
      && forall i :: 0 <= i < |elems| ==> RRoundTrips(elems[i])
    case _ =>
      && x.attrs.names.None?
      && (x.attrs.dim.Some? ==> !x.StrVec?)
      && (x.attrs.dim.None? ==> x.Length() > 0)
  }

  /** r_to_py then py_to_r is the identity on RRoundTrips. */
  lemma {:induction false} RoundTripR(x: RValue)
    requires x.Valid() && RRoundTrips(x)
    ensures RToPy.RToPy(x).Ok? && PyToR.PyToR(RToPy.RToPy(x).value) == Ok(x)
    decreases x
  {
    match x {
      case RNull =>
      case PyHandle(o, classes) =>
        assert "py_object" in classes;
      case RList(elems, attrs) =>
        forall i | 0 <= i < |elems|
          ensures RToPy.RToPy(elems[i]).Ok? && PyToR.PyToR(RToPy.RToPy(elems[i]).value) == Ok(elems[i])
        {
          RoundTripR(elems[i]);
        }
        ListRoundTrip(elems, attrs.names);
      case _ =>
        if x.attrs.dim.Some? {
          MatrixRoundTrip(x);
        } else {
          VectorRoundTrip(x);
        }
    }
  }

  /** A list whose elements come back comes back, as a tuple or as a dict with distinct keys. */
  lemma ListRoundTrip(elems: seq<RValue>, names: Option<seq<string>>)
    requires forall i :: 0 <= i < |elems| ==> elems[i].Valid()
    requires forall i :: 0 <= i < |elems| ==>
      RToPy.RToPy(elems[i]).Ok? && PyToR.PyToR(RToPy.RToPy(elems[i]).value) == Ok(elems[i])
    requires names.Some? ==> |names.value| == |elems| > 0 && Distinct(names.value)
    ensures RToPy.ListToPy(elems, names).Ok?
    ensures PyToR.PyToR(RToPy.ListToPy(elems, names).value) == Ok(RList(elems, Attrs(None, names)))
  {
    var items := RToPy.ConvertElems(elems).value;
    assert forall i :: 0 <= i < |elems| ==> PyToR.PyToR(items[i]) == Ok(elems[i]);
    if names.None? {
      ElementsBack(elems, items);
      TupleDispatch(items, NoFields);
    } else {
      NamedElementsBack(elems, items, names.value);
      DictDispatch(RToPy.DictFrom(names.value, items));
    }
  }

  lemma TupleDispatch(items: seq<PyValue>, fields: Fields)
    ensures PyToR.PyToR(PyTuple(items, fields)) == PyToR.TupleToR(items, fields)
  {
  }

  /** The items the elements of a list become convert back to those elements. */
  lemma {:induction false} ElementsBack(elems: seq<RValue>, items: seq<PyValue>)
    requires |items| == |elems|
    requires forall i :: 0 <= i < |elems| ==> PyToR.PyToR(items[i]) == Ok(elems[i])
    ensures PyToR.ConvertSeq(items) == Ok(elems)
    decreases |items|
  {
    if items != [] {
      var n := |items| - 1;
      ElementsBack(elems[..n], items[..n]);
      assert elems == elems[..n] + [elems[n]];
    }
  }

  lemma NamedElementsBack(elems: seq<RValue>, items: seq<PyValue>, ns: seq<string>)
    requires |ns| == |items| == |elems| > 0 && Distinct(ns)
    requires forall i :: 0 <= i < |elems| ==> PyToR.PyToR(items[i]) == Ok(elems[i])
    ensures PyToR.DictToR(RToPy.DictFrom(ns, items)) == Ok(RList(elems, Attrs(None, Some(ns))))
  {
    RToPy.DictFromDistinct(ns, items);
    var entries := RToPy.DictFrom(ns, items);
    EntriesBack(elems, entries);
    assert Keys(entries) == ns;
    PyToR.AssignAllDistinct(ns, elems);
  }

  /** The values of entries that convert to the elements of a list convert back to that list. */
  lemma {:induction false} EntriesBack(elems: seq<RValue>, entries: seq<Entry>)
    requires |entries| == |elems|
    requires forall i :: 0 <= i < |elems| ==> PyToR.PyToR(entries[i].value) == Ok(elems[i])
    ensures PyToR.ConvertEntries(entries) == Ok(elems)
    decreases |entries|
  {
    if entries != [] {
      var n := |entries| - 1;
      EntriesBack(elems[..n], entries[..n]);
      assert elems == elems[..n] + [elems[n]];
    }
  }

  /** An atomic vector without attributes: length one goes through a scalar, longer through a list. */
  lemma VectorRoundTrip(x: RValue)
    requires x.LglVec? || x.IntVec? || x.RealVec? || x.StrVec?
    requires x.attrs == NoAttrs && x.Length() > 0
    ensures RToPy.RToPy(x) == Ok(RToPy.VectorToPy(x))
    ensures PyToR.PyToR(RToPy.VectorToPy(x)) == Ok(x)
  {
    if x.Length() == 1 {
      ScalarVectorRoundTrip(x);
    } else {
      var items := RToPy.VectorToPy(x).items;
      assert forall i :: 0 <= i < |items| ==> RScalarType(items[i]) == x.Type();
      assert ScalarListKind(items) == x.Type();
      var back := PyToR.VectorOf(items, x.Type());
      assert forall i :: 0 <= i < |items| ==> back.Element(i) == x.Element(i);
      ElementsEqual(back, x);
    }
  }

  /** A vector of length one becomes a Python scalar, which becomes the same vector. */
  lemma ScalarVectorRoundTrip(x: RValue)
    requires x.LglVec? || x.IntVec? || x.RealVec? || x.StrVec?
    requires x.attrs == NoAttrs && x.Length() == 1
    ensures PyToR.PyToR(RToPy.ScalarOf(x, 0)) == Ok(x)
  {
    match x {
      case LglVec(v, _) => assert v == [v[0]];
      case IntVec(v, _) => assert v == [v[0]];
      case RealVec(v, _) => assert v == [v[0]];
      case StrVec(v, _) => assert v == [v[0]];
    }
  }

  /** Two atomic vectors of one type and length, without attributes, equal element by element, are equal. */
  lemma ElementsEqual(a: RValue, b: RValue)
    requires a.LglVec? || a.IntVec? || a.RealVec? || a.StrVec?
    requires a.Type() == b.Type() && a.Length() == b.Length()
    requires a.attrs == b.attrs
    requires forall i :: 0 <= i < a.Length() ==> a.Element(i) == b.Element(i)
    ensures a == b
  {
    match a {
      case LglVec(v, _) =>
        assert forall i :: 0 <= i < |v| ==> a.Element(i).lgl[0] == v[i] && b.Element(i).lgl[0] == b.lgl[i];
      case IntVec(v, _) =>
        assert forall i :: 0 <= i < |v| ==> a.Element(i).ints[0] == v[i] && b.Element(i).ints[0] == b.ints[i];
      case RealVec(v, _) =>
        assert forall i :: 0 <= i < |v| ==> a.Element(i).reals[0] == v[i] && b.Element(i).reals[0] == b.reals[i];
      case StrVec(v, _) =>
        assert forall i :: 0 <= i < |v| ==> a.Element(i).strs[0] == v[i] && b.Element(i).strs[0] == b.strs[i];
    }
  }

  /** An integer, double or logical array comes back with the same dim and elements. */
  lemma MatrixRoundTrip(x: RValue)
    requires x.Valid() && (x.IntVec? || x.RealVec? || x.LglVec?)
    requires x.attrs.dim.Some? && x.attrs.names.None?
    ensures RToPy.RToPy(x).Ok? && PyToR.PyToR(RToPy.RToPy(x).value) == Ok(x)
  {
    var a := RToPy.MatrixToPy(x).value.arr;
    assert ToFortran(a) == a.data;
    match x {
      case IntVec(v, _) =>
        assert PyToR.Integers(a.data) == v;
      case RealVec(v, _) =>
        assert PyToR.Reals(a.data) == v;
      case LglVec(v, _) =>
        assert PyToR.Logicals(a.data) == v;
    }
  }

  /**
   * The Python values that come back unchanged: None, a scalar, a list of
   * at least two scalars of one type, a tuple without `_fields` whose
   * items come back, a non-empty dict whose keys are distinct and whose
   * values come back, a Fortran-ordered bool, int or double array of at
   * least one dimension, and an opaque object.
   */
  predicate PyRoundTrips(x: PyValue)
    decreases x
  {
    match x
    case PyNone => true
    case PyBool(_) => true
    case PyInt(_) => true
    case PyFloat(_) => true
    case PyStr(_) => true
    case PyList(items) => |items| >= 2 && ScalarListKind(items) != NilSxp
    case PyTuple(items, fields) =>
      fields == NoFields && forall i :: 0 <= i < |items| ==> PyRoundTrips(items[i])
    case PyDict(entries) =>
      && |entries| > 0 && Distinct(Keys(entries))
      && forall i :: 0 <= i < |entries| ==> PyRoundTrips(entries[i].value)
    case PyArray(a) =>
      && a.layout == FortranOrder && a.dims != []
      && (a.typenum == NPY_BOOL || a.typenum == NPY_INT || a.typenum == NPY_DOUBLE)
    case Other(_) => true
  }

  /** py_to_r then r_to_py is the identity on PyRoundTrips. */
  lemma {:induction false} RoundTripPy(x: PyValue)
    requires PyRoundTrips(x)
    ensures PyToR.PyToR(x).Ok? && RToPy.RToPy(PyToR.PyToR(x).value) == Ok(x)
    decreases x
  {
    match x {
      case PyNone =>
      case PyBool(_) =>
      case PyInt(_) =>
      case PyFloat(_) =>
      case PyStr(_) =>
      case PyList(items) =>
        HomogeneousListRoundTrip(items);
      case PyTuple(items, _) =>
        forall i | 0 <= i < |items|
          ensures PyToR.PyToR(items[i]).Ok? && RToPy.RToPy(PyToR.PyToR(items[i]).value) == Ok(items[i])
        {
          RoundTripPy(items[i]);
        }
        TupleRoundTrip(items);
      case PyDict(entries) =>
        forall i | 0 <= i < |entries|
          ensures PyToR.PyToR(entries[i].value).Ok?
          ensures RToPy.RToPy(PyToR.PyToR(entries[i].value).value) == Ok(entries[i].value)
        {
          RoundTripPy(entries[i].value);
        }
        DictRoundTrip(entries);
      case PyArray(a) =>
        ArrayRoundTrip(a);
      case Other(o) =>
    }
  }

  /** A list of two or more scalars of one type becomes a vector and comes back as the same list. */
  lemma HomogeneousListRoundTrip(items: seq<PyValue>)
    requires |items| >= 2 && ScalarListKind(items) != NilSxp
    ensures PyToR.PyToR(PyList(items)).Ok?
    ensures RToPy.RToPy(PyToR.PyToR(PyList(items)).value) == Ok(PyList(items))
  {
    var kind := ScalarListKind(items);
    var v := PyToR.VectorOf(items, kind);
    assert PyToR.PyToR(PyList(items)) == Ok(v);
    var p := RToPy.VectorToPy(v);
    assert forall i :: 0 <= i < |items| ==> p.items[i] == items[i] by {
      forall i | 0 <= i < |items|
        ensures p.items[i] == items[i]
      {
        assert v.Element(i) == PyToR.ScalarToR(items[i]);
      }
    }
    assert p.items == items;
  }

  /** A tuple without `_fields` becomes an unnamed list and comes back as the same tuple. */
  lemma TupleRoundTrip(items: seq<PyValue>)
    requires forall i :: 0 <= i < |items| ==>
      PyToR.PyToR(items[i]).Ok? && RToPy.RToPy(PyToR.PyToR(items[i]).value) == Ok(items[i])
    ensures PyToR.PyToR(PyTuple(items, NoFields)).Ok?
    ensures RToPy.RToPy(PyToR.PyToR(PyTuple(items, NoFields)).value) == Ok(PyTuple(items, NoFields))
  {
    var rs := PyToR.ConvertSeq(items).value;
    assert PyToR.PyToR(PyTuple(items, NoFields)) == Ok(RList(rs, NoAttrs));
    ValuesBack(rs, items);
  }

  /** A non-empty dict with distinct keys becomes a named list and comes back as the same dict. */
  lemma DictRoundTrip(entries: seq<Entry>)
    requires |entries| > 0 && Distinct(Keys(entries))
    requires forall i :: 0 <= i < |entries| ==>
      && PyToR.PyToR(entries[i].value).Ok?
      && RToPy.RToPy(PyToR.PyToR(entries[i].value).value) == Ok(entries[i].value)
    ensures PyToR.PyToR(PyDict(entries)).Ok?
    ensures RToPy.RToPy(PyToR.PyToR(PyDict(entries)).value) == Ok(PyDict(entries))
  {
    var keys := Keys(entries);
    var rs := DictToList(entries);
    var vals := seq(|entries|, i requires 0 <= i < |entries| => entries[i].value);
    assert forall i :: 0 <= i < |rs| ==> rs[i].Valid() && RToPy.RToPy(rs[i]) == Ok(vals[i]);
    ValuesBack(rs, vals);
    NamedListDispatch(rs, keys);
    RToPy.DictFromDistinct(keys, vals);
    assert RToPy.DictFrom(keys, vals) == entries;
  }

  lemma NamedListDispatch(rs: seq<RValue>, keys: seq<string>)
    requires |keys| == |rs| && forall i :: 0 <= i < |rs| ==> rs[i].Valid()
    requires RToPy.ConvertElems(rs).Ok?
    ensures RList(rs, Attrs(None, Some(keys))).Valid()
    ensures RToPy.RToPy(RList(rs, Attrs(None, Some(keys))))
         == Ok(PyDict(RToPy.DictFrom(keys, RToPy.ConvertElems(rs).value)))
  {
  }

  /** A dict with distinct keys becomes the list of its converted values, named by its keys. */
  lemma DictToList(entries: seq<Entry>) returns (rs: seq<RValue>)
    requires |entries| > 0 && Distinct(Keys(entries))
    requires forall i :: 0 <= i < |entries| ==> PyToR.PyToR(entries[i].value).Ok?
    ensures |rs| == |entries| && forall i :: 0 <= i < |entries| ==> PyToR.PyToR(entries[i].value) == Ok(rs[i])
    ensures PyToR.PyToR(PyDict(entries)) == Ok(RList(rs, Attrs(None, Some(Keys(entries)))))
  {
    var keys := Keys(entries);
    rs := PyToR.ConvertEntries(entries).value;
    PyToR.AssignAllDistinct(keys, rs);
    DictDispatch(entries);
  }

  lemma DictDispatch(entries: seq<Entry>)
    ensures PyToR.PyToR(PyDict(entries)) == PyToR.DictToR(entries)
  {
  }

  /** The R values a sequence of Python values becomes convert back to those Python values. */
  lemma {:induction false} ValuesBack(rs: seq<RValue>, vals: seq<PyValue>)
    requires |rs| == |vals|
    requires forall i :: 0 <= i < |rs| ==> rs[i].Valid() && RToPy.RToPy(rs[i]) == Ok(vals[i])
    ensures RToPy.ConvertElems(rs) == Ok(vals)
    decreases |rs|
  {
    if rs != [] {
      var n := |rs| - 1;
      ValuesBack(rs[..n], vals[..n]);
      assert vals == vals[..n] + [vals[n]];
    }
  }

  /** A Fortran-ordered bool, int or double array of at least one dimension comes back as the same array. */
  lemma ArrayRoundTrip(a: NdArray)
    requires a.layout == FortranOrder
    requires a.typenum == NPY_BOOL || a.typenum == NPY_INT || a.typenum == NPY_DOUBLE
    requires a.dims != []
    ensures PyToR.PyToR(PyArray(a)).Ok? && RToPy.RToPy(PyToR.PyToR(PyArray(a)).value) == Ok(PyArray(a))
  {
    var back := ArrayBack(a);
    assert back.data == a.data;
  }

  /**
   * An array of any layout comes back Fortran-ordered with the same shape
   * and the same element at every multi-index: the trip never transposes.
   */
  lemma ArrayRoundTripKeepsIndices(a: NdArray, idx: seq<nat>)
    requires a.typenum == NPY_BOOL || a.typenum == NPY_INT || a.typenum == NPY_DOUBLE
    requires a.dims != []
    requires InBounds(a.dims, idx)
    ensures PyToR.PyToR(PyArray(a)).Ok?
    ensures var back := RToPy.RToPy(PyToR.PyToR(PyArray(a)).value);
      && back.Ok? && back.value.PyArray?
      && back.value.arr.typenum == a.typenum && back.value.arr.dims == a.dims
      && back.value.arr.layout == FortranOrder
      && ElementAt(back.value.arr, idx) == ElementAt(a, idx)
  {
    var back := ArrayBack(a);
    FortranCopyKeepsIndices(a, idx);
  }

  /** The array r_to_py makes of the R array an array of a round-tripping type becomes. */
  lemma ArrayBack(a: NdArray) returns (back: NdArray)
    requires a.typenum == NPY_BOOL || a.typenum == NPY_INT || a.typenum == NPY_DOUBLE
    requires a.dims != []
    ensures PyToR.PyToR(PyArray(a)).Ok?
    ensures RToPy.RToPy(PyToR.PyToR(PyArray(a)).value) == Ok(PyArray(back))
    ensures back == RawArray(a.typenum, a.dims, FortranOrder, ToFortran(a))
  {
    var buf := ToFortran(a);
    var r := PyToR.PyToR(PyArray(a)).value;
    if a.typenum == NPY_BOOL {
      assert r == LglVec(PyToR.Logicals(buf), Attrs(Some(a.dims), None));
      assert RToPy.BoolElems(PyToR.Logicals(buf)) == buf;
    } else if a.typenum == NPY_INT {
      assert r == IntVec(PyToR.Integers(buf), Attrs(Some(a.dims), None));
      assert RToPy.IntElems(PyToR.Integers(buf)) == buf;
    } else {
      assert r == RealVec(PyToR.Reals(buf), Attrs(Some(a.dims), None));
      assert RToPy.RealElems(PyToR.Reals(buf)) == buf;
    }
    back := RToPy.RToPy(r).value.arr;
  }

  // What the trip changes.

  /** An empty R vector becomes an empty Python list, which comes back as an empty list. */
  lemma EmptyVectorBecomesList(x: RValue)
    requires x.LglVec? || x.IntVec? || x.RealVec? || x.StrVec?
    requires x.attrs == NoAttrs && x.Length() == 0
    ensures RToPy.RToPy(x) == Ok(PyList([]))
    ensures PyToR.PyToR(PyList([])) == Ok(RList([], NoAttrs))
  {
    assert PyToR.ConvertSeq([]) == Ok([]);
  }

  /** A named tuple comes back from R as a dict keyed by its field names. */
  lemma NamedTupleBecomesDict(items: seq<PyValue>, names: seq<string>)
    requires |names| == |items| > 0 && Distinct(names)
    requires forall i :: 0 <= i < |items| ==>
      PyToR.PyToR(items[i]).Ok? && RToPy.RToPy(PyToR.PyToR(items[i]).value) == Ok(items[i])
    ensures PyToR.PyToR(PyTuple(items, FieldTuple(names))).Ok?
    ensures RToPy.RToPy(PyToR.PyToR(PyTuple(items, FieldTuple(names))).value)
         == Ok(PyDict(seq(|names|, i requires 0 <= i < |names| => Entry(names[i], items[i]))))
  {
    var t := PyToR.PyToR(PyTuple(items, FieldTuple(names)));
    assert t == PyToR.TupleToR(items, FieldTuple(names));
    var rs := t.value.elems;
    assert t.value == RList(rs, Attrs(None, Some(names)));
    assert forall i :: 0 <= i < |rs| ==> RToPy.RToPy(rs[i]) == Ok(items[i]);
    var back := RToPy.ListToPy(rs, Some(names));
    assert RToPy.RToPy(t.value) == back;
    var entries := back.value.entries;
    var want := seq(|names|, i requires 0 <= i < |names| => Entry(names[i], items[i]));
    forall i | 0 <= i < |names| ensures entries[i] == want[i] {
      assert RToPy.RToPy(rs[i]) == Ok(entries[i].value);
    }
    assert entries == want;
  }

  /** A one-element list comes back as the bare scalar. */
  lemma SingletonListBecomesScalar(v: PyValue)
    requires RScalarType(v) != NilSxp
    ensures PyToR.PyToR(PyList([v])) == Ok(PyToR.ScalarToR(v))
    ensures RToPy.RToPy(PyToR.ScalarToR(v)) == Ok(v)
  {
    assert ScalarListKind([v]) == RScalarType(v);
    var r := PyToR.VectorOf([v], RScalarType(v));
    assert r.Element(0) == PyToR.ScalarToR(v);
    ElementsEqual(r, PyToR.ScalarToR(v));
  }
}
