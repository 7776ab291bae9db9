/**
 * py_to_r: converting a Python value into an R value. PyToR is the
 * conversion as a function of the value; ConvertToR is the procedure with
 * its loops over pre-allocated vectors, proved to compute PyToR and to add
 * exactly one reference per opaque handle it creates.
 */
module PyToR {
  import opened Wrappers
  import opened Numpy
  import opened Values
  import opened Classify
  import opened Runtime

  /** py_xptr's `class` attribute: the object's qualified class name, if any, then "py_object". */
  function XPtrClasses(o: PyObject): seq<string> {
    if o.klass.Some? then [o.klass.value.moduleName + "." + o.klass.value.name, "py_object"]
    else ["py_object"]
  }

  /** The external pointer py_xptr wraps an opaque object in. */
  function XPtr(o: PyObject): (r: RValue)
    ensures r.PyHandle? && r.obj == o && 0 < |r.classes| <= 2
    ensures r.classes[|r.classes| - 1] == "py_object"
    ensures |r.classes| == 2 <==> o.klass.Some?
    ensures o.klass.Some? ==> r.classes[0] == o.klass.value.moduleName + "." + o.klass.value.name
  {
    PyHandle(o, XPtrClasses(o))
  }

  /** A Python scalar as an R vector of length one of the type RScalarType picks. */
  function ScalarToR(x: PyValue): (r: RValue)
    requires RScalarType(x) != NilSxp
    ensures r.Type() == RScalarType(x) && r.Length() == 1 && r.HasAttrs() && r.attrs == NoAttrs
  {
    match x
    case PyBool(b) => LglVec([b], NoAttrs)
    case PyInt(i) => IntVec([i], NoAttrs)
    case PyFloat(d) => RealVec([d], NoAttrs)
    case PyStr(s) => StrVec([s], NoAttrs)
  }

  /**
   * The type of the vector the scalar branch builds as written: Rcpp's
   * wrap() of a C `long` (what PyInt_AsLong returns) is an R double, so an
   * int, classified as integer, comes back as a numeric vector.
   */
  function WrappedScalarType(x: PyValue): (t: SexpType)
    requires RScalarType(x) != NilSxp
    ensures t == RScalarType(x) <==> !x.PyInt?
    ensures x.PyInt? ==> t == RealSxp
  {
    match x
    case PyBool(_) => LglSxp
    case PyInt(_) => RealSxp
    case PyFloat(_) => RealSxp
    case PyStr(_) => StrSxp
  }

  /**
   * The int 1 alone becomes a double vector, while the list [1, 2] becomes
   * an integer vector: the scalar branch disagrees with r_scalar_type and
   * with the list branch. ScalarToR builds the type r_scalar_type names.
   */
  lemma IntScalarWidened()
    ensures WrappedScalarType(PyInt(1)) == RealSxp != RScalarType(PyInt(1))
    ensures ListToR([PyInt(1), PyInt(2)]) == Ok(IntVec([1, 2], NoAttrs))
    ensures ScalarToR(PyInt(1)) == IntVec([1], NoAttrs)
  {
    var items := [PyInt(1), PyInt(2)];
    assert RScalarType(items[0]) == IntSxp && RScalarType(items[1]) == IntSxp;
    assert ScalarListKind(items) == IntSxp;
    var v := VectorOf(items, IntSxp);
    assert v.Element(0) == IntVec([1], NoAttrs) && v.Element(1) == IntVec([2], NoAttrs);
    assert v.ints == [1, 2];
  }

  /**
   * A homogeneous list as a flat R vector: element i is the scalar
   * conversion of item i.
   */
  function VectorOf(items: seq<PyValue>, kind: SexpType): (r: RValue)
    requires IsScalarType(kind)
    requires |items| > 0 && forall i :: 0 <= i < |items| ==> RScalarType(items[i]) == kind
    ensures r.Type() == kind && r.Length() == |items| && r.HasAttrs() && r.attrs == NoAttrs
    ensures forall i :: 0 <= i < |items| ==> r.Element(i) == ScalarToR(items[i])
  {
    var n := |items|;
    if kind == RealSxp then
      assert forall i :: 0 <= i < n ==> RScalarType(items[i]) == RealSxp && items[i].PyFloat?;
      RealVec(seq(n, i requires 0 <= i < n && items[i].PyFloat? => items[i].d), NoAttrs)
    else if kind == IntSxp then
      assert forall i :: 0 <= i < n ==> RScalarType(items[i]) == IntSxp && items[i].PyInt?;
      IntVec(seq(n, i requires 0 <= i < n && items[i].PyInt? => items[i].i), NoAttrs)
    else if kind == LglSxp then
      LglVec(seq(n, i requires 0 <= i < n => items[i] == PyBool(true)), NoAttrs)
    else
      assert forall i :: 0 <= i < n ==> RScalarType(items[i]) == StrSxp && items[i].PyStr?;
      StrVec(seq(n, i requires 0 <= i < n && items[i].PyStr? => items[i].s), NoAttrs)
  }

  /** The names a tuple's list gets: `_fields`, when it is a tuple of the same length. */
  function TupleNames(fields: Fields, len: nat): Option<seq<string>> {
    if fields.FieldTuple? && |fields.names| == len then Some(fields.names) else None
  }

  /** Elements of an R list with their names, as Rcpp's `list[name] = value` leaves them. */
  datatype Named = Named(names: seq<string>, vals: seq<RValue>)

  /** Index of the first element called `k`. */
  function NameIndex(names: seq<string>, k: string): (i: int)
    ensures -1 <= i < |names|
    ensures i >= 0 ==> names[i] == k && forall j :: 0 <= j < i ==> names[j] != k
    ensures i < 0 <==> k !in names
  {
    if names == [] then -1
    else if names[0] == k then 0
    else var j := NameIndex(names[1..], k); if j < 0 then -1 else j + 1
  }

  /** `list[k] = v`: overwrite the first element called k, or append one. */
  function Assign(l: Named, k: string, v: RValue): Named
    requires |l.names| == |l.vals|
  {
    var i := NameIndex(l.names, k);
    if i < 0 then Named(l.names + [k], l.vals + [v])
    else Named(l.names, l.vals[i := v])
  }

  /** The dict loop: one `list[key] = value` per entry, in iteration order. */
  function AssignAll(keys: seq<string>, vals: seq<RValue>): (l: Named)
    requires |keys| == |vals|
    ensures |l.names| == |l.vals| <= |vals|
    ensures (forall i :: 0 <= i < |vals| ==> vals[i].Valid()) ==>
      forall i :: 0 <= i < |l.vals| ==> l.vals[i].Valid()
  {
    if keys == [] then Named([], [])
    else Assign(AssignAll(keys[..|keys| - 1], vals[..|vals| - 1]), keys[|keys| - 1], vals[|vals| - 1])
  }

  /** Assignment keeps one element per name: the names stay distinct and are exactly the keys assigned. */
  lemma {:induction false} AssignAllNames(keys: seq<string>, vals: seq<RValue>)
    requires |keys| == |vals|
    ensures Distinct(AssignAll(keys, vals).names)
    ensures forall k :: k in AssignAll(keys, vals).names <==> k in keys
  {
    if keys != [] {
      var n := |keys| - 1;
      AssignAllNames(keys[..n], vals[..n]);
      var l := AssignAll(keys[..n], vals[..n]);
      assert keys == keys[..n] + [keys[n]];
      if NameIndex(l.names, keys[n]) < 0 {
        assert Distinct(l.names + [keys[n]]);
      }
    }
  }

  /** Keys that are already distinct are assigned in order, each to its own element. */
  lemma {:induction false} AssignAllDistinct(keys: seq<string>, vals: seq<RValue>)
    requires |keys| == |vals| && Distinct(keys)
    ensures AssignAll(keys, vals) == Named(keys, vals)
  {
    if keys != [] {
      var n := |keys| - 1;
      DistinctLast(keys);
      AssignAllDistinct(keys[..n], vals[..n]);
      AssignAppends(Named(keys[..n], vals[..n]), keys[n], vals[n]);
      assert keys[..n] + [keys[n]] == keys && vals[..n] + [vals[n]] == vals;
    }
  }

  lemma AssignAppends(l: Named, k: string, v: RValue)
    requires |l.names| == |l.vals| && k !in l.names
    ensures Assign(l, k, v) == Named(l.names + [k], l.vals + [v])
  {
  }

  /** The R list a dict becomes; a list nothing was assigned to has no names. */
  function DictList(keys: seq<string>, vals: seq<RValue>): (r: RValue)
    requires |keys| == |vals|
    ensures r.RList? && |r.elems| <= |vals| && r.attrs.dim.None?
    ensures (forall i :: 0 <= i < |vals| ==> vals[i].Valid()) ==> r.Valid()
    ensures r.attrs.names.Some? <==> |keys| > 0
    ensures |keys| > 0 ==> Distinct(r.attrs.names.value) && forall k :: k in r.attrs.names.value <==> k in keys
    ensures Distinct(keys) ==> r.elems == vals && (|keys| > 0 ==> r.attrs.names == Some(keys))
  {
    if keys == [] then RList([], NoAttrs)
    else
      var l := AssignAll(keys, vals);
      AssignAllNames(keys, vals);
      if Distinct(keys) then AssignAllDistinct(keys, vals); RList(l.vals, Attrs(None, Some(l.names)))
      else RList(l.vals, Attrs(None, Some(l.names)))
  }

  /**
   * A numpy array as an R array: the type is normalised (or refused, naming
   * the type number), the array is cast to a Fortran-ordered copy, and every
   * element of that copy is taken in index order; `dim` is the array's shape.
   * A 0-d array has an empty shape, which R refuses as a `dim`.
   */
  function ArrayToR(a: NdArray): (r: Result<RValue, Error>)
    ensures r.Err? <==> NormalizeType(a.typenum).None? || a.dims == []
    ensures NormalizeType(a.typenum).None? ==> r == Err(UnsupportedArrayType(a.typenum))
    ensures NormalizeType(a.typenum).Some? && a.dims == [] ==> r == Err(EmptyDim)
    ensures r.Ok? ==> r.value.Valid() && r.value.HasAttrs() && r.value.attrs == Attrs(Some(a.dims), None)
    ensures r.Ok? ==> r.value.Length() == Prod(a.dims)
  {
    match NormalizeType(a.typenum)
    case None => Err(UnsupportedArrayType(a.typenum))
    case Some(t) =>
      if a.dims == [] then Err(EmptyDim) else
      var buf := CastToFortran(a, t).data;
      var attrs := Attrs(Some(a.dims), None);
      if t == NPY_BOOL then Ok(LglVec(Logicals(buf), attrs))
      else if t == NPY_LONG then Ok(IntVec(Integers(buf), attrs))
      else Ok(RealVec(Reals(buf), attrs))
  }

  /** Storage position p of the R vector v holds the value of the numpy element e. */
  predicate HoldsAt(v: RValue, p: nat, e: NpyElem) {
    match e
    case EBool(b) => v.LglVec? && p < |v.lgl| && v.lgl[p] == b
    case EInt(i) => v.IntVec? && p < |v.ints| && v.ints[p] == i
    case EReal(d) => v.RealVec? && p < |v.reals| && v.reals[p] == d
    case EOther => false
  }

  /**
   * Whatever the array's layout and accepted element type, R finds the
   * element at index `idx` at the column-major position of `idx`, as a
   * logical, an integer or a double according to the normalised type.
   */
  lemma ArrayToRKeepsIndices(a: NdArray, idx: seq<nat>)
    requires ArrayToR(a).Ok? && InBounds(a.dims, idx)
    ensures HoldsAt(ArrayToR(a).value, FOffset(a.dims, idx), ElementAt(a, idx))
  {
    FortranCopyKeepsIndices(a, idx);
    var buf := CastToFortran(a, NormalizeType(a.typenum).value).data;
    var p := FOffset(a.dims, idx);
    assert buf[p] == ElementAt(a, idx) && Fits(a.typenum, buf[p]);
  }

  // The storage of the R vector an array's elements are copied into.

  function Logicals(buf: seq<NpyElem>): seq<bool>
    requires forall i :: 0 <= i < |buf| ==> buf[i].EBool?
  {
    seq(|buf|, i requires 0 <= i < |buf| => buf[i].b)
  }

  function Integers(buf: seq<NpyElem>): seq<int>
    requires forall i :: 0 <= i < |buf| ==> buf[i].EInt?
  {
    seq(|buf|, i requires 0 <= i < |buf| => buf[i].i)
  }

  function Reals(buf: seq<NpyElem>): seq<Double>
    requires forall i :: 0 <= i < |buf| ==> buf[i].EReal?
  {
    seq(|buf|, i requires 0 <= i < |buf| => buf[i].d)
  }

  /** The two ways py_to_r refuses an array: its element type, or an empty shape. */
  predicate ArrayRefusal(e: Error) {
    (e.UnsupportedArrayType? && NormalizeType(e.typenum).None?) || e == EmptyDim
  }

  /** No array the bridge refuses (by element type or by shape) occurs in x. */
  predicate ArraysSupported(x: PyValue)
    decreases x
  {
    match x
    case PyArray(a) => NormalizeType(a.typenum).Some? && a.dims != []
    case PyList(items) => forall i :: 0 <= i < |items| ==> ArraysSupported(items[i])
    case PyTuple(items, _) => forall i :: 0 <= i < |items| ==> ArraysSupported(items[i])
    case PyDict(entries) => forall i :: 0 <= i < |entries| ==> ArraysSupported(entries[i].value)
    case _ => true
  }

  /**
   * py_to_r, checking in order: None, scalar, list, tuple, dict, numpy
   * array, and anything else as an opaque handle. It fails exactly when an
   * array the bridge refuses occurs somewhere in x, and what it builds
   * is a well-formed R value.
   */
  function PyToR(x: PyValue): (r: Result<RValue, Error>)
    ensures r.Ok? <==> ArraysSupported(x)
    ensures r.Ok? ==> r.value.Valid()
    ensures r.Err? ==> ArrayRefusal(r.error)
    decreases x
  {
    if x.PyNone? then Ok(RNull)
    else if RScalarType(x) != NilSxp then Ok(ScalarToR(x))
    else match x
      case PyList(items) => ListToR(items)
      case PyTuple(items, fields) => TupleToR(items, fields)
      case PyDict(entries) => DictToR(entries)
      case PyArray(a) => ArrayToR(a)
      case Other(o) => Ok(XPtr(o))
  }

  /** A list: a flat vector when its items share one scalar type, a generic list otherwise. */
  function ListToR(items: seq<PyValue>): (r: Result<RValue, Error>)
    ensures r.Ok? <==> forall i :: 0 <= i < |items| ==> ArraysSupported(items[i])
    ensures r.Ok? ==> r.value.Valid()
    ensures ScalarListKind(items) != NilSxp ==> r == Ok(VectorOf(items, ScalarListKind(items)))
    ensures ScalarListKind(items) == NilSxp && r.Ok? ==>
      && r.value.RList? && r.value.attrs == NoAttrs && |r.value.elems| == |items|
      && forall i :: 0 <= i < |items| ==> PyToR(items[i]) == Ok(r.value.elems[i])
    ensures r.Err? ==> ArrayRefusal(r.error)
    decreases items, 1
  {
    var kind := ScalarListKind(items);
    if kind != NilSxp then Ok(VectorOf(items, kind))
    else
      var rs := ConvertSeq(items);
      if rs.Err? then Err(rs.error) else Ok(RList(rs.value, NoAttrs))
  }

  /**
   * A tuple: a generic list of its items converted, named by `_fields`
   * exactly when `_fields` is a tuple of the same length.
   */
  function TupleToR(items: seq<PyValue>, fields: Fields): (r: Result<RValue, Error>)
    ensures r.Ok? <==> forall i :: 0 <= i < |items| ==> ArraysSupported(items[i])
    ensures r.Ok? ==> r.value.Valid()
    ensures r.Ok? ==>
      && r.value.RList? && |r.value.elems| == |items|
      && forall i :: 0 <= i < |items| ==> PyToR(items[i]) == Ok(r.value.elems[i])
    ensures r.Ok? ==>
      && r.value.attrs.dim.None?
      && (r.value.attrs.names.Some? <==> fields.FieldTuple? && |fields.names| == |items|)
      && (r.value.attrs.names.Some? ==> r.value.attrs.names.value == fields.names)
    ensures r.Err? ==> ArrayRefusal(r.error)
    decreases items, 1
  {
    var rs := ConvertSeq(items);
    if rs.Err? then Err(rs.error)
    else Ok(RList(rs.value, Attrs(None, TupleNames(fields, |items|))))
  }

  /**
   * A dict: a list built by assigning each converted value under its key.
   * An empty dict gives an unnamed empty list; otherwise the names are the
   * keys, each once, and distinct keys keep one element per entry.
   */
  function DictToR(entries: seq<Entry>): (r: Result<RValue, Error>)
    ensures r.Ok? <==> forall i :: 0 <= i < |entries| ==> ArraysSupported(entries[i].value)
    ensures r.Ok? ==> r.value.Valid()
    ensures r.Ok? ==> r.value.RList? && r.value.attrs.dim.None? && (r.value.attrs.names.Some? <==> |entries| > 0)
    ensures r.Ok? && |entries| > 0 ==>
      && Distinct(r.value.attrs.names.value)
      && forall k :: k in r.value.attrs.names.value <==> k in Keys(entries)
    ensures r.Ok? && Distinct(Keys(entries)) ==>
      && |r.value.elems| == |entries|
      && (|entries| > 0 ==> r.value.attrs.names == Some(Keys(entries)))
      && forall i :: 0 <= i < |entries| ==> PyToR(entries[i].value) == Ok(r.value.elems[i])
    ensures r.Err? ==> ArrayRefusal(r.error)
    decreases entries, 1
  {
    var rs := ConvertEntries(entries);
    if rs.Err? then Err(rs.error) else Ok(DictList(Keys(entries), rs.value))
  }

  /** Items converted one by one; the first failure stops the conversion. */
  function ConvertSeq(items: seq<PyValue>): (r: Result<seq<RValue>, Error>)
    ensures r.Ok? <==> forall i :: 0 <= i < |items| ==> ArraysSupported(items[i])
    ensures r.Ok? ==> |r.value| == |items|
    ensures r.Ok? ==> forall i {:trigger PyToR(items[i])} :: 0 <= i < |items| ==> PyToR(items[i]) == Ok(r.value[i])
    ensures r.Ok? ==> forall i :: 0 <= i < |r.value| ==> r.value[i].Valid()
    ensures r.Err? ==> ArrayRefusal(r.error)
    decreases items, 0
  {
    if items == [] then Ok([])
    else
      var init := ConvertSeq(items[..|items| - 1]);
      if init.Err? then init
      else
        var last := PyToR(items[|items| - 1]);
        if last.Err? then Err(last.error) else Ok(init.value + [last.value])
  }

  /** The values of a dict's entries converted one by one, in iteration order. */
  function ConvertEntries(entries: seq<Entry>): (r: Result<seq<RValue>, Error>)
    ensures r.Ok? <==> forall i :: 0 <= i < |entries| ==> ArraysSupported(entries[i].value)
    ensures r.Ok? ==> |r.value| == |entries|
    ensures r.Ok? ==> forall i :: 0 <= i < |entries| ==> PyToR(entries[i].value) == Ok(r.value[i])
    ensures r.Err? ==> ArrayRefusal(r.error)
    decreases entries, 0
  {
    if entries == [] then Ok([])
    else
      var init := ConvertEntries(entries[..|entries| - 1]);
      if init.Err? then init
      else
        var last := PyToR(entries[|entries| - 1].value);
        if last.Err? then Err(last.error) else Ok(init.value + [last.value])
  }

  // Reference counts.

  /** The opaque objects in x: py_to_r takes one new reference to each, for the handle it makes. */
  function HandleRefs(x: PyValue): multiset<RefKey>
    decreases x
  {
    match x
    case Other(o) => multiset{ObjRef(o.id)}
    case PyList(items) => if ScalarListKind(items) != NilSxp then multiset{} else HandleRefsSeq(items)
    case PyTuple(items, _) => HandleRefsSeq(items)
    case PyDict(entries) => HandleRefsEntries(entries)
    case _ => multiset{}
  }

  function HandleRefsSeq(items: seq<PyValue>): multiset<RefKey>
    decreases items
  {
    if items == [] then multiset{}
    else HandleRefsSeq(items[..|items| - 1]) + HandleRefs(items[|items| - 1])
  }

  function HandleRefsEntries(entries: seq<Entry>): multiset<RefKey>
    decreases entries
  {
    if entries == [] then multiset{}
    else HandleRefsEntries(entries[..|entries| - 1]) + HandleRefs(entries[|entries| - 1].value)
  }

  lemma {:induction false} HandleRefsSeqPrefix(items: seq<PyValue>, i: nat)
    requires i < |items|
    ensures HandleRefsSeq(items[..i]) + HandleRefs(items[i]) <= HandleRefsSeq(items)
    decreases |items|
  {
    var n := |items|;
    if i < n - 1 {
      assert items[..n - 1][..i] == items[..i];
      HandleRefsSeqPrefix(items[..n - 1], i);
    } else {
      assert items[..n - 1] == items[..i];
    }
  }

  lemma {:induction false} HandleRefsEntriesPrefix(entries: seq<Entry>, i: nat)
    requires i < |entries|
    ensures HandleRefsEntries(entries[..i]) + HandleRefs(entries[i].value) <= HandleRefsEntries(entries)
    decreases |entries|
  {
    var n := |entries|;
    if i < n - 1 {
      assert entries[..n - 1][..i] == entries[..i];
      HandleRefsEntriesPrefix(entries[..n - 1], i);
    } else {
      assert entries[..n - 1] == entries[..i];
    }
  }

  /** Once an item fails to convert, the conversion of the whole sequence fails with its error. */
  lemma {:induction false} ConvertSeqStops(items: seq<PyValue>, i: nat)
    requires i <= |items| && ConvertSeq(items[..i]).Err?
    ensures ConvertSeq(items) == ConvertSeq(items[..i])
    decreases |items|
  {
    var n := |items|;
    if i < n {
      var init := items[..n - 1];
      assert init[..i] == items[..i];
      ConvertSeqStops(init, i);
      assert ConvertSeq(init).Err?;
    } else {
      assert items[..i] == items;
    }
  }

  lemma {:induction false} ConvertEntriesStops(entries: seq<Entry>, i: nat)
    requires i <= |entries| && ConvertEntries(entries[..i]).Err?
    ensures ConvertEntries(entries) == ConvertEntries(entries[..i])
    decreases |entries|
  {
    var n := |entries|;
    if i < n {
      var init := entries[..n - 1];
      assert init[..i] == entries[..i];
      ConvertEntriesStops(init, i);
      assert ConvertEntries(init).Err?;
    } else {
      assert entries[..i] == entries;
    }
  }

  /** One more item converted: the sequence's conversion and its handles grow by that item's. */
  lemma ConvertSeqStep(items: seq<PyValue>, i: nat)
    requires i < |items| && ConvertSeq(items[..i]).Ok?
    ensures ConvertSeq(items[..i + 1]) ==
      if PyToR(items[i]).Err? then Err(PyToR(items[i]).error)
      else Ok(ConvertSeq(items[..i]).value + [PyToR(items[i]).value])
    ensures HandleRefsSeq(items[..i + 1]) == HandleRefsSeq(items[..i]) + HandleRefs(items[i])
  {
    assert items[..i + 1][..i] == items[..i];
  }

  /** One more converted item: the sequence so far grows by its value and the interpreter by its handles. */
  lemma ConvertSeqGrows(base: multiset<RefKey>, items: seq<PyValue>, i: nat, done: seq<RValue>)
    requires i < |items| && ConvertSeq(items[..i]) == Ok(done) && PyToR(items[i]).Ok?
    ensures ConvertSeq(items[..i + 1]) == Ok(done + [PyToR(items[i]).value])
    ensures base + HandleRefsSeq(items[..i]) + HandleRefs(items[i]) == base + HandleRefsSeq(items[..i + 1])
  {
    ConvertSeqStep(items, i);
    GrowRefs(base, HandleRefsSeq(items[..i]), HandleRefs(items[i]));
  }

  lemma ConvertEntriesStep(entries: seq<Entry>, i: nat)
    requires i < |entries| && ConvertEntries(entries[..i]).Ok?
    ensures ConvertEntries(entries[..i + 1]) ==
      if PyToR(entries[i].value).Err? then Err(PyToR(entries[i].value).error)
      else Ok(ConvertEntries(entries[..i]).value + [PyToR(entries[i].value).value])
    ensures HandleRefsEntries(entries[..i + 1]) == HandleRefsEntries(entries[..i]) + HandleRefs(entries[i].value)
    ensures Keys(entries[..i + 1]) == Keys(entries[..i]) + [entries[i].key]
  {
    assert entries[..i + 1][..i] == entries[..i];
  }

  /** An item that fails to convert fails the whole sequence, after the handles made before it. */
  lemma ConvertSeqFailsAt(items: seq<PyValue>, i: nat)
    requires i < |items| && ConvertSeq(items[..i]).Ok? && PyToR(items[i]).Err?
    ensures ConvertSeq(items) == Err(PyToR(items[i]).error)
    ensures HandleRefsSeq(items[..i]) + HandleRefs(items[i]) <= HandleRefsSeq(items)
  {
    ConvertSeqStep(items, i);
    ConvertSeqStops(items, i + 1);
    HandleRefsSeqPrefix(items, i);
  }

  /** The failing item ends the loop: its error is the sequence's, and the handles made so far are within the whole. */
  lemma ConvertSeqFails(base: multiset<RefKey>, now: multiset<RefKey>, items: seq<PyValue>, i: nat)
    requires i < |items| && ConvertSeq(items[..i]).Ok? && PyToR(items[i]).Err?
    requires base + HandleRefsSeq(items[..i]) <= now <= base + HandleRefsSeq(items[..i]) + HandleRefs(items[i])
    ensures ConvertSeq(items) == Err(PyToR(items[i]).error)
    ensures base <= now <= base + HandleRefsSeq(items)
  {
    ConvertSeqFailsAt(items, i);
    BoundRefs(base, HandleRefsSeq(items[..i]), HandleRefs(items[i]), now, HandleRefsSeq(items));
  }

  lemma ConvertEntriesFailsAt(entries: seq<Entry>, i: nat)
    requires i < |entries| && ConvertEntries(entries[..i]).Ok? && PyToR(entries[i].value).Err?
    ensures ConvertEntries(entries) == Err(PyToR(entries[i].value).error)
    ensures HandleRefsEntries(entries[..i]) + HandleRefs(entries[i].value) <= HandleRefsEntries(entries)
  {
    ConvertEntriesStep(entries, i);
    ConvertEntriesStops(entries, i + 1);
    HandleRefsEntriesPrefix(entries, i);
  }

  // The procedure.

  /**
   * py_to_r. Each opaque object met gets one new reference, owned by its R
   * handle; the numpy copy made for an array is released before returning.
   * A failure can stop the conversion after some handles were made.
   */
  method ConvertToR(rt: Interpreter, x: PyValue) returns (r: Result<RValue, Error>)
    modifies rt
    ensures r == PyToR(x)
    ensures rt.pending == old(rt.pending)
    ensures r.Ok? ==> rt.refs == old(rt.refs) + HandleRefs(x)
    ensures r.Err? ==> old(rt.refs) <= rt.refs <= old(rt.refs) + HandleRefs(x)
    decreases x, 2
  {
    if x.PyNone? {
      return Ok(RNull);
    }
    var scalarType := RScalarType(x);
    if scalarType != NilSxp {
      if scalarType == LglSxp {
        r := Ok(LglVec([x == PyBool(true)], NoAttrs));
      } else if scalarType == IntSxp {
        r := Ok(IntVec([x.i], NoAttrs));
      } else if scalarType == RealSxp {
        r := Ok(RealVec([x.d], NoAttrs));
      } else {
        r := Ok(StrVec([x.s], NoAttrs));
      }
    } else if x.ListCheck() {
      var items := x.items;
      var kind := ScalarListType(items);
      if kind != NilSxp {
        var v := FillVector(items, kind);
        r := Ok(v);
      } else {
        var rs := ConvertItems(rt, items);
        r := if rs.Err? then Err(rs.error) else Ok(RList(rs.value, NoAttrs));
      }
    } else if x.TupleCheck() {
      var rs := ConvertItems(rt, x.items);
      if rs.Err? {
        r := Err(rs.error);
      } else {
        var names := None;
        if x.fields.FieldTuple? && |x.fields.names| == |x.items| {
          names := Some(x.fields.names);
        }
        r := Ok(RList(rs.value, Attrs(None, names)));
      }
    } else if x.DictCheck() {
      r := ConvertDict(rt, x.entries);
    } else if x.ArrayCheck() {
      r := ConvertArray(rt, x.arr);
    } else {
      rt.IncRef(x);
      r := Ok(XPtr(x.obj));
    }
  }

  /** Rcpp::List list(len) filled by converting each item in turn. */
  method ConvertItems(rt: Interpreter, items: seq<PyValue>) returns (r: Result<seq<RValue>, Error>)
    modifies rt
    ensures r == ConvertSeq(items)
    ensures rt.pending == old(rt.pending)
    ensures r.Ok? ==> rt.refs == old(rt.refs) + HandleRefsSeq(items)
    ensures r.Err? ==> old(rt.refs) <= rt.refs <= old(rt.refs) + HandleRefsSeq(items)
    decreases items, 1
  {
    var list := new RValue[|items|](_ => RNull);
    ghost var done: seq<RValue> := [];
    var i := 0;
    while i < |items|
      invariant 0 <= i <= |items|
      invariant ConvertSeq(items[..i]) == Ok(done)
      invariant list[..i] == done
      invariant rt.refs == old(rt.refs) + HandleRefsSeq(items[..i]) && rt.pending == old(rt.pending)
      modifies rt, list
    {
      var v := ConvertItem(rt, items, i, old(rt.refs), done);
      if v.Err? {
        return Err(v.error);
      }
      list[i] := v.value;
      done := done + [v.value];
      i := i + 1;
    }
    assert items[..i] == items && list[..] == list[..i];
    r := Ok(list[..]);
  }

  /** One turn of the loop above: item i converted, with what it means for the whole sequence. */
  method ConvertItem(rt: Interpreter, items: seq<PyValue>, i: nat, ghost base: multiset<RefKey>, ghost done: seq<RValue>)
    returns (v: Result<RValue, Error>)
    requires i < |items| && ConvertSeq(items[..i]) == Ok(done)
    requires rt.refs == base + HandleRefsSeq(items[..i])
    modifies rt
    ensures rt.pending == old(rt.pending)
    ensures v.Ok? ==> ConvertSeq(items[..i + 1]) == Ok(done + [v.value])
    ensures v.Ok? ==> rt.refs == base + HandleRefsSeq(items[..i + 1])
    ensures v.Err? ==> ConvertSeq(items) == Err(v.error) && base <= rt.refs <= base + HandleRefsSeq(items)
    decreases items, 0
  {
    v := ConvertToR(rt, items[i]);
    if v.Err? {
      ConvertSeqFails(base, rt.refs, items, i);
    } else {
      ConvertSeqGrows(base, items, i, done);
    }
  }

  /** The dict loop: `list[key] = py_to_r(value)` for each entry in iteration order. */
  method ConvertDict(rt: Interpreter, entries: seq<Entry>) returns (r: Result<RValue, Error>)
    modifies rt
    ensures r == DictToR(entries)
    ensures rt.pending == old(rt.pending)
    ensures r.Ok? ==> rt.refs == old(rt.refs) + HandleRefsEntries(entries)
    ensures r.Err? ==> old(rt.refs) <= rt.refs <= old(rt.refs) + HandleRefsEntries(entries)
    decreases entries, 1
  {
    var list := Named([], []);
    ghost var done: seq<RValue> := [];
    var i := 0;
    while i < |entries|
      invariant 0 <= i <= |entries|
      invariant ConvertEntries(entries[..i]) == Ok(done)
      invariant list == AssignAll(Keys(entries[..i]), done)
      invariant rt.refs == old(rt.refs) + HandleRefsEntries(entries[..i]) && rt.pending == old(rt.pending)
      modifies rt
    {
      var v := ConvertToR(rt, entries[i].value);
      if v.Err? {
        ConvertEntriesFailsAt(entries, i);
        BoundRefs(old(rt.refs), HandleRefsEntries(entries[..i]), HandleRefs(entries[i].value), rt.refs,
                  HandleRefsEntries(entries));
        return Err(v.error);
      }
      ConvertEntriesStep(entries, i);
      GrowRefs(old(rt.refs), HandleRefsEntries(entries[..i]), HandleRefs(entries[i].value));
      assert (Keys(entries[..i]) + [entries[i].key])[..i] == Keys(entries[..i]);
      assert (done + [v.value])[..i] == done;
      list := Assign(list, entries[i].key, v.value);
      done := done + [v.value];
      i := i + 1;
    }
    assert entries[..i] == entries;
    if i == 0 {
      r := Ok(RList([], NoAttrs));
    } else {
      r := Ok(RList(list.vals, Attrs(None, Some(list.names))));
    }
  }

  /** The homogeneous-list branch: a vector of length len filled item by item. */
  method FillVector(items: seq<PyValue>, kind: SexpType) returns (v: RValue)
    requires IsScalarType(kind)
    requires |items| > 0 && forall i :: 0 <= i < |items| ==> RScalarType(items[i]) == kind
    ensures v == VectorOf(items, kind)
  {
    var len := |items|;
    if kind == RealSxp {
      var vec := new Double[len](_ => Double(0));
      for i := 0 to len
        invariant forall k :: 0 <= k < i ==> RScalarType(items[k]) == RealSxp && vec[k] == items[k].d
        modifies vec
      {
        vec[i] := items[i].d;
      }
      v := RealVec(vec[..], NoAttrs);
    } else if kind == IntSxp {
      var vec := new int[len];
      for i := 0 to len
        invariant forall k :: 0 <= k < i ==> RScalarType(items[k]) == IntSxp && vec[k] == items[k].i
        modifies vec
      {
        vec[i] := items[i].i;
      }
      v := IntVec(vec[..], NoAttrs);
    } else if kind == LglSxp {
      var vec := new bool[len];
      for i := 0 to len
        invariant forall k :: 0 <= k < i ==> vec[k] == (items[k] == PyBool(true))
        modifies vec
      {
        vec[i] := items[i] == PyBool(true);
      }
      v := LglVec(vec[..], NoAttrs);
    } else {
      var vec := new string[len];
      for i := 0 to len
        invariant forall k :: 0 <= k < i ==> RScalarType(items[k]) == StrSxp && vec[k] == items[k].s
        modifies vec
      {
        vec[i] := items[i].s;
      }
      v := StrVec(vec[..], NoAttrs);
    }
  }

  /**
   * The numpy branch: normalise the type (or stop), cast to a Fortran copy
   * held by a guard, allocate the R array with the same dims and copy the
   * elements in storage order; the guard releases the copy.
   */
  method ConvertArray(rt: Interpreter, a: NdArray) returns (r: Result<RValue, Error>)
    modifies rt
    ensures r == ArrayToR(a)
    ensures rt.refs == old(rt.refs) && rt.pending == old(rt.pending)
  {
    var typenum := NormalizeType(a.typenum);
    if typenum.None? {
      return Err(UnsupportedArrayType(a.typenum));
    }
    var t := typenum.value;
    var copy := CastToFortran(a, t);
    var ptrArray := new PyObjectPtr(rt, Some(PyArray(copy)));
    var attrs := Attrs(Some(a.dims), None);
    if a.dims == [] {
      r := Err(EmptyDim);
    } else if t == NPY_BOOL {
      var data := CopyLogicals(copy.data);
      r := Ok(LglVec(data, attrs));
    } else if t == NPY_LONG {
      var data := CopyIntegers(copy.data);
      r := Ok(IntVec(data, attrs));
    } else {
      var data := CopyReals(copy.data);
      r := Ok(RealVec(data, attrs));
    }
    ptrArray.Destroy();
  }

  /** LOGICAL(rArray)[i] = pData[i] over a freshly allocated logical vector. */
  method CopyLogicals(pData: seq<NpyElem>) returns (v: seq<bool>)
    requires forall i :: 0 <= i < |pData| ==> pData[i].EBool?
    ensures v == Logicals(pData)
  {
    var rArray := new bool[|pData|];
    for i := 0 to |pData|
      invariant forall k :: 0 <= k < i ==> rArray[k] == pData[k].b
      modifies rArray
    {
      rArray[i] := pData[i].b;
    }
    v := rArray[..];
  }

  /** INTEGER(rArray)[i] = pData[i] over a freshly allocated integer vector. */
  method CopyIntegers(pData: seq<NpyElem>) returns (v: seq<int>)
    requires forall i :: 0 <= i < |pData| ==> pData[i].EInt?
    ensures v == Integers(pData)
  {
    var rArray := new int[|pData|];
    for i := 0 to |pData|
      invariant forall k :: 0 <= k < i ==> rArray[k] == pData[k].i
      modifies rArray
    {
      rArray[i] := pData[i].i;
    }
    v := rArray[..];
  }

  /** REAL(rArray)[i] = pData[i] over a freshly allocated double vector. */
  method CopyReals(pData: seq<NpyElem>) returns (v: seq<Double>)
    requires forall i :: 0 <= i < |pData| ==> pData[i].EReal?
    ensures v == Reals(pData)
  {
    var rArray := new Double[|pData|](_ => Double(0));
    for i := 0 to |pData|
      invariant forall k :: 0 <= k < i ==> rArray[k] == pData[k].d
      modifies rArray
    {
      rArray[i] := pData[i].d;
    }
    v := rArray[..];
  }
}
