/**
 * The two object models the bridge converts between: Python values (what a
 * PyObject* points at) and R values (what a SEXP points at).
 */
module Values {
  import opened Wrappers
  import opened Numpy

  type ObjId = nat

  /** `__class__.__module__` and `__class__.__name__` of an object. */
  datatype ClassName = ClassName(moduleName: string, name: string)

  /**
   * An object the bridge does not look inside: its identity, its class when
   * it exposes `__class__`, and whether it is callable.
   */
  datatype PyObject = PyObject(id: ObjId, klass: Option<ClassName>, callable: bool)

  /** The `_fields` attribute of a tuple: absent, a tuple of field names, or some other object. */
  datatype Fields = NoFields | FieldTuple(names: seq<string>) | FieldOther

  /**
   * A Python value. PyInt stands for both `int` and `long`, PyStr for `str`.
   * A dict is its entries in the dict's own iteration order.
   */
  datatype PyValue =
    | PyNone
    | PyBool(b: bool)
    | PyInt(i: int)
    | PyFloat(d: Double)
    | PyStr(s: string)
    | PyList(items: seq<PyValue>)
    | PyTuple(items: seq<PyValue>, fields: Fields)
    | PyDict(entries: seq<Entry>)
    | PyArray(arr: NdArray)
    | Other(obj: PyObject)
  {
    // The type checks of the C API. `bool` is a subclass of `int`, so
    // PyInt_Check holds of a bool as well.
    predicate BoolCheck() { PyBool? }
    predicate IntCheck() { PyInt? || PyBool? }
    predicate FloatCheck() { PyFloat? }
    predicate StringCheck() { PyStr? }
    predicate ListCheck() { PyList? }
    predicate TupleCheck() { PyTuple? }
    predicate DictCheck() { PyDict? }
    predicate ArrayCheck() { PyArray? }
    predicate CallableCheck() { Other? && obj.callable }
  }

  /** A dict entry with a string key. */
  datatype Entry = Entry(key: string, value: PyValue)

  /** R's SEXPTYPE codes that the bridge tests for. */
  datatype SexpType = NilSxp | LglSxp | IntSxp | RealSxp | StrSxp | VecSxp | ExtPtrSxp

  /** The `dim` and `names` attributes of an R vector. */
  datatype Attrs = Attrs(dim: Option<seq<nat>>, names: Option<seq<string>>)

  const NoAttrs := Attrs(None, None)

  /**
   * An R value. Logical NA is not modelled. A PyHandle is the external
   * pointer py_xptr makes, with its `class` attribute.
   */
  datatype RValue =
    | RNull
    | LglVec(lgl: seq<bool>, attrs: Attrs)
    | IntVec(ints: seq<int>, attrs: Attrs)
    | RealVec(reals: seq<Double>, attrs: Attrs)
    | StrVec(strs: seq<string>, attrs: Attrs)
    | RList(elems: seq<RValue>, attrs: Attrs)
    | PyHandle(obj: PyObject, classes: seq<string>)
  {
    function Type(): SexpType {
      match this
      case RNull => NilSxp
      case LglVec(_, _) => LglSxp
      case IntVec(_, _) => IntSxp
      case RealVec(_, _) => RealSxp
      case StrVec(_, _) => StrSxp
      case RList(_, _) => VecSxp
      case PyHandle(_, _) => ExtPtrSxp
    }

    /** LENGTH of the vector. */
    function Length(): nat {
      match this
      case RNull => 0
      case LglVec(v, _) => |v|
      case IntVec(v, _) => |v|
      case RealVec(v, _) => |v|
      case StrVec(v, _) => |v|
      case RList(v, _) => |v|
      case PyHandle(_, _) => 1
    }

    predicate HasAttrs() { !RNull? && !PyHandle? }

    /** Element i of an atomic vector, as a vector of length one. */
    function Element(i: nat): RValue
      requires (LglVec? || IntVec? || RealVec? || StrVec?) && i < Length()
    {
      match this
      case LglVec(v, _) => LglVec([v[i]], NoAttrs)
      case IntVec(v, _) => IntVec([v[i]], NoAttrs)
      case RealVec(v, _) => RealVec([v[i]], NoAttrs)
      case StrVec(v, _) => StrVec([v[i]], NoAttrs)
    }

    /**
     * What R itself guarantees of every value: a `dim` is not empty and
     * multiplies out to the length, and `names` has one entry per element.
     */
    predicate Valid() {
      && (HasAttrs() ==> AttrsFit(attrs, Length()))
      && (RList? ==> forall i :: 0 <= i < |elems| ==> elems[i].Valid())
    }
  }

  /** The keys of a dict, in its iteration order. */
  function Keys(entries: seq<Entry>): (ks: seq<string>)
    ensures |ks| == |entries| && forall i :: 0 <= i < |entries| ==> ks[i] == entries[i].key
  {
    seq(|entries|, i requires 0 <= i < |entries| => entries[i].key)
  }

  /** No two elements of s are equal. */
  predicate Distinct<T(==)>(s: seq<T>) {
    forall i, j :: 0 <= i < j < |s| ==> s[i] != s[j]
  }

  /** Dropping the last element keeps a sequence distinct, and that element is not among the rest. */
  lemma DistinctLast<T>(s: seq<T>)
    requires |s| > 0 && Distinct(s)
    ensures Distinct(s[..|s| - 1]) && s[|s| - 1] !in s[..|s| - 1]
  {
    var n := |s| - 1;
    assert forall j :: 0 <= j < n ==> s[..n][j] == s[j];
  }

  predicate AttrsFit(a: Attrs, len: nat) {
    && (a.dim.Some? ==> |a.dim.value| > 0 && Prod(a.dim.value) == len)
    && (a.names.Some? ==> |a.names.value| == len)
  }

  /** A pending Python exception, with the string form of its value if it has one. */
  datatype PyErr = PyErr(value: Option<string>)

  /** Why a conversion or a call stops (every `stop(...)` of the bridge). */
  datatype Error =
    | UnsupportedArrayType(typenum: int)  // "Conversion from numpy array type %d is not supported"
    | UnsupportedMatrixType               // "Matrix type cannot be converted to python ..."
    | UnconvertibleType                   // "Unable to convert R object to python type"
    | EmptyDim                            // R: "length-0 dimension vector is invalid"
    | NotCompatible                       // Rcpp: the NULL names of an unnamed list as a character vector
    | EmbeddedError(message: string)      // the rendering of a Python exception
}
