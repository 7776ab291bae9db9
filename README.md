# reticulate's value bridge, modelled in Dafny

This project models the core of reticulate's `src/python.cpp`: the code that
carries values between an embedded Python interpreter and R. It covers:

- the scalar and list classifiers (`r_scalar_type`, `scalar_list_type`);
- `py_to_r`, including the numpy dtype switch, the cast to a Fortran-ordered
  copy and the element copy into a fresh R array;
- `r_to_py`, including matrices handed to numpy, length-one vectors as
  scalars, longer vectors as lists, named lists as dicts and unnamed lists
  as tuples;
- the `PyObjectPtr` scope guard, as a class over an interpreter whose
  reference counts are ghost state;
- `py_fetch_error`, and the `class` vector `py_xptr` gives an opaque handle;
- `py_get_attribute_types` and `py_call`. The Python callable and
  `getattr` are abstract functions passed in as parameters.

Each converter is written twice:

- as a pure function of the value (`PyToR.PyToR`, `RToPy.RToPy`);
- as a procedure with the source's loops over pre-allocated vectors and its
  guards (`PyToR.ConvertToR`, `RToPy.ConvertToPy`), proved to compute that
  function.

The procedures also state their effect on the interpreter. The references
they add are exactly those the result owns. On a failure they release
everything they built, or, where the source does not, say how much stays
behind.

Module layout:

- `Wrappers`: `Option` and `Result`.
- `Numpy`: dtype codes, n-dimensional arrays, and the row-major to
  column-major copy.
- `Values`: the Python and R object models.
- `Classify`: the classifiers.
- `Runtime`: the interpreter, `PyObjectPtr`, `py_fetch_error`, and the
  container calls of the C API.
- `PyToR` and `RToPy`: the two converters.
- `Api`: `py_call` and `py_get_attribute_types`.
- `RoundTrip`: what a trip across the bridge and back keeps and what it
  changes.

Where the bridge's documented behaviour and its code disagree, the model
follows the code in these places:

- An R list with any `names` attribute becomes a dict.
- A keyword list without names fails before any keyword is stored. Its
  names are R's NULL, and Rcpp refuses to take NULL as a character vector.
- Handles are assumed valid. The code never checks them; it dereferences.
- A 0-d numpy array fails: R refuses the empty `dim` it would get.

In two places the code is wrong, and the main model takes the corrected
branch instead. Both are listed under Findings below, each with a model of
the code as written and a lemma showing where it goes wrong:

- `src/python.cpp:172-173`: an int scalar becomes a double vector as
  written. The main model gives the integer vector that `r_scalar_type`
  and the list branch call for (`PyToR.ScalarToR`).
- `src/python.cpp:374-391`: a logical matrix is read by numpy one byte per
  element over R's four-byte logicals as written. The main model hands
  numpy the logical values themselves (`RToPy.MatrixToPy`).

The round-trip statements in `RoundTrip` are about the corrected
converters. As written, Python `1` comes back as `1.0`, R `5L` comes back
as a double, and a logical matrix (TRUE, TRUE) comes back as (TRUE, FALSE).

A dict that r_to_py builds is modelled as iterating in insertion order.
Python 2 dicts iterate in hash order, so the order of a named list's
elements after a trip through Python is not part of what the model
promises (see "## Left out").

## Model

| member | source | states |
|---|---|---|
| Numpy.NormalizeType | src/python.cpp:261-286 | The dtype switch, each case as an if and only if. Bool stays bool. Byte, ubyte, short, ushort, int and long become `NPY_LONG`. Float and double become `NPY_DOUBLE`. Every other code is refused, including uint, ulong, longlong, ulonglong and longdouble. |
| Numpy.FToCOfFOffset | src/python.cpp:288-291 | Index `idx` in column-major order, translated to row-major order, gives the row-major offset of the same index. |
| Numpy.FortranCopyKeepsIndices | src/python.cpp:288-291 | The Fortran-ordered copy has at each index's column-major position the element the source array has at that index, for either layout of the source. |
| Numpy.CastToFortran | src/python.cpp:288-296 | `PyArray_CastToType(..., NPY_ARRAY_FARRAY)` yields an array of the normalised dtype with the same dims, in Fortran order, whose data is the column-major copy. At every index the cast array holds the element the original holds there. |
| Classify.RScalarType | src/python.cpp:105-125 | Bool is logical, int is integer, float is double and str is character, each if and only if. A bool is never classed as integer. Nothing else is a scalar. |
| Classify.ScalarListType | src/python.cpp:128-146 | The loop returns a scalar type exactly when the list is non-empty and every item has that type. Otherwise it returns NILSXP: the list is empty, or two items differ, or the first is not a scalar. |
| Classify.AttributeType | src/python.cpp:615-633 | Each of these holds if and only if: FUNCTION when callable, ARRAY for a numpy array, VECTOR for a scalar. LIST covers containers and every other object. |
| Runtime.Interpreter.IncRef | src/python.cpp:332 | `Py_IncRef` adds one reference to each tracked object owned through the value. |
| Runtime.Interpreter.DecRef | src/python.cpp:19-22 | `Py_DecRef` removes those references. |
| Runtime.PyObjectPtr.constructor | src/python.cpp:18 | The guard attaches to the reference it is given. |
| Runtime.PyObjectPtr.Detach | src/python.cpp:28-32 | Hands back the held reference and leaves the guard empty. Reference counts do not change. |
| Runtime.PyObjectPtr.Destroy | src/python.cpp:19-22 | The destructor releases the held reference once, or nothing when the guard is empty. |
| Runtime.GuardedScope | src/python.cpp:15-43 | Across a guarded scope, an owned reference is released exactly once, unless it was detached, in which case it is handed on and not released. |
| Runtime.FetchError | src/python.cpp:81-102 | Clears the pending exception and leaves reference counts as they were. Returns str() of the exception value, or "<unknown error>" when there is no exception or no value. |
| Runtime.SetNextItem | src/python.cpp:404-414 | `PyList_SetItem` / `PyTuple_SetItem` put the item in the next slot. The container steals the item's reference. |
| Runtime.KeyIndex | src/python.cpp:477 | Finds the entry with key `k`, or reports that there is none. |
| Runtime.DictSetKeys | src/python.cpp:477 | After `PyDict_SetItemString` the keys are still distinct. They are the old keys plus `k`. |
| Runtime.DictSetItemString | src/python.cpp:477 | The dict maps `k` to the item. The interpreter and the dict together gain exactly the references the dict gained. |
| PyToR.XPtr | src/python.cpp:51-78 | `py_xptr`'s class vector ends in "py_object". It is preceded by "module.name" exactly when the object exposes `__class__`. |
| PyToR.ScalarToR | src/python.cpp:165-185 | A scalar becomes an R vector of length one, without attributes, of the type `r_scalar_type` names. This is the corrected integer case. |
| PyToR.WrappedScalarType | src/python.cpp:172-173 | As written, the R type is the classified type for every scalar except int, which becomes double. |
| PyToR.IntScalarWidened | src/python.cpp:172-173 | As written, 1 becomes a double vector, while [1, 2] becomes an integer vector and the corrected scalar branch gives integer 1. |
| PyToR.VectorOf | src/python.cpp:192-211 | A homogeneous list becomes a flat vector of its type and length, whose element i is item i converted as a scalar. |
| PyToR.NameIndex | src/python.cpp:243 | The first position holding a name, or none if the name is absent. |
| PyToR.AssignAllNames | src/python.cpp:236-245 | Assigning `list[key] = value` for each dict entry leaves distinct names, exactly the keys. |
| PyToR.AssignAllDistinct | src/python.cpp:236-245 | With distinct keys, the list built has the keys as names and the converted values, in the dict's order. |
| PyToR.DictList | src/python.cpp:236-245 | The list built from a dict is a well-formed R list without `dim`, with at most one element per entry. An empty dict gives an unnamed list. Otherwise the names are distinct and are exactly the keys. With distinct keys, the names are the keys in order and the elements are the values. |
| PyToR.ArrayToR | src/python.cpp:248-328 | Fails for an unsupported dtype, with that code. Otherwise fails exactly for a 0-d array, whose empty shape R refuses as a `dim`. Otherwise it gives a well-formed R array whose `dim` is the numpy shape and whose length is the product of the shape. |
| PyToR.ArrayToRKeepsIndices | src/python.cpp:288-324 | For every accepted dtype and either layout, the element at index `idx` lands at the column-major position of `idx`, as a logical, integer or double according to the normalised dtype. |
| PyToR.PyToR | src/python.cpp:158-335 | Succeeds exactly when no unsupported array occurs anywhere in the value. A success is a well-formed R value. A failure is `UnsupportedArrayType` with a code the switch refuses, or the empty-`dim` refusal. |
| PyToR.ListToR | src/python.cpp:188-218 | Fails exactly when some item has a refused array. A list whose items share one scalar type becomes the flat vector `VectorOf` of that type. Any other list becomes a generic R list without attributes, of the same length, whose element i is item i converted. |
| PyToR.TupleToR | src/python.cpp:221-233 | Fails exactly when some item has a refused array. Otherwise gives a list of the items converted, one per item. It is named by `_fields` exactly when `_fields` is a tuple of the same length. A missing `_fields`, a non-tuple, or a tuple of another length gives no names. |
| PyToR.DictToR | src/python.cpp:236-245 | Fails exactly when some value has a refused array. Otherwise it gives a well-formed R list without `dim`, unnamed for an empty dict. For a non-empty dict the names are distinct and are exactly the keys. With distinct keys there is one element per entry, in the dict's order: name i is key i and element i is value i converted. |
| PyToR.ConvertSeq | src/python.cpp:212-217 | Converts items in order. On success, element i is item i converted. Fails with the first failure. |
| PyToR.ConvertEntries | src/python.cpp:242-243 | Same as ConvertSeq, over a dict's values. |
| PyToR.ConvertSeqFailsAt | src/python.cpp:212-217 | A failing item stops the conversion with its own error. |
| PyToR.ConvertEntriesFailsAt | src/python.cpp:242-243 | Same as ConvertSeqFailsAt, for dict values. |
| PyToR.ConvertToR | src/python.cpp:158-335 | The procedure computes PyToR and leaves the pending exception alone. On success it adds exactly one reference per opaque object met (`Py_IncRef` before `py_xptr`). On failure it adds at most those. |
| PyToR.ConvertItems | src/python.cpp:212-217 | The loop filling `Rcpp::List list(len)` computes ConvertSeq, adding the references of the handles made. |
| PyToR.ConvertDict | src/python.cpp:236-245 | The `PyDict_Next` loop computes DictToR, adding the references of the handles made. |
| PyToR.FillVector | src/python.cpp:192-211 | The four copy loops build VectorOf. |
| PyToR.ConvertArray | src/python.cpp:248-328 | Computes ArrayToR. The cast copy is released in the same scope, so reference counts are unchanged. |
| PyToR.CopyLogicals | src/python.cpp:303-308 | Copies the bool buffer element for element. |
| PyToR.CopyIntegers | src/python.cpp:310-315 | Copies the `npy_long` buffer element for element. |
| PyToR.CopyReals | src/python.cpp:317-322 | Copies the double buffer element for element. |
| RToPy.MatrixToPy | src/python.cpp:359-398 | An integer, double or logical array becomes a Fortran-ordered numpy array with R's `dim` as shape and one element per R element. Any other type fails with `UnsupportedMatrixType`. This is the corrected logical case. |
| RToPy.MatrixToPyKeepsElements | src/python.cpp:366-391 | With the corrected logical-matrix branch: storage position k of the numpy array holds element k of the R vector, with dtype `NPY_INT`, `NPY_DOUBLE` or `NPY_BOOL`. |
| RToPy.LogicalMatrixReadIntactIff | src/python.cpp:374-391 | As written, a logical matrix reaches numpy intact if and only if each element k equals the byte read in its place: FALSE unless k is a multiple of 4, and logical k/4 when it is. |
| RToPy.LogicalMatrixMisread | src/python.cpp:374-391 | As written, the 1 x 2 matrix (TRUE, TRUE) reaches Python as [True, False]. The corrected conversion gives [True, True]. |
| RToPy.VectorToPy | src/python.cpp:401-466 | A vector of length one becomes the scalar. Any other length becomes a list with each element as a scalar. |
| RToPy.DictFromKeys | src/python.cpp:471-481 | The dict built from a named list has distinct keys, exactly the names. |
| RToPy.DictFromDistinct | src/python.cpp:471-481 | With distinct names, the dict holds name i with element i, one entry per name. The model takes insertion order as the dict's iteration order; Python 2 may iterate them in another order. |
| RToPy.RToPy | src/python.cpp:340-498 | Succeeds exactly on convertible values: no matrix of a type other than integer, double or logical, and no other unconvertible type, anywhere inside. Errors are `UnsupportedMatrixType` or `UnconvertibleType`. |
| RToPy.ListToPy | src/python.cpp:469-493 | Succeeds exactly when every element is convertible. A named list becomes a dict, whose keys are distinct and exactly the names; with distinct names, entry i is name i with element i converted (in insertion order, which Python 2 need not keep when iterating). An unnamed list becomes a tuple without `_fields` whose item i is element i converted. |
| RToPy.ConvertElems | src/python.cpp:469-493 | Converts elements in order. On success, item i is element i converted. |
| RToPy.ConvertElemsFailsAt | src/python.cpp:484-490 | The first element that fails stops the conversion with its error. |
| RToPy.DictFromStep | src/python.cpp:474-478 | One loop step is one `PyDict_SetItemString`. |
| RToPy.ConvertToPy | src/python.cpp:340-498 | The procedure computes RToPy. On success the references added are exactly those the result owns. On failure the guards release everything built, so counts are unchanged. |
| RToPy.NewList | src/python.cpp:404-414 | `PyList_New` filled by `PyList_SetItem` gives VectorToPy's list without touching tracked references. |
| RToPy.StoreItem | src/python.cpp:475-478 | The item guard plus `PyDict_SetItemString`: the dict maps the name to the item, and the item's own reference is released. |
| RToPy.NewTuple | src/python.cpp:484-492 | Computes the unnamed-list conversion. On failure the tuple guard releases what was stored. |
| RToPy.NewDict | src/python.cpp:471-481 | Computes the named-list conversion. On failure the dict guard releases what was stored. |
| Api.KeywordsDict | src/python.cpp:658-668 | No keywords gives an empty dict. Keywords without names fail when their NULL names are taken as a character vector. Otherwise the result is the named-list conversion of the keywords. |
| Api.Call | src/python.cpp:645-679 | Failures come in order: argument marshalling, keyword marshalling, then a raised exception rendered as `py_fetch_error` renders it. Otherwise the result is py_to_r of what the callee returned. |
| Api.PyCall | src/python.cpp:645-679 | The procedure computes Call. A raised exception is cleared. The argument tuple, keyword dict and result are all released, so only the references of the handles in the converted result remain. |
| Api.MarshalKeywords | src/python.cpp:658-668 | Computes KeywordsDict and adds exactly the dict's references. |
| Api.Invoke | src/python.cpp:671-678 | Calls, fetches the error or converts the result, then the three guards release what they hold. |
| Api.ReleaseArguments | src/python.cpp:671-674 | When the call raises, the argument and keyword guards release exactly what they hold. |
| Api.ReleaseAfterConversion | src/python.cpp:678 | After conversion the result, keyword and argument guards release exactly what they hold. |
| Api.AttributeTypes | src/python.cpp:603-637 | When every `getattr` succeeds, the result is one AttributeType code per attribute, in order. Otherwise it fails. |
| Api.AttributeTypesFailure | src/python.cpp:615-616 | A failure is the first attribute whose lookup raised, rendered by `py_fetch_error`. |
| Api.GetAttributeTypes | src/python.cpp:603-637 | The loop computes AttributeTypes. On failure the pending exception is cleared. |
| RoundTrip.RoundTripR | src/python.cpp:158-498 | With the corrected int-scalar and logical-matrix branches: for NULL, handles to opaque objects, attribute-free vectors, numeric and logical arrays, and lists of these (names distinct), r_to_py then py_to_r gives back the same R value. For a named list this is the same names and elements in the same order only because dicts are modelled in insertion order; Python 2 may give them back reordered. |
| RoundTrip.VectorRoundTrip | src/python.cpp:401-466 | With the corrected int-scalar and logical-matrix branches: a non-empty atomic vector without names comes back unchanged. |
| RoundTrip.MatrixRoundTrip | src/python.cpp:359-398 | With the corrected int-scalar and logical-matrix branches: an integer, double or logical array comes back with the same `dim` and elements. |
| RoundTrip.RoundTripPy | src/python.cpp:158-498 | With the corrected int-scalar and logical-matrix branches: for None, scalars, homogeneous lists of two or more, tuples without `_fields`, non-empty dicts with distinct keys, Fortran bool/int/double arrays of at least one dimension and opaque objects, py_to_r then r_to_py gives back the same Python value. |
| RoundTrip.ArrayRoundTrip | src/python.cpp:248-328 | With the corrected int-scalar and logical-matrix branches: a Fortran-ordered bool, int or double array of at least one dimension comes back as the same array. |
| RoundTrip.ArrayRoundTripKeepsIndices | src/python.cpp:288-324 | With the corrected int-scalar and logical-matrix branches: a bool, int or double array of either layout and at least one dimension comes back Fortran-ordered, with the same dtype and shape, and the same element at every index. |
| RoundTrip.EmptyVectorBecomesList | src/python.cpp:401-466 | An empty vector goes to Python as [], which comes back as an empty R list. |
| RoundTrip.NamedTupleBecomesDict | src/python.cpp:221-233 | A named tuple comes back from R as a dict keyed by its fields. |
| RoundTrip.SingletonListBecomesScalar | src/python.cpp:188-211 | [v] comes back as the bare scalar v. |

## Left out

- Interpreter bootstrap and shutdown (`py_initialize`, `py_finalize`), `py_run_string`, `py_run_file`, `py_import`, `py_dict`, `py_str`, `py_print`, `py_list_attributes`, `py_is_callable`, `py_is_null_xptr`: they load libraries, run code or print, and are outside the converters.
- `py_get_attr` and the attribute handles `py_get_attribute_types` makes: `getattr` is an abstract function parameter, and the references of those temporary handles are not tracked.
- A NULL from `PyList_New`, `PyTuple_New`, `PyDict_New`, `PyArray_CastToType`, `PyArray_New` or a failing `Set*Item`: allocation failure is not modelled, so those `stop(py_fetch_error())` paths are absent.
- `PyArray_New` makes a view over R's memory without copying. The model gives the array its own copy of the elements, so aliasing and the R vector's lifetime are not captured.
- Integer width: `PyInt_AsLong`, `npy_long` and R's 32-bit integers are modelled as unbounded integers, so narrowing and overflow are not captured. R's NA values are not modelled.
- Doubles are opaque values. They are copied, never computed on.
- Dict keys are strings and `_fields` holds strings. Other keys pass through `PyString_AsString` in the source and are not modelled.
- Python 2 byte strings only: unicode objects are opaque objects here, as in the source's checks.
- `Rcpp::print` of an unconvertible R value before the error is left out as output.
- Reference counts are tracked for None and opaque objects only. Containers the bridge builds are not tracked themselves; owning one counts as owning what it holds. What the callee keeps of its arguments is not modelled.
- R's garbage collector and the finaliser of an external pointer are not modelled: a handle's reference is simply owned by the R value.
- A handle wraps only an opaque object, one py_to_r would not convert. In the source, `py_get_attr`, `py_import` and `py_dict` also wrap lists, dicts and scalars. r_to_py hands such a handle's object straight back, and py_to_r then converts it instead of making a handle again. So the round trip of handles holds for handles py_to_r itself makes.
- Runtime.FetchError: an exception value whose str() itself fails is not modelled. An example is a unicode message that cannot be encoded. There `PyObject_Str` returns NULL and the source passes it on to `PyString_AsString`, with no placeholder.
- PyToR.ConvertArray: for a 0-d array, R's error unwinds past the guard of the cast copy, so the source leaks the copy. The copy holds no tracked references, so the counts the model states are the same either way.
- RToPy.DictFromDistinct: a dict's iteration order is taken to be insertion order. The source builds the dict with `PyDict_SetItemString` under Python 2, where a dict iterates in hash order, so "in order" is what the model assumes, not what Python 2 promises.
- RToPy.ListToPy: the same assumption; for a named list with distinct names, "entry i is name i" holds in insertion order only.
- RoundTrip.RoundTripR: for a named list, the same assumption. Under Python 2, `list(b = 1L, a = 2L)` may come back as `list(a = 2L, b = 1L)`, with the same names and elements in another order. Iteration order is not modelled as a permutation.
- PyToR.DictList: an R list assigned by name keeps one entry per distinct name; the contract states well-formedness and the names (AssignAllNames), not element positions for duplicated keys.
- PyToR.ConvertToR: on a refused array the handles already made stay referenced (the R list being built is dropped by R's collector); the contract bounds the added references instead of naming them.

## Findings

| source | as written | input that shows it | evidently intended | confidence | as-written member | corrected member |
|---|---|---|---|---|---|---|
| src/python.cpp:374-391 | A logical matrix is passed to `PyArray_New` as `NPY_BOOL` (1 byte per element) over R's `LOGICAL` storage (4 bytes per element). | `matrix(c(TRUE, TRUE), 1, 2)` reads in numpy as `[[True, False]]` | Convert the logicals to bytes, or pass a 4-byte integer dtype, so element k is logical k. | not executed | RToPy.LogicalMatrixAsWritten, RToPy.LogicalMatrixMisread, RToPy.LogicalMatrixReadIntactIff | RToPy.MatrixToPy |
| src/python.cpp:172-173 | `wrap(PyInt_AsLong(x))` wraps a C `long`, which Rcpp turns into an R double. | Python `1` becomes the double `1`, while `[1, 2]` becomes an integer vector. | An integer vector of length one, as `r_scalar_type` reports INTSXP and the list branch does. | not executed | PyToR.WrappedScalarType, PyToR.IntScalarWidened | PyToR.ScalarToR |
