/**
 * The exported entry points built on the converters: py_call, which
 * marshals R arguments into a tuple and a keyword dict, calls a Python
 * callable and converts its result back; and py_get_attribute_types,
 * which classifies the attributes of an object.
 */
module Api {
  import opened Wrappers
  import opened Values
  import opened Classify
  import opened Runtime
  import opened PyToR
  import opened RToPy

  /** What a call into Python (PyObject_Call, PyObject_GetAttrString) does: return a new reference, or fail and set an exception. */
  datatype Outcome = Returned(value: PyValue) | Raised(exc: PyErr)

  /** The positional arguments as the tuple py_call passes. */
  function ArgsTuple(args: seq<RValue>): Result<PyValue, Error>
    requires forall i :: 0 <= i < |args| ==> args[i].Valid()
  {
    ListToPy(args, None)
  }

  /**
   * The keyword arguments as the dict py_call passes: empty when there are
   * none; otherwise each is stored under its name. A keyword list without
   * names fails before any is stored: its names are R's NULL, which Rcpp
   * refuses to take as a character vector.
   */
  function KeywordsDict(keywords: seq<RValue>, names: Option<seq<string>>): (r: Result<PyValue, Error>)
    requires forall i :: 0 <= i < |keywords| ==> keywords[i].Valid()
    requires names.Some? ==> |names.value| == |keywords|
    ensures |keywords| == 0 ==> r == Ok(PyDict([]))
    ensures |keywords| > 0 && names.None? ==> r == Err(NotCompatible)
    ensures |keywords| > 0 && names.Some? ==> r == ListToPy(keywords, names)
    ensures r.Ok? ==> r.value.PyDict?
  {
    if |keywords| == 0 then Ok(PyDict([]))
    else if names.None? then Err(NotCompatible)
    else ListToPy(keywords, names)
  }

  /** py_call: marshal, call, and convert the result, or report why it stopped. */
  function Call(callee: (PyValue, PyValue) -> Outcome, args: seq<RValue>,
                keywords: seq<RValue>, names: Option<seq<string>>): (r: Result<RValue, Error>)
    requires forall i :: 0 <= i < |args| ==> args[i].Valid()
    requires forall i :: 0 <= i < |keywords| ==> keywords[i].Valid()
    requires names.Some? ==> |names.value| == |keywords|
    ensures ArgsTuple(args).Err? ==> r == Err(ArgsTuple(args).error)
    ensures ArgsTuple(args).Ok? && KeywordsDict(keywords, names).Err? ==> r == Err(KeywordsDict(keywords, names).error)
    ensures r.Err? && r.error.EmbeddedError? ==>
      && ArgsTuple(args).Ok? && KeywordsDict(keywords, names).Ok?
      && Called(callee, args, keywords, names).Raised?
      && r.error.message == ErrorMessage(Some(Called(callee, args, keywords, names).exc))
    ensures ArgsTuple(args).Ok? && KeywordsDict(keywords, names).Ok? && Called(callee, args, keywords, names).Returned? ==>
      r == PyToR.PyToR(Called(callee, args, keywords, names).value)
  {
    var a := ArgsTuple(args);
    if a.Err? then Err(a.error)
    else
      var k := KeywordsDict(keywords, names);
      if k.Err? then Err(k.error)
      else match callee(a.value, k.value)
        case Raised(e) => Err(EmbeddedError(ErrorMessage(Some(e))))
        case Returned(v) => PyToR.PyToR(v)
  }

  /** The callee's outcome, when marshalling succeeded and it was called. */
  function Called(callee: (PyValue, PyValue) -> Outcome, args: seq<RValue>,
                  keywords: seq<RValue>, names: Option<seq<string>>): Outcome
    requires forall i :: 0 <= i < |args| ==> args[i].Valid()
    requires forall i :: 0 <= i < |keywords| ==> keywords[i].Valid()
    requires names.Some? ==> |names.value| == |keywords|
    requires ArgsTuple(args).Ok? && KeywordsDict(keywords, names).Ok?
  {
    callee(ArgsTuple(args).value, KeywordsDict(keywords, names).value)
  }

  /**
   * py_call. The argument tuple and keyword dict are held by guards that
   * release them when the call returns or stops; a Python exception is
   * fetched, which clears it, and becomes the error message; the callee's
   * result is held by a guard while it is converted. What stays behind is
   * one reference per handle in the converted result.
   */
  method PyCall(rt: Interpreter, callee: (PyValue, PyValue) -> Outcome, args: seq<RValue>,
                keywords: seq<RValue>, names: Option<seq<string>>) returns (r: Result<RValue, Error>)
    requires forall i :: 0 <= i < |args| ==> args[i].Valid()
    requires forall i :: 0 <= i < |keywords| ==> keywords[i].Valid()
    requires names.Some? ==> |names.value| == |keywords|
    modifies rt
    ensures r == Call(callee, args, keywords, names)
    ensures r.Err? && r.error.EmbeddedError? ==> rt.pending == None
    ensures !(r.Err? && r.error.EmbeddedError?) ==> rt.pending == old(rt.pending)
    ensures r.Ok? ==> rt.refs == old(rt.refs) + HandleRefs(Called(callee, args, keywords, names).value)
    ensures r.Err? && ArrayRefusal(r.error) ==>
      old(rt.refs) <= rt.refs <= old(rt.refs) + HandleRefs(Called(callee, args, keywords, names).value)
    ensures r.Err? && !ArrayRefusal(r.error) ==> rt.refs == old(rt.refs)
  {
    // unnamed arguments
    var tuple := NewTuple(rt, args);
    if tuple.Err? {
      return Err(tuple.error);
    }
    var pyArgs := new PyObjectPtr(rt, Some(tuple.value));

    // named arguments
    var dict := MarshalKeywords(rt, keywords, names);
    if dict.Err? {
      DropRefs(old(rt.refs), Refs(tuple.value));
      pyArgs.Destroy();
      return Err(dict.error);
    }
    var pyKeywords := new PyObjectPtr(rt, Some(dict.value));

    // call the function and convert its result
    r := Invoke(rt, callee, pyArgs, pyKeywords, old(rt.refs));
  }

  /** The keyword dict py_call builds: names are looked up only when there are keywords. */
  method MarshalKeywords(rt: Interpreter, keywords: seq<RValue>, names: Option<seq<string>>)
    returns (d: Result<PyValue, Error>)
    requires forall i :: 0 <= i < |keywords| ==> keywords[i].Valid()
    requires names.Some? ==> |names.value| == |keywords|
    modifies rt
    ensures d == KeywordsDict(keywords, names)
    ensures rt.pending == old(rt.pending)
    ensures d.Ok? ==> rt.refs == old(rt.refs) + Refs(d.value)
    ensures d.Err? ==> rt.refs == old(rt.refs)
  {
    if |keywords| == 0 {
      d := Ok(PyDict([]));
      assert Refs(d.value) == multiset{};
    } else if names.None? {
      d := Err(NotCompatible);
    } else {
      d := NewDict(rt, keywords, names.value);
    }
  }

  /**
   * PyObject_Call on the marshalled arguments, then py_fetch_error or
   * py_to_r of the result, and the guards going out of scope.
   */
  method Invoke(rt: Interpreter, callee: (PyValue, PyValue) -> Outcome,
                pyArgs: PyObjectPtr, pyKeywords: PyObjectPtr, ghost start: multiset<RefKey>)
    returns (r: Result<RValue, Error>)
    requires pyArgs.alive && pyKeywords.alive && pyArgs != pyKeywords
    requires pyArgs.rt == rt && pyKeywords.rt == rt
    requires pyArgs.held.Some? && pyKeywords.held.Some?
    requires rt.refs == start + Refs(pyArgs.held.value) + Refs(pyKeywords.held.value)
    modifies rt, pyArgs, pyKeywords
    ensures var outcome := callee(old(pyArgs.held.value), old(pyKeywords.held.value));
      && (outcome.Raised? ==> r == Err(EmbeddedError(ErrorMessage(Some(outcome.exc)))))
      && (outcome.Returned? ==> r == PyToR.PyToR(outcome.value))
      && (outcome.Raised? ==> rt.pending == None && rt.refs == start)
      && (outcome.Returned? ==> rt.pending == old(rt.pending))
      && (outcome.Returned? && r.Ok? ==> rt.refs == start + HandleRefs(outcome.value))
      && (outcome.Returned? && r.Err? ==> start <= rt.refs <= start + HandleRefs(outcome.value))
  {
    ghost var a, k := Refs(pyArgs.held.value), Refs(pyKeywords.held.value);
    var outcome := callee(pyArgs.held.value, pyKeywords.held.value);
    if outcome.Raised? {
      rt.Raise(outcome.exc);
      var msg := FetchError(rt);
      ReleaseArguments(rt, pyKeywords, pyArgs, start);
      return Err(EmbeddedError(msg));
    }
    rt.IncRef(outcome.value);
    var res := new PyObjectPtr(rt, Some(outcome.value));
    ghost var v := Refs(outcome.value);
    ghost var held := rt.refs;

    // return as r object
    r := ConvertToR(rt, outcome.value);
    ghost var added := rt.refs - held;
    SplitRefs(held, rt.refs, HandleRefs(outcome.value));
    RotateRefs(start, added, a, k, v);
    ReleaseAfterConversion(rt, res, pyKeywords, pyArgs, start, added);
  }

  lemma SplitRefs(held: multiset<RefKey>, now: multiset<RefKey>, bound: multiset<RefKey>)
    requires held <= now <= held + bound
    ensures now == held + (now - held) && now - held <= bound
  {
    assert forall x :: now[x] == (held + (now - held))[x];
  }

  lemma RotateRefs(s: multiset<RefKey>, h: multiset<RefKey>, a: multiset<RefKey>, k: multiset<RefKey>, v: multiset<RefKey>)
    ensures s + a + k + v + h == s + h + a + k + v
  {
    assert forall x :: (s + a + k + v + h)[x] == (s + h + a + k + v)[x];
  }

  /** The argument guards going out of scope after a failed call: the call's references are gone. */
  method ReleaseArguments(rt: Interpreter, pyKeywords: PyObjectPtr, pyArgs: PyObjectPtr, ghost start: multiset<RefKey>)
    requires pyKeywords.alive && pyArgs.alive && pyKeywords != pyArgs
    requires pyKeywords.rt == rt && pyArgs.rt == rt
    requires pyKeywords.held.Some? && pyArgs.held.Some?
    requires rt.refs == start + Refs(pyArgs.held.value) + Refs(pyKeywords.held.value)
    modifies rt, pyKeywords, pyArgs
    ensures rt.refs == start && rt.pending == old(rt.pending)
  {
    ghost var a, k := Refs(pyArgs.held.value), Refs(pyKeywords.held.value);
    DropRefs(start + a, k);
    pyKeywords.Destroy();
    DropRefs(start, a);
    pyArgs.Destroy();
  }

  /**
   * The guards of py_call going out of scope, result first: of the
   * references, only those the conversion added remain.
   */
  method ReleaseAfterConversion(rt: Interpreter, res: PyObjectPtr, pyKeywords: PyObjectPtr, pyArgs: PyObjectPtr,
                                ghost start: multiset<RefKey>, ghost added: multiset<RefKey>)
    requires res.alive && pyKeywords.alive && pyArgs.alive
    requires res.rt == rt && pyKeywords.rt == rt && pyArgs.rt == rt
    requires res != pyKeywords && res != pyArgs && pyKeywords != pyArgs
    requires res.held.Some? && pyKeywords.held.Some? && pyArgs.held.Some?
    requires rt.refs ==
      start + added + Refs(pyArgs.held.value) + Refs(pyKeywords.held.value) + Refs(res.held.value)
    modifies rt, res, pyKeywords, pyArgs
    ensures rt.refs == start + added && rt.pending == old(rt.pending)
  {
    ghost var a, k, v := Refs(pyArgs.held.value), Refs(pyKeywords.held.value), Refs(res.held.value);
    DropRefs(start + added + a + k, v);
    res.Destroy();
    DropRefs(start + added + a, k);
    pyKeywords.Destroy();
    DropRefs(start + added, a);
    pyArgs.Destroy();
  }

  /**
   * py_get_attribute_types over an abstract PyObject_GetAttrString: one
   * category code per attribute name, in order, or the message of the first
   * lookup that fails.
   */
  function AttributeTypes(getattr: string -> Outcome, attributes: seq<string>): (r: Result<seq<int>, Error>)
    ensures r.Ok? <==> forall i :: 0 <= i < |attributes| ==> getattr(attributes[i]).Returned?
    ensures r.Ok? ==> |r.value| == |attributes|
    ensures r.Ok? ==> forall i :: 0 <= i < |attributes| ==> r.value[i] == AttributeType(getattr(attributes[i]).value)
  {
    if attributes == [] then Ok([])
    else
      var n := |attributes| - 1;
      var init := AttributeTypes(getattr, attributes[..n]);
      if init.Err? then init
      else match getattr(attributes[n])
        case Raised(e) => Err(EmbeddedError(ErrorMessage(Some(e))))
        case Returned(v) => Ok(init.value + [AttributeType(v)])
  }

  /** A failure reports the first lookup that failed, with the message of its exception. */
  lemma {:induction false} AttributeTypesFailure(getattr: string -> Outcome, attributes: seq<string>)
    requires AttributeTypes(getattr, attributes).Err?
    ensures exists i :: (0 <= i < |attributes| && FirstFailure(getattr, attributes, i)
      && AttributeTypes(getattr, attributes).error == EmbeddedError(ErrorMessage(Some(getattr(attributes[i]).exc))))
  {
    var n := |attributes| - 1;
    var init := AttributeTypes(getattr, attributes[..n]);
    assert forall j :: 0 <= j < n ==> attributes[..n][j] == attributes[j];
    if init.Err? {
      assert AttributeTypes(getattr, attributes) == init;
      AttributeTypesFailure(getattr, attributes[..n]);
      var i :| 0 <= i < n && FirstFailure(getattr, attributes[..n], i)
        && init.error == EmbeddedError(ErrorMessage(Some(getattr(attributes[..n][i]).exc)));
      assert FirstFailure(getattr, attributes, i);
    } else {
      assert getattr(attributes[n]).Raised?;
      assert FirstFailure(getattr, attributes, n);
    }
  }

  /** The lookup of attributes[i] is the first one that fails. */
  predicate FirstFailure(getattr: string -> Outcome, attributes: seq<string>, i: nat)
    requires i < |attributes|
  {
    getattr(attributes[i]).Raised? && forall j :: 0 <= j < i ==> getattr(attributes[j]).Returned?
  }

  /**
   * The loop of py_get_attribute_types: py_get_attr on each name (which
   * stops with py_fetch_error when the lookup fails), then the category of
   * the attribute into a pre-allocated integer vector.
   */
  method GetAttributeTypes(rt: Interpreter, getattr: string -> Outcome, attributes: seq<string>)
    returns (r: Result<seq<int>, Error>)
    modifies rt
    ensures r == AttributeTypes(getattr, attributes)
    ensures r.Ok? ==> rt.pending == old(rt.pending)
    ensures r.Err? ==> rt.pending == None
    ensures rt.refs == old(rt.refs)
  {
    var types := new int[|attributes|];
    for i := 0 to |attributes|
      invariant AttributeTypes(getattr, attributes[..i]) == Ok(types[..i])
      invariant rt.pending == old(rt.pending) && rt.refs == old(rt.refs)
      modifies types, rt
    {
      assert attributes[..i + 1][..i] == attributes[..i];
      var attr := getattr(attributes[i]);
      if attr.Raised? {
        rt.Raise(attr.exc);
        var msg := FetchError(rt);
        assert AttributeTypes(getattr, attributes[..i + 1]) == Err(EmbeddedError(msg));
        AttributeTypesStops(getattr, attributes, i + 1);
        return Err(EmbeddedError(msg));
      }
      types[i] := AttributeType(attr.value);
      assert types[..i + 1] == types[..i] + [types[i]];
    }
    assert attributes[..|attributes|] == attributes && types[..] == types[..|attributes|];
    r := Ok(types[..]);
  }

  lemma {:induction false} AttributeTypesStops(getattr: string -> Outcome, attributes: seq<string>, i: nat)
    requires i <= |attributes| && AttributeTypes(getattr, attributes[..i]).Err?
    ensures AttributeTypes(getattr, attributes) == AttributeTypes(getattr, attributes[..i])
    decreases |attributes|
  {
    var n := |attributes|;
    if i < n {
      assert attributes[..n - 1][..i] == attributes[..i];
      AttributeTypesStops(getattr, attributes[..n - 1], i);
    } else {
      assert attributes[..i] == attributes;
    }
  }
}
