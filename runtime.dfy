/**
 * The interpreter state the bridge touches: reference counts of shared
 * objects and the pending exception; the PyObjectPtr scope guard; and
 * py_fetch_error, which turns the pending exception into a message.
 */
module Runtime {
  import opened Wrappers
  import opened Values

  /** Objects whose reference counts the model tracks: the None singleton and opaque objects. */
  datatype RefKey = NoneRef | ObjRef(id: ObjId)

  /**
   * The references to tracked objects that owning `v` amounts to. Freshly
   * built containers are not tracked themselves: owning one counts as owning
   * what it holds, so releasing the last reference to it releases those.
   */
  function Refs(v: PyValue): multiset<RefKey>
    decreases v
  {
    match v
    case PyNone => multiset{NoneRef}
    case Other(o) => multiset{ObjRef(o.id)}
    case PyList(items) => RefsSeq(items)
    case PyTuple(items, _) => RefsSeq(items)
    case PyDict(entries) => RefsEntries(entries)
    case _ => multiset{}
  }

  function RefsSeq(items: seq<PyValue>): multiset<RefKey>
    decreases items
  {
    if items == [] then multiset{}
    else RefsSeq(items[..|items| - 1]) + Refs(items[|items| - 1])
  }

  function RefsEntries(entries: seq<Entry>): multiset<RefKey>
    decreases entries
  {
    if entries == [] then multiset{}
    else RefsEntries(entries[..|entries| - 1]) + Refs(entries[|entries| - 1].value)
  }

  /** The embedded interpreter, as far as the bridge changes it. */
  class Interpreter {
    /** How many references to each tracked object are live (ob_refcnt). */
    ghost var refs: multiset<RefKey>
    /** The exception set by the last failing C API call, if any. */
    var pending: Option<PyErr>

    constructor ()
      ensures refs == multiset{} && pending == None
    {
      refs := multiset{};
      pending := None;
    }

    /** Py_IncRef: one more reference to `v`. */
    method IncRef(v: PyValue)
      modifies this
      ensures refs == old(refs) + Refs(v) && pending == old(pending)
    {
      refs := refs + Refs(v);
    }

    /** Py_DecRef of the only reference to `v`. */
    method DecRef(v: PyValue)
      modifies this
      ensures refs == old(refs) - Refs(v) && pending == old(pending)
    {
      refs := refs - Refs(v);
    }

    /** A C API call that fails sets the pending exception. */
    method Raise(e: PyErr)
      modifies this
      ensures pending == Some(e) && refs == old(refs)
    {
      pending := Some(e);
    }
  }

  /**
   * PyObjectPtr: owns one reference from construction on and drops it when
   * destroyed, unless it was detached first. `alive` is the C++ lifetime:
   * the destructor runs once.
   */
  class PyObjectPtr {
    const rt: Interpreter
    var held: Option<PyValue>
    ghost var alive: bool

    /** Attach: takes over a reference the caller owns; no incref. */
    constructor (rt: Interpreter, held: Option<PyValue>)
      ensures this.rt == rt && this.held == held && alive
    {
      this.rt := rt;
      this.held := held;
      alive := true;
    }

    function Get(): Option<PyValue>
      reads this
    {
      held
    }

    predicate IsNull()
      reads this
    {
      held.None?
    }

    /** Hand the reference on: return the pointer and forget it. */
    method Detach() returns (o: Option<PyValue>)
      requires alive
      modifies this
      ensures o == old(held) && held == None && alive
    {
      o := held;
      held := None;
    }

    /** The destructor: one decref, and only of a non-null pointer. */
    method Destroy()
      requires alive
      modifies this, rt
      ensures !alive && held == old(held)
      ensures old(held).Some? ==> rt.refs == old(rt.refs) - Refs(old(held).value)
      ensures old(held).None? ==> rt.refs == old(rt.refs)
      ensures rt.pending == old(rt.pending)
    {
      if held.Some? {
        rt.DecRef(held.value);
      }
      alive := false;
    }
  }

  /**
   * A scope guarded by a PyObjectPtr: the owned reference to `v` is released
   * exactly once when the scope ends, unless it was detached and handed on,
   * in which case it is not released at all.
   */
  method GuardedScope(rt: Interpreter, v: PyValue, detach: bool) returns (handedOn: Option<PyValue>)
    requires Refs(v) <= rt.refs
    modifies rt
    ensures handedOn == (if detach then Some(v) else None)
    ensures detach ==> rt.refs == old(rt.refs)
    ensures !detach ==> rt.refs + Refs(v) == old(rt.refs)
    ensures rt.pending == old(rt.pending)
  {
    var ptr := new PyObjectPtr(rt, Some(v));
    handedOn := None;
    if detach {
      handedOn := ptr.Detach();
    }
    ptr.Destroy();
  }

  /** The message py_fetch_error renders: str() of the exception value, or a placeholder. */
  function ErrorMessage(e: Option<PyErr>): string {
    if e.Some? && e.value.value.Some? then e.value.value.value else "<unknown error>"
  }

  /**
   * py_fetch_error: fetches and clears the pending exception (the fetched
   * type, value and traceback are released on return) and renders it.
   */
  method FetchError(rt: Interpreter) returns (msg: string)
    modifies rt
    ensures rt.pending == None && rt.refs == old(rt.refs)
    ensures msg == ErrorMessage(old(rt.pending))
    ensures old(rt.pending).None? ==> msg == "<unknown error>"
  {
    var fetched := rt.pending;
    rt.pending := None;
    if fetched.Some? && fetched.value.value.Some? {
      msg := fetched.value.value.value;
    } else {
      msg := "<unknown error>";
    }
  }

  // The C API calls that fill a container the caller holds through a guard.

  /**
   * PyList_SetItem / PyTuple_SetItem on a list or tuple filled in index
   * order: slot |items| gets `item`, whose reference the container steals.
   */
  method SetNextItem(ptr: PyObjectPtr, item: PyValue)
    requires ptr.held.Some? && (ptr.held.value.PyList? || ptr.held.value.PyTuple?)
    modifies ptr
    ensures ptr.held.Some? && ptr.alive == old(ptr.alive)
    ensures old(ptr.held.value).PyList? ==> ptr.held.value == PyList(old(ptr.held.value.items) + [item])
    ensures old(ptr.held.value).PyTuple? ==>
      ptr.held.value == PyTuple(old(ptr.held.value.items) + [item], old(ptr.held.value.fields))
    ensures Refs(ptr.held.value) == Refs(old(ptr.held.value)) + Refs(item)
  {
    var c := ptr.held.value;
    var items := c.items + [item];
    assert items[..|items| - 1] == c.items;
    if c.PyList? {
      ptr.held := Some(PyList(items));
    } else {
      ptr.held := Some(PyTuple(items, c.fields));
    }
  }

  /** Index of the entry with key `k`. */
  function KeyIndex(entries: seq<Entry>, k: string): (i: int)
    ensures -1 <= i < |entries|
    ensures i >= 0 ==> entries[i].key == k
    ensures i < 0 <==> forall j :: 0 <= j < |entries| ==> entries[j].key != k
  {
    if entries == [] then -1
    else if entries[|entries| - 1].key == k && KeyIndex(entries[..|entries| - 1], k) < 0 then |entries| - 1
    else KeyIndex(entries[..|entries| - 1], k)
  }

  /** The entries of a dict after d[k] = v: the value of an existing key is replaced in place. */
  function DictSet(entries: seq<Entry>, k: string, v: PyValue): seq<Entry> {
    var i := KeyIndex(entries, k);
    if i < 0 then entries + [Entry(k, v)] else entries[i := Entry(k, v)]
  }

  /** Setting a key keeps the keys distinct and adds that key and no other. */
  lemma DictSetKeys(entries: seq<Entry>, k: string, v: PyValue)
    requires Distinct(Keys(entries))
    ensures Distinct(Keys(DictSet(entries, k, v)))
    ensures forall x :: x in Keys(DictSet(entries, k, v)) <==> x in Keys(entries) || x == k
  {
    var i := KeyIndex(entries, k);
    if i < 0 {
      assert Keys(entries + [Entry(k, v)]) == Keys(entries) + [k];
    } else {
      assert Keys(entries[i := Entry(k, v)]) == Keys(entries);
    }
  }

  lemma {:induction false} RefsEntriesUpdate(entries: seq<Entry>, i: int, e: Entry)
    requires 0 <= i < |entries|
    ensures Refs(entries[i].value) <= RefsEntries(entries)
    ensures RefsEntries(entries[i := e]) == RefsEntries(entries) - Refs(entries[i].value) + Refs(e.value)
  {
    var n := |entries|;
    var upd := entries[i := e];
    assert upd[..n - 1] == if i == n - 1 then entries[..n - 1] else entries[..n - 1][i := e];
    if i < n - 1 {
      RefsEntriesUpdate(entries[..n - 1], i, e);
    }
  }

  // Reference-count bookkeeping: counts move between owners without being created or lost.

  lemma MoveRefs(r: multiset<RefKey>, d: multiset<RefKey>, v: multiset<RefKey>, o: multiset<RefKey>)
    requires o <= d <= r
    ensures (r + v - o) + d == r + (d - o + v)
  {
    assert forall k :: ((r + v - o) + d)[k] == (r + (d - o + v))[k];
  }

  /**
   * The reference bookkeeping of d[k] = item: the interpreter gains the
   * item's references and, when k was present, loses the replaced value's;
   * together with the dict's own references nothing is created or lost.
   */
  lemma DictSetRefs(r: multiset<RefKey>, entries: seq<Entry>, k: string, item: PyValue)
    requires RefsEntries(entries) <= r
    ensures var i := KeyIndex(entries, k);
      var after := if i < 0 then r + Refs(item) else r + Refs(item) - Refs(entries[i].value);
      after + RefsEntries(entries) == r + RefsEntries(DictSet(entries, k, item))
  {
    var i := KeyIndex(entries, k);
    if i < 0 {
      AppendRefs(r, entries, Entry(k, item));
    } else {
      RefsEntriesUpdate(entries, i, Entry(k, item));
      MoveRefs(r, RefsEntries(entries), Refs(item), Refs(entries[i].value));
    }
  }

  lemma AppendRefs(r: multiset<RefKey>, entries: seq<Entry>, e: Entry)
    ensures RefsEntries(entries + [e]) == RefsEntries(entries) + Refs(e.value)
    ensures (r + Refs(e.value)) + RefsEntries(entries) == r + RefsEntries(entries + [e])
  {
    assert (entries + [e])[..|entries|] == entries;
    var d := RefsEntries(entries);
    var v := Refs(e.value);
    assert forall k :: ((r + v) + d)[k] == (r + (d + v))[k];
  }

  lemma GrowRefs(o: multiset<RefKey>, p: multiset<RefKey>, h: multiset<RefKey>)
    ensures o + p + h == o + (p + h)
  {
    assert forall k :: (o + p + h)[k] == (o + (p + h))[k];
  }

  /** References taken on top of `p`, at most `h` of them, stay within a bound `total` that covers both. */
  lemma BoundRefs(o: multiset<RefKey>, p: multiset<RefKey>, h: multiset<RefKey>, now: multiset<RefKey>, total: multiset<RefKey>)
    requires o + p <= now <= o + p + h && p + h <= total
    ensures o <= now <= o + total
  {
    forall k ensures o[k] <= now[k] <= (o + total)[k] {
      assert (o + p)[k] <= now[k] <= (o + p + h)[k];
      assert (p + h)[k] <= total[k];
    }
  }

  lemma DropRefs(a: multiset<RefKey>, v: multiset<RefKey>)
    ensures a + v - v == a
  {
    assert forall k :: (a + v - v)[k] == a[k];
  }

  lemma CancelRefs(a: multiset<RefKey>, b: multiset<RefKey>, c: multiset<RefKey>, d: multiset<RefKey>, v: multiset<RefKey>)
    requires a + d == b + d + v + c
    ensures a - v == b + c
  {
    assert forall k :: (a - v)[k] == (b + c)[k] by {
      forall k ensures (a - v)[k] == (b + c)[k] {
        assert (a + d)[k] == (b + d + v + c)[k];
      }
    }
  }

  /**
   * PyDict_SetItemString: the dict takes a new reference to `item` and
   * drops the one it held to the value it replaces, so the references the
   * interpreter and the dict hold together grow by exactly what the new
   * dict holds beyond the old one.
   */
  method DictSetItemString(rt: Interpreter, ptr: PyObjectPtr, k: string, item: PyValue)
    requires ptr.held.Some? && ptr.held.value.PyDict?
    requires Refs(ptr.held.value) <= rt.refs
    modifies ptr, rt
    ensures ptr.held == Some(PyDict(DictSet(old(ptr.held.value.entries), k, item)))
    ensures ptr.alive == old(ptr.alive)
    ensures rt.pending == old(rt.pending)
    ensures rt.refs + Refs(old(ptr.held.value)) == old(rt.refs) + Refs(ptr.held.value)
  {
    var entries := ptr.held.value.entries;
    var i := KeyIndex(entries, k);
    DictSetRefs(rt.refs, entries, k, item);
    rt.IncRef(item);
    if i >= 0 {
      rt.DecRef(entries[i].value);
    }
    ptr.held := Some(PyDict(DictSet(entries, k, item)));
  }



}
