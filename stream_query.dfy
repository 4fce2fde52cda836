/** The URL parameters of a stream read (`Stream.__call__`) and the arguments that
    indexing a stream (`Stream.__getitem__`) passes to it. Timestamps arrive already
    written as text; limits and indices are integers written with `str`. */
module StreamQuery {
  import opened Values
  import opened Text
  import opened Params

  const MIXED_ACCESS: string := "Stream cannot be accessed both by index and by timestamp at the same time."

  /** The optional arguments of a stream read; `None` stands for an argument left at
      Python's default. */
  datatype QueryArgs = QueryArgs(
    t1: Option<string>, t2: Option<string>, limit: Option<int>,
    i1: Option<int>, i2: Option<int>, transform: Option<string>)

  /** The read selects by time or count. */
  predicate ByTime(a: QueryArgs)
  {
    a.t1.Some? || a.t2.Some? || a.limit.Some?
  }

  /** The read selects by index. */
  predicate ByIndex(a: QueryArgs)
  {
    a.i1.Some? || a.i2.Some?
  }

  function Rendered(v: Option<int>): Option<string>
  {
    if v.Some? then Some(IntToString(v.value)) else None
  }

  function Entry(key: string, v: Option<string>): Params
  {
    if v.Some? then [(key, v.value)] else []
  }

  /** The parameters selecting the data: each supplied argument under its own key.
      There are none exactly when no time, limit or index argument is given. */
  function Selection(a: QueryArgs): (sel: Params)
    ensures sel == [] <==> !ByTime(a) && !ByIndex(a)
  {
    Entry("t1", a.t1) + Entry("t2", a.t2) + Entry("limit", Rendered(a.limit))
      + Entry("i1", Rendered(a.i1)) + Entry("i2", Rendered(a.i2))
  }

  /** What the parameters of a read are, stated by parts: mixing time and index access
      is an error; otherwise the selecting arguments in order, or `i1=0` (the whole
      stream) when there is none, followed by the transform if one is given. Time and
      index access together fail, and nothing else does. */
  function QueryParams(a: QueryArgs): (r: Result<Params>)
    ensures r.Failure? <==> ByTime(a) && ByIndex(a)
    ensures r.Failure? ==> r.error == AssertionError(MIXED_ACCESS)
  {
    if ByTime(a) && ByIndex(a) then Failure(AssertionError(MIXED_ACCESS))
    else
      var sel := Selection(a);
      Success((if sel == [] then [("i1", "0")] else sel) + Entry("transform", a.transform))
  }

  /** The keyword arguments of `__call__`, filled into the dict one by one. */
  method BuildParams(a: QueryArgs) returns (r: Result<Params>)
    ensures r == QueryParams(a)
  {
    var selected := SelectParams(a);
    if selected.Failure? {
      return Failure(selected.error);
    }
    var params := selected.value;
    if |params| == 0 {
      params := Put(params, "i1", "0");
    }
    ghost var head := if Selection(a) == [] then [("i1", "0")] else Selection(a);
    assert params == head;
    if a.transform.Some? {
      SelectionLacksTransform(a);
      PutNewKey(params, "transform", a.transform.value);
      params := Put(params, "transform", a.transform.value);
    }
    assert params == head + Entry("transform", a.transform);
    return Success(params);
  }

  /** The first part of `__call__`: the selecting arguments, time and count first,
      then the indices, which may not follow a time or count. */
  method SelectParams(a: QueryArgs) returns (r: Result<Params>)
    ensures ByTime(a) && ByIndex(a) ==> r == Failure(AssertionError(MIXED_ACCESS))
    ensures !(ByTime(a) && ByIndex(a)) ==> r == Success(Selection(a))
  {
    var params: Params := [];
    var index := Rendered(a.i1);
    var index2 := Rendered(a.i2);
    var count := Rendered(a.limit);
    params := PutIfGiven(params, "t1", a.t1);
    EntryKeys("t1", a.t1);
    params := PutIfGiven(params, "t2", a.t2);
    AppendEntry(Entry("t1", a.t1), "t2", a.t2, {"t1"});
    params := PutIfGiven(params, "limit", count);
    if a.i1.Some? || a.i2.Some? {
      if |params| > 0 {
        return Failure(AssertionError(MIXED_ACCESS));
      }
      params := PutIfGiven(params, "i1", index);
      EntryKeys("i1", index);
      params := PutIfGiven(params, "i2", index2);
      assert Entry("t1", a.t1) + Entry("t2", a.t2) + Entry("limit", count) == [];
    } else {
      assert Entry("i1", index) + Entry("i2", index2) == [];
    }
    assert params == Selection(a);
    return Success(params);
  }

  /** `if not v is None: params[key] = v` for a key the dict does not hold yet. */
  method PutIfGiven(params: Params, key: string, v: Option<string>) returns (q: Params)
    requires key !in Keys(params)
    ensures q == params + Entry(key, v)
  {
    q := params;
    if v.Some? {
      PutNewKey(params, key, v.value);
      q := Put(params, key, v.value);
    }
  }

  /** Each of t1, t2, limit, i1 and i2 is a parameter exactly when it was supplied,
      with its own value; only `i1` may appear unasked, as the full-read default. */
  lemma SuppliedArgumentsPresent(a: QueryArgs)
    requires QueryParams(a).Success?
    ensures var p := QueryParams(a).value;
      && Lookup(p, "t1") == a.t1
      && Lookup(p, "t2") == a.t2
      && Lookup(p, "limit") == Rendered(a.limit)
      && Lookup(p, "i1") == (if !ByTime(a) && !ByIndex(a) then Some("0") else Rendered(a.i1))
      && Lookup(p, "i2") == Rendered(a.i2)
      && Lookup(p, "transform") == a.transform
  {
    ParamLookup(a, "t1");
    ParamLookup(a, "t2");
    ParamLookup(a, "limit");
    ParamLookup(a, "i1");
    ParamLookup(a, "i2");
    ParamLookup(a, "transform");
  }

  /** The value of one key in the parameters of a read. */
  lemma ParamLookup(a: QueryArgs, k: string)
    requires QueryParams(a).Success?
    ensures Lookup(QueryParams(a).value, k)
      == if k == "transform" then a.transform
         else if k == "i1" && Selection(a) == [] then Some("0")
         else LookupSelection(a, k)
  {
    var sel := Selection(a);
    var head := if sel == [] then [("i1", "0")] else sel;
    LookupAppend(head, Entry("transform", a.transform), k);
    SelectionLookup(a, k);
    SelectionLookup(a, "transform");
  }

  /** The selecting parameters have unique keys, none of them "transform". */
  lemma SelectionKeys(a: QueryArgs)
    ensures UniqueKeys(Selection(a))
    ensures Keys(Selection(a)) <= {"t1", "t2", "limit", "i1", "i2"}
  {
    var e1, e2, e3, e4, e5 := Entry("t1", a.t1), Entry("t2", a.t2), Entry("limit", Rendered(a.limit)),
                              Entry("i1", Rendered(a.i1)), Entry("i2", Rendered(a.i2));
    EntryKeys("t1", a.t1);
    AppendEntry(e1, "t2", a.t2, {"t1"});
    AppendEntry(e1 + e2, "limit", Rendered(a.limit), {"t1", "t2"});
    AppendEntry(e1 + e2 + e3, "i1", Rendered(a.i1), {"t1", "t2", "limit"});
    AppendEntry(e1 + e2 + e3 + e4, "i2", Rendered(a.i2), {"t1", "t2", "limit", "i1"});
  }

  lemma EntryKeys(k: string, v: Option<string>)
    ensures UniqueKeys(Entry(k, v)) && Keys(Entry(k, v)) <= {k}
  {
  }

  /** Adding the entry of a new key keeps the keys unique and adds at most that key. */
  lemma AppendEntry(p: Params, k: string, v: Option<string>, before: set<string>)
    requires UniqueKeys(p) && Keys(p) <= before && k !in before
    ensures UniqueKeys(p + Entry(k, v)) && Keys(p + Entry(k, v)) <= before + {k}
  {
    EntryKeys(k, v);
    KeysAppend(p, Entry(k, v));
    UniqueAppend(p, Entry(k, v));
  }

  lemma SelectionLacksTransform(a: QueryArgs)
    ensures "transform" !in Keys(if Selection(a) == [] then [("i1", "0")] else Selection(a))
  {
    if Selection(a) == [] {
      EntryKeys("i1", Some("0"));
      assert Entry("i1", Some("0")) == [("i1", "0")];
    } else {
      SelectionKeys(a);
    }
  }

  /** The value a key takes in the selecting parameters. */
  function LookupSelection(a: QueryArgs, k: string): Option<string>
  {
    if k == "t1" then a.t1 else if k == "t2" then a.t2 else if k == "limit" then Rendered(a.limit)
    else if k == "i1" then Rendered(a.i1) else if k == "i2" then Rendered(a.i2) else None
  }

  lemma SelectionLookup(a: QueryArgs, k: string)
    ensures Lookup(Selection(a), k) == LookupSelection(a, k)
  {
    var e1, e2, e3, e4, e5 := Entry("t1", a.t1), Entry("t2", a.t2), Entry("limit", Rendered(a.limit)),
                              Entry("i1", Rendered(a.i1)), Entry("i2", Rendered(a.i2));
    LookupAppend(e1 + e2 + e3 + e4, e5, k);
    LookupAppend(e1 + e2 + e3, e4, k);
    LookupAppend(e1 + e2, e3, k);
    LookupAppend(e1, e2, k);
    LookupEntry("t1", a.t1, k);
    LookupEntry("t2", a.t2, k);
    LookupEntry("limit", Rendered(a.limit), k);
    LookupEntry("i1", Rendered(a.i1), k);
    LookupEntry("i2", Rendered(a.i2), k);
  }

  lemma LookupEntry(key: string, v: Option<string>, k: string)
    ensures Lookup(Entry(key, v), k) == if k == key then v else None
  {
  }

  /** Looking a key up in two lists of entries joined: the first list wins. */
  lemma {:induction false} LookupAppend(p: Params, q: Params, k: string)
    ensures Lookup(p + q, k) == if Lookup(p, k).Some? then Lookup(p, k) else Lookup(q, k)
  {
    if p != [] {
      assert (p + q)[1..] == p[1..] + q;
      LookupAppend(p[1..], q, k);
    } else {
      assert p + q == q;
    }
  }

  /** A read with no selecting argument asks for the whole stream: `i1=0`, and the
      transform after it when one is given; the transform never replaces the default. */
  lemma DefaultIsFullRead(a: QueryArgs)
    requires !ByTime(a) && !ByIndex(a)
    ensures QueryParams(a) == Success([("i1", "0")] + Entry("transform", a.transform))
  {
    assert Selection(a) == [];
  }

  /** A given transform is the last parameter, and no key occurs twice. */
  lemma TransformLastAndKeysUnique(a: QueryArgs)
    requires QueryParams(a).Success?
    ensures a.transform.Some? ==> QueryParams(a).value[|QueryParams(a).value| - 1] == ("transform", a.transform.value)
    ensures UniqueKeys(QueryParams(a).value)
  {
    SelectionKeys(a);
    var sel := Selection(a);
    var head := if sel == [] then [("i1", "0")] else sel;
    var tail := Entry("transform", a.transform);
    assert QueryParams(a).value == head + tail;
    assert "transform" !in Keys(head);
    KeysAppend(head, tail);
    UniqueAppend(head, tail);
  }

  /** What `stream[...]` is given: a single index or a slice `start:stop`. */
  datatype Key = Item(index: int) | Slice(start: Option<int>, stop: Option<int>)

  /** `__getitem__`: a single index `k` reads `i1=k, i2=k+1`; a slice reads
      `i1=start, i2=stop`. */
  function ItemArgs(key: Key): (a: QueryArgs)
    ensures !ByTime(a) && a.transform.None?
  {
    match key
    case Item(k) => QueryArgs(None, None, None, Some(k), Some(k + 1), None)
    case Slice(start, stop) => QueryArgs(None, None, None, start, stop, None)
  }

  /** Indexing never mixes access kinds: a single item asks for the one-element index
      range, and the slice `[:]` reads the whole stream. */
  lemma ItemQueries(key: Key)
    ensures QueryParams(ItemArgs(key)).Success?
    ensures key.Item? ==> QueryParams(ItemArgs(key)).value
                            == [("i1", IntToString(key.index)), ("i2", IntToString(key.index + 1))]
    ensures key == Slice(None, None) ==> QueryParams(ItemArgs(key)).value == [("i1", "0")]
    ensures key.Slice? && (key.start.Some? || key.stop.Some?) ==>
      QueryParams(ItemArgs(key)).value == Entry("i1", Rendered(key.start)) + Entry("i2", Rendered(key.stop))
  {
  }
}
