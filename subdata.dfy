/**
 * The sub-data selection input: the list of selectable items it builds from a
 * workspace object subset, the count and option list it shows, and the
 * handlers that keep its model (reference object name, available values,
 * value) up to date.
 */
module Subdata {
  import opened Wrappers
  import opened Text
  import opened Json
  import opened Workspace

  /** The only error the shaping code can raise: a property read on null or undefined. */
  datatype Failure = TypeError

  /** `subdata_selection` of the parameter's `textsubdata_options`, with the description template compiled. */
  datatype SubdataSelection = SubdataSelection(
    parameterId: string,
    pathToSubdata: seq<string>,
    selectionId: Option<string>,
    subdataIncluded: seq<string>,
    describe: Option<Json> -> string)

  /** The object identity `get_object_subset` is asked for: the reference and the included paths. */
  datatype SubsetRequest = SubsetRequest(ref: string, included: seq<string>)

  /** One result of `get_object_subset`: the included data and the object-info tuple. */
  datatype SubsetResult = SubsetResult(data: Json, info: ObjectInfo)

  /** A selectable item. */
  datatype Item = Item(id: Option<Json>, desc: string, objectRef: string, objectName: string)

  // ---------------------------------------------------------------------------
  // getProp
  // ---------------------------------------------------------------------------

  /** Following `props` one property at a time from `obj`; a step from null or undefined throws. */
  function PropPath(obj: Option<Json>, props: seq<string>): Result<Option<Json>, Failure>
    decreases |props|
  {
    if |props| == 0 then Ok(obj)
    else if obj.None? || obj.value.JNull? then Err(TypeError)
    else PropPath(Property(obj.value, props[0]), props[1..])
  }

  /** `getProp(obj, props)`: reassigns `obj` once per property. */
  method GetProp(obj: Option<Json>, props: seq<string>) returns (r: Result<Option<Json>, Failure>)
    ensures r == PropPath(obj, props)
  {
    var cur := obj;
    for i := 0 to |props|
      invariant PropPath(obj, props) == PropPath(cur, props[i..])
    {
      assert props[i..][1..] == props[i + 1..];
      if cur.None? || cur.value.JNull? {
        return Err(TypeError);
      }
      cur := Property(cur.value, props[i]);
    }
    assert props[|props|..] == [];
    return Ok(cur);
  }

  /** Following a path in two parts is following the first part, then the second from where it ends. */
  lemma {:induction false} PropPathAppend(obj: Option<Json>, p: seq<string>, q: seq<string>)
    ensures PropPath(obj, p + q) == (if PropPath(obj, p).Err? then PropPath(obj, p) else PropPath(PropPath(obj, p).value, q))
    decreases |p|
  {
    if |p| == 0 {
      assert p + q == q;
    } else if obj.None? || obj.value.JNull? {
    } else {
      assert (p + q)[1..] == p[1..] + q;
      PropPathAppend(Property(obj.value, p[0]), p[1..], q);
    }
  }

  /** A path of object keys leads to the value nested under them. */
  lemma PropPathThroughObject(key: string, v: Json, rest: seq<string>)
    ensures PropPath(Some(JObj([Member(key, v)])), [key] + rest) == PropPath(Some(v), rest)
  {
    assert ([key] + rest)[1..] == rest;
  }

  // ---------------------------------------------------------------------------
  // Item ids
  // ---------------------------------------------------------------------------

  /** The property name `datum[selectionId]` reads: an undefined selection id reads `"undefined"`. */
  function SelectionKey(selectionId: Option<string>): string {
    if selectionId.Some? then selectionId.value else "undefined"
  }

  predicate SelectionTruthy(selectionId: Option<string>) {
    selectionId.Some? && selectionId.value != ""
  }

  /** The id of an element of array sub-data: its `selection_id` property. */
  function ArrayItemId(datum: Json, selectionId: Option<string>): (r: Result<Option<Json>, Failure>)
    ensures r.Err? <==> datum.JNull?
  {
    if datum.JNull? then Err(TypeError) else Ok(Property(datum, SelectionKey(selectionId)))
  }

  /**
   * The id of the entry under `key` of sub-data that is not an array: the key,
   * unless a selection id is given and the entry is an object (its selection
   * property) or a string or number while the selection id is `value` (the
   * entry itself).
   */
  function ObjectItemId(key: string, datum: Option<Json>, selectionId: Option<string>): (r: Result<Option<Json>, Failure>)
    ensures r.Err? <==> SelectionTruthy(selectionId) && datum == Some(JNull)
    ensures !SelectionTruthy(selectionId) ==> r == Ok(Some(JStr(key)))
  {
    if !SelectionTruthy(selectionId) || datum.None? then Ok(Some(JStr(key)))
    else
      match datum.value
      // typeof 'object'
      case JNull => Err(TypeError)
      case JArr(_) => Ok(Property(datum.value, selectionId.value))
      case JObj(_) => Ok(Property(datum.value, selectionId.value))
      // typeof 'string' and 'number'
      case JStr(_) => Ok(if selectionId.value == "value" then datum else Some(JStr(key)))
      case JNum(_) => Ok(if selectionId.value == "value" then datum else Some(JStr(key)))
      // typeof 'boolean'
      case JBool(_) => Ok(Some(JStr(key)))
  }

  /** The index names `"0"`, ..., `String(n - 1)`. */
  function IndexKeys(n: nat): (keys: seq<string>)
    ensures |keys| == n
    ensures forall i :: 0 <= i < n ==> keys[i] == NatToString(i)
  {
    if n == 0 then [] else IndexKeys(n - 1) + [NatToString(n - 1)]
  }

  /**
   * An id other than the key is the selection property of an object entry, or
   * a string or number entry itself under the selection id `value`.
   */
  lemma IdIsKeyOrSelected(key: string, datum: Option<Json>, selectionId: Option<string>)
    ensures var r := ObjectItemId(key, datum, selectionId);
      r.Ok? && r.value != Some(JStr(key)) ==>
      && SelectionTruthy(selectionId) && datum.Some?
      && (|| (TypeOf(datum) == "object" && r.value == Property(datum.value, selectionId.value))
          || (selectionId.value == "value" && (datum.value.JStr? || datum.value.JNum?) && r.value == datum))
  {
  }

  /** `Object.keys(v)` for a value other than null, undefined and arrays. */
  function ObjectKeys(v: Json): (keys: seq<string>)
    requires !v.JNull?
    ensures v.JObj? ==> keys == Keys(v.members)
    ensures v.JStr? ==> keys == IndexKeys(|v.s|)
    ensures v.JNum? || v.JBool? ==> keys == []
  {
    match v
    case JObj(members) => Keys(members)
    case JStr(s) => IndexKeys(|s|)
    case _ => []
  }

  /** A key of sub-data that is not an array, with the entry `subdata[key]` under it. */
  datatype Entry = Entry(key: string, datum: Option<Json>)

  /** The entries under `keys`, in order. */
  function Entries(subdata: Json, keys: seq<string>): (es: seq<Entry>)
    requires !subdata.JNull?
    ensures |es| == |keys|
    ensures forall i :: 0 <= i < |keys| ==> es[i] == Entry(keys[i], Property(subdata, keys[i]))
  {
    if |keys| == 0 then [] else Entries(subdata, keys[..|keys| - 1]) + [Entry(keys[|keys| - 1], Property(subdata, keys[|keys| - 1]))]
  }

  // ---------------------------------------------------------------------------
  // fetchData's shaping of the results
  // ---------------------------------------------------------------------------

  function MakeItem(id: Option<Json>, datum: Option<Json>, info: ObjectInfo, sel: SubdataSelection): Item {
    Item(id, sel.describe(datum), Ref(info), info.name)
  }

  /** The items of array sub-data, in element order. */
  function ArrayItems(items: seq<Json>, info: ObjectInfo, sel: SubdataSelection): (r: Result<seq<Item>, Failure>)
    ensures r.Err? <==> exists i :: 0 <= i < |items| && items[i].JNull?
    ensures r.Ok? ==> |r.value| == |items|
    ensures r.Ok? ==> forall i :: 0 <= i < |items| ==>
      && r.value[i].id == Property(items[i], SelectionKey(sel.selectionId))
      && r.value[i].objectRef == Ref(info) && r.value[i].objectName == info.name
  {
    if |items| == 0 then Ok([])
    else
      var init := ArrayItems(items[..|items| - 1], info, sel);
      var last := items[|items| - 1];
      assert forall i :: 0 <= i < |items| - 1 ==> items[..|items| - 1][i] == items[i];
      var id := ArrayItemId(last, sel.selectionId);
      if init.Err? then Err(TypeError)
      else if id.Err? then Err(TypeError)
      else Ok(init.value + [MakeItem(id.value, Some(last), info, sel)])
  }

  /** The items of the entries of sub-data that is not an array, in key order. */
  function ObjectItems(entries: seq<Entry>, info: ObjectInfo, sel: SubdataSelection): (r: Result<seq<Item>, Failure>)
    ensures r.Err? <==> SelectionTruthy(sel.selectionId) && exists i :: 0 <= i < |entries| && entries[i].datum == Some(JNull)
    ensures r.Ok? ==> |r.value| == |entries|
    ensures r.Ok? ==> forall i :: 0 <= i < |entries| ==>
      && r.value[i].id == ObjectItemId(entries[i].key, entries[i].datum, sel.selectionId).value
      && r.value[i].objectRef == Ref(info) && r.value[i].objectName == info.name
  {
    if |entries| == 0 then Ok([])
    else
      var init := ObjectItems(entries[..|entries| - 1], info, sel);
      var last := entries[|entries| - 1];
      assert forall i :: 0 <= i < |entries| - 1 ==> entries[..|entries| - 1][i] == entries[i];
      var id := ObjectItemId(last.key, last.datum, sel.selectionId);
      if init.Err? then Err(TypeError)
      else if id.Err? then Err(TypeError)
      else Ok(init.value + [MakeItem(id.value, last.datum, info, sel)])
  }

  /** The items of one result: its sub-data found by the path, shaped as an array or by keys. */
  function ResultItems(res: SubsetResult, sel: SubdataSelection): Result<seq<Item>, Failure> {
    var sub := PropPath(Some(res.data), sel.pathToSubdata);
    if sub.Err? then Err(TypeError)
    else if sub.value.Some? && sub.value.value.JArr? then ArrayItems(sub.value.value.items, res.info, sel)
    else if sub.value.None? || sub.value.value.JNull? then Err(TypeError)
    else ObjectItems(Entries(sub.value.value, ObjectKeys(sub.value.value)), res.info, sel)
  }

  /** The references of the present results, in order. */
  function PresentRefs(results: seq<Option<SubsetResult>>): seq<string> {
    if |results| == 0 then []
    else
      var last := results[|results| - 1];
      PresentRefs(results[..|results| - 1]) + (if last.Some? then [Ref(last.value.info)] else [])
  }

  /** A listed reference is the reference of a present result, found at index `i`. */
  lemma {:induction false} PresentRefSource(results: seq<Option<SubsetResult>>, x: string) returns (i: nat)
    requires x in PresentRefs(results)
    ensures i < |results| && results[i].Some? && x == Ref(results[i].value.info)
  {
    var init := results[..|results| - 1];
    if x in PresentRefs(init) {
      i := PresentRefSource(init, x);
      assert results[i] == init[i];
    } else {
      i := |results| - 1;
    }
  }

  /** The reference of every present result is listed. */
  lemma {:induction false} PresentRefsComplete(results: seq<Option<SubsetResult>>, i: nat)
    requires i < |results| && results[i].Some?
    ensures Ref(results[i].value.info) in PresentRefs(results)
  {
    var init := results[..|results| - 1];
    if i < |init| {
      assert init[i] == results[i];
      PresentRefsComplete(init, i);
    }
  }

  /** The items of all results in order; a missing (falsy) result contributes none. */
  function Collected(results: seq<Option<SubsetResult>>, sel: SubdataSelection): (r: Result<seq<Item>, Failure>)
    ensures r.Ok? ==> forall k :: 0 <= k < |r.value| ==> r.value[k].objectRef in PresentRefs(results)
  {
    if |results| == 0 then Ok([])
    else
      var init := Collected(results[..|results| - 1], sel);
      var last := results[|results| - 1];
      if init.Err? then Err(TypeError)
      else if last.None? then init
      else
        var items := ResultItems(last.value, sel);
        if items.Err? then Err(TypeError)
        else
          var r := init.value + items.value;
          assert forall k :: |init.value| <= k < |r| ==> r[k].objectRef == Ref(last.value.info) by {
            ResultItemsRef(last.value, sel);
          }
          assert forall k :: 0 <= k < |init.value| ==> r[k] == init.value[k];
          Ok(r)
  }

  lemma ResultItemsRef(res: SubsetResult, sel: SubdataSelection)
    ensures ResultItems(res, sel).Ok? ==> forall k :: 0 <= k < |ResultItems(res, sel).value| ==> ResultItems(res, sel).value[k].objectRef == Ref(res.info)
  {
  }

  /** The results that are present. */
  function Present(results: seq<Option<SubsetResult>>): (r: seq<Option<SubsetResult>>)
    ensures forall i :: 0 <= i < |r| ==> r[i].Some?
  {
    if |results| == 0 then []
    else if results[|results| - 1].None? then Present(results[..|results| - 1])
    else Present(results[..|results| - 1]) + [results[|results| - 1]]
  }

  /** Missing results are skipped: collecting from all results is collecting from the present ones. */
  lemma {:induction false} MissingResultsSkipped(results: seq<Option<SubsetResult>>, sel: SubdataSelection)
    ensures Collected(results, sel) == Collected(Present(results), sel)
  {
    if |results| > 0 {
      var init := results[..|results| - 1];
      MissingResultsSkipped(init, sel);
      if results[|results| - 1].Some? {
        var p := Present(results);
        assert p[..|p| - 1] == Present(init);
      }
    }
  }

  /** Collecting from results in two parts is collecting from each and joining the items. */
  lemma {:induction false} CollectedAppend(rs: seq<Option<SubsetResult>>, res: SubsetResult, sel: SubdataSelection)
    requires Collected(rs, sel).Ok? && ResultItems(res, sel).Ok?
    ensures Collected(rs + [Some(res)], sel) == Ok(Collected(rs, sel).value + ResultItems(res, sel).value)
  {
    assert (rs + [Some(res)])[..|rs|] == rs;
  }

  /** Once collecting a prefix of the results fails, collecting all of them fails. */
  lemma {:induction false} CollectedErrorPersists(rs: seq<Option<SubsetResult>>, n: nat, sel: SubdataSelection)
    requires n <= |rs| && Collected(rs[..n], sel).Err?
    ensures Collected(rs, sel) == Err(TypeError)
    decreases |rs| - n
  {
    if n < |rs| {
      assert rs[..n + 1][..n] == rs[..n];
      CollectedErrorPersists(rs, n + 1, sel);
    } else {
      assert rs[..n] == rs;
    }
  }

  /** A present result whose items fail makes the collection fail. */
  lemma CollectedFailsAt(rs: seq<Option<SubsetResult>>, n: nat, sel: SubdataSelection)
    requires n < |rs| && rs[n].Some? && ResultItems(rs[n].value, sel).Err?
    ensures Collected(rs, sel) == Err(TypeError)
  {
    assert rs[..n + 1][..n] == rs[..n];
    CollectedErrorPersists(rs, n + 1, sel);
  }

  /** The items of `r` after `prefix`, or the failure of `r`. */
  function Appended(prefix: seq<Item>, r: Result<seq<Item>, Failure>): Result<seq<Item>, Failure> {
    if r.Err? then Err(TypeError) else Ok(prefix + r.value)
  }

  /** A null element makes the whole array fail. */
  lemma ArrayItemsFailAt(items: seq<Json>, j: nat, info: ObjectInfo, sel: SubdataSelection)
    requires j < |items| && ArrayItemId(items[j], sel.selectionId).Err?
    ensures ArrayItems(items, info, sel) == Err(TypeError)
  {
    assert items[j].JNull?;
  }

  /** An entry whose id cannot be read makes the whole object fail. */
  lemma ObjectItemsFailAt(es: seq<Entry>, j: nat, info: ObjectInfo, sel: SubdataSelection)
    requires j < |es| && ObjectItemId(es[j].key, es[j].datum, sel.selectionId).Err?
    ensures ObjectItems(es, info, sel) == Err(TypeError)
  {
    assert SelectionTruthy(sel.selectionId) && es[j].datum == Some(JNull);
  }

  /** The inner `forEach` over array sub-data, pushing one item per element onto `values`. */
  method PushArrayItems(values: seq<Item>, items: seq<Json>, info: ObjectInfo, sel: SubdataSelection) returns (r: Result<seq<Item>, Failure>)
    ensures r == Appended(values, ArrayItems(items, info, sel))
  {
    var out := values;
    for j := 0 to |items|
      invariant ArrayItems(items[..j], info, sel).Ok?
      invariant out == values + ArrayItems(items[..j], info, sel).value
    {
      assert items[..j + 1][..j] == items[..j];
      var id := ArrayItemId(items[j], sel.selectionId);
      if id.Err? {
        ArrayItemsFailAt(items, j, info, sel);
        return Err(TypeError);
      }
      out := out + [MakeItem(id.value, Some(items[j]), info, sel)];
    }
    assert items[..|items|] == items;
    return Ok(out);
  }

  /**
   * The inner `forEach` over `Object.keys(subdata)`, pushing one item per key
   * onto `values`; `es` holds each key with its datum `subdata[key]`.
   */
  method PushObjectItems(values: seq<Item>, es: seq<Entry>, info: ObjectInfo, sel: SubdataSelection) returns (r: Result<seq<Item>, Failure>)
    ensures r == Appended(values, ObjectItems(es, info, sel))
  {
    var out := values;
    for j := 0 to |es|
      invariant ObjectItems(es[..j], info, sel).Ok?
      invariant out == values + ObjectItems(es[..j], info, sel).value
    {
      assert es[..j + 1][..j] == es[..j];
      var id := ObjectItemId(es[j].key, es[j].datum, sel.selectionId);
      if id.Err? {
        ObjectItemsFailAt(es, j, info, sel);
        return Err(TypeError);
      }
      out := out + [MakeItem(id.value, es[j].datum, info, sel)];
    }
    assert es[..|es|] == es;
    return Ok(out);
  }

  /**
   * Collects the items of the results, as the nested `forEach` loops do,
   * pushing onto one list.
   */
  method CollectValues(results: seq<Option<SubsetResult>>, sel: SubdataSelection) returns (r: Result<seq<Item>, Failure>)
    ensures r == Collected(results, sel)
  {
    var values: seq<Item> := [];
    for n := 0 to |results|
      invariant Collected(results[..n], sel) == Ok(values)
    {
      assert results[..n + 1][..n] == results[..n];
      var result := results[n];
      if result.None? {
        continue;
      }
      var sub := GetProp(Some(result.value.data), sel.pathToSubdata);
      if sub.Err? {
        CollectedFailsAt(results, n, sel);
        return Err(TypeError);
      }
      var info := result.value.info;
      var pushed;
      if sub.value.Some? && sub.value.value.JArr? {
        pushed := PushArrayItems(values, sub.value.value.items, info, sel);
      } else if sub.value.None? || sub.value.value.JNull? {
        pushed := Err(TypeError);
      } else {
        var subdata := sub.value.value;
        pushed := PushObjectItems(values, Entries(subdata, ObjectKeys(subdata)), info, sel);
      }
      if pushed.Err? {
        CollectedFailsAt(results, n, sel);
        return pushed;
      }
      values := pushed.value;
      CollectedAppend(results[..n], result.value, sel);
      assert results[..n] + [result] == results[..n + 1];
    }
    assert results[..|results|] == results;
    return Ok(values);
  }

  /** Without a selection id, the items of object sub-data are identified by its keys. */
  lemma KeysIdentifyWithoutSelection(members: seq<Member>, info: ObjectInfo, sel: SubdataSelection)
    requires !SelectionTruthy(sel.selectionId)
    ensures var r := ObjectItems(Entries(JObj(members), Keys(members)), info, sel);
      r.Ok? && forall i :: 0 <= i < |members| ==> r.value[i].id == Some(JStr(members[i].key))
  {
  }

  // ---------------------------------------------------------------------------
  // Sorting by id
  // ---------------------------------------------------------------------------

  /**
   * Lexicographic order on characters (Unicode code points). JavaScript
   * compares UTF-16 code units instead; the two agree on strings of Basic
   * Multilingual Plane characters.
   */
  predicate StrLeq(a: string, b: string) {
    |a| == 0 || (|b| > 0 && (a[0] < b[0] || (a[0] == b[0] && StrLeq(a[1..], b[1..]))))
  }

  lemma {:induction false} StrLeqTotal(a: string, b: string)
    ensures StrLeq(a, b) || StrLeq(b, a)
  {
    if |a| > 0 && |b| > 0 && a[0] == b[0] {
      StrLeqTotal(a[1..], b[1..]);
    }
  }

  lemma {:induction false} StrLeqTrans(a: string, b: string, c: string)
    requires StrLeq(a, b) && StrLeq(b, c)
    ensures StrLeq(a, c)
  {
    if |a| > 0 && a[0] == b[0] && b[0] == c[0] {
      StrLeqTrans(a[1..], b[1..], c[1..]);
    }
  }

  /** The kind of an id, for ordering ids of different kinds. */
  function Rank(id: Option<Json>): nat {
    match id
    case None => 0
    case Some(JNull) => 1
    case Some(JBool(_)) => 2
    case Some(JNum(_)) => 3
    case Some(JStr(_)) => 4
    case Some(_) => 5
  }

  /**
   * The order `data.sort` arranges ids in: on two numbers and on two strings
   * it is the order of JavaScript's `<`; ids of different kinds are ordered by
   * kind.
   */
  predicate IdLeq(a: Option<Json>, b: Option<Json>) {
    if Rank(a) != Rank(b) then Rank(a) < Rank(b)
    else match (a, b)
      case (Some(JBool(x)), Some(JBool(y))) => !x || y
      case (Some(JNum(x)), Some(JNum(y))) => x <= y
      case (Some(JStr(x)), Some(JStr(y))) => StrLeq(x, y)
      case _ => true
  }

  lemma IdLeqTotal(a: Option<Json>, b: Option<Json>)
    ensures IdLeq(a, b) || IdLeq(b, a)
  {
    if a.Some? && a.value.JStr? && b.Some? && b.value.JStr? {
      StrLeqTotal(a.value.s, b.value.s);
    }
  }

  lemma IdLeqTrans(a: Option<Json>, b: Option<Json>, c: Option<Json>)
    requires IdLeq(a, b) && IdLeq(b, c)
    ensures IdLeq(a, c)
  {
    if a.Some? && a.value.JStr? && b.Some? && b.value.JStr? && c.Some? && c.value.JStr? {
      StrLeqTrans(a.value.s, b.value.s, c.value.s);
    }
  }

  predicate Sorted(s: seq<Item>) {
    forall i, j :: 0 <= i < j < |s| ==> IdLeq(s[i].id, s[j].id)
  }

  /** A sorted list has no pair in which the later id is smaller than the earlier one. */
  lemma SortedHasNoInversion(s: seq<Item>, i: nat, j: nat)
    requires Sorted(s) && i < j < |s|
    ensures !IdLeq(s[j].id, s[i].id) ==> IdLeq(s[i].id, s[j].id)
    ensures s[i].id.Some? && s[i].id.value.JNum? && s[j].id.Some? && s[j].id.value.JNum? ==> s[i].id.value.n <= s[j].id.value.n
  {
  }

  method Swap(a: array<Item>, i: nat, j: nat)
    requires i < a.Length && j < a.Length
    modifies a
    ensures a[..] == old(a[..])[i := old(a[j])][j := old(a[i])]
    ensures multiset(a[..]) == multiset(old(a[..]))
  {
    a[i], a[j] := a[j], a[i];
  }

  /** `data.sort` by id: an insertion sort in place. */
  method SortById(a: array<Item>)
    modifies a
    ensures Sorted(a[..])
    ensures multiset(a[..]) == multiset(old(a[..]))
  {
    for i := 0 to a.Length
      invariant Sorted(a[..i])
      invariant multiset(a[..]) == multiset(old(a[..]))
    {
      InsertLast(a, i);
    }
    assert a[..a.Length] == a[..];
  }

  /** Moves `a[i]` down into the sorted prefix `a[..i]`, leaving `a[..i + 1]` sorted. */
  method InsertLast(a: array<Item>, i: nat)
    requires i < a.Length && Sorted(a[..i])
    modifies a
    ensures Sorted(a[..i + 1])
    ensures multiset(a[..]) == multiset(old(a[..]))
  {
    var j := i;
    while j > 0 && !IdLeq(a[j - 1].id, a[j].id)
      invariant 0 <= j <= i
      invariant forall k, l :: 0 <= k < l <= i && k != j && l != j ==> IdLeq(a[k].id, a[l].id)
      invariant forall l :: j < l <= i ==> IdLeq(a[j].id, a[l].id)
      invariant forall k, l :: 0 <= k < j < l <= i ==> IdLeq(a[k].id, a[l].id)
      invariant multiset(a[..]) == multiset(old(a[..]))
    {
      IdLeqTotal(a[j - 1].id, a[j].id);
      Swap(a, j - 1, j);
      j := j - 1;
    }
    forall k | 0 <= k < j
      ensures IdLeq(a[k].id, a[j].id)
    {
      if k < j - 1 {
        IdLeqTrans(a[k].id, a[j - 1].id, a[j].id);
      }
    }
  }

  /**
   * `fetchData`: with no reference object name there is nothing to fetch and
   * the list is empty; otherwise the request names the object
   * `workspaceId/name`, and `results` answers it. The items are collected and
   * sorted by id.
   */
  method FetchData(workspaceId: nat, referenceObjectName: Option<Json>, results: seq<Option<SubsetResult>>, sel: SubdataSelection)
    returns (request: Option<SubsetRequest>, r: Result<seq<Item>, Failure>)
    ensures !OptTruthy(referenceObjectName) ==> request.None? && r == Ok([])
    ensures OptTruthy(referenceObjectName) ==>
      && request == Some(SubsetRequest(NatToString(workspaceId) + "/" + StringOf(referenceObjectName), sel.subdataIncluded))
      && (Collected(results, sel).Err? ==> r == Err(TypeError))
      && (Collected(results, sel).Ok? ==>
            && r.Ok? && Sorted(r.value) && multiset(r.value) == multiset(Collected(results, sel).value))
  {
    if !OptTruthy(referenceObjectName) {
      return None, Ok([]);
    }
    request := Some(SubsetRequest(NatToString(workspaceId) + "/" + StringOf(referenceObjectName), sel.subdataIncluded));
    var values := CollectValues(results, sel);
    if values.Err? {
      return request, values;
    }
    var data := new Item[|values.value|](i requires 0 <= i < |values.value| => values.value[i]);
    assert data[..] == values.value;
    SortById(data);
    r := Ok(data[..]);
  }

  // ---------------------------------------------------------------------------
  // buildCount, buildOptions, resetModelValue
  // ---------------------------------------------------------------------------

  /** `String((value || []).length)`. */
  function LengthText(value: Json): string {
    if !Truthy(value) then "0" else StringOf(Property(value, "length"))
  }

  /** `buildCount`: the number of selected values over the number of available ones. */
  function BuildCount(value: Json, available: Option<seq<Item>>): string {
    var n := if available.Some? then |available.value| else 0;
    LengthText(value) + " / " + NatToString(n) + " items"
  }

  /** The two numbers of a count text `"<m> / <n> items"`, or `None` when the text is not one. */
  function ParseCount(s: string): Option<(nat, nat)> {
    var parts := Split(s, ' ');
    if |parts| == 4 && parts[1] == "/" && parts[3] == "items"
       && |parts[0]| >= 1 && IsDigits(parts[0]) && |parts[2]| >= 1 && IsDigits(parts[2]) then
      Some((DigitsValue(parts[0]), DigitsValue(parts[2])))
    else None
  }

  /** A count text is its four words joined by spaces. */
  lemma CountIsJoin(m: string, k: string)
    ensures m + " / " + k + " items" == Join([m, "/", k, "items"], ' ')
  {
    var parts := [m, "/", k, "items"];
    assert parts[1..] == ["/", k, "items"];
    assert parts[1..][1..] == [k, "items"];
    assert parts[1..][1..][1..] == ["items"];
    assert Join([k, "items"], ' ') == k + [' '] + "items";
    assert Join(["/", k, "items"], ' ') == "/" + [' '] + (k + [' '] + "items");
  }

  /**
   * For a list value, the count reads back as the length of the value and the
   * number of available values, a missing list counting 0.
   */
  lemma CountRoundTrip(values: seq<Json>, available: Option<seq<Item>>)
    ensures var n := if available.Some? then |available.value| else 0;
      ParseCount(BuildCount(JArr(values), available)) == Some((|values|, n))
  {
    var n := if available.Some? then |available.value| else 0;
    var m := NatToString(|values|);
    assert LengthText(JArr(values)) == m;
    var k := NatToString(n);
    var parts := [m, "/", k, "items"];
    CountIsJoin(m, k);
    DigitsHaveNoSeparator(m, ' ');
    DigitsHaveNoSeparator(NatToString(n), ' ');
    SplitJoin(parts, ' ');
    NatToStringRoundTrip(|values|);
    NatToStringRoundTrip(n);
  }

  /** `a === b` for a value stored in a list and an id; objects and arrays are never the same object. */
  predicate StrictEquals(a: Json, b: Option<Json>) {
    b.Some? &&
    match (a, b.value)
    case (JNull, JNull) => true
    case (JBool(x), JBool(y)) => x == y
    case (JNum(x), JNum(y)) => x == y
    case (JStr(x), JStr(y)) => x == y
    case _ => false
  }

  predicate OccursAt(s: string, t: string, k: nat)
    requires k + |t| <= |s|
  {
    s[k..k + |t|] == t
  }

  /** `s.indexOf(t) >= 0`. */
  predicate Contains(s: string, t: string) {
    exists k: nat :: k + |t| <= |s| && OccursAt(s, t, k)
  }

  /** `(value || []).indexOf` exists: the value is falsy, a list or a string. */
  predicate Searchable(value: Json) {
    !Truthy(value) || value.JArr? || value.JStr?
  }

  /** `(value || []).indexOf(id) >= 0`. */
  predicate IsSelected(value: Json, id: Option<Json>)
    requires Searchable(value)
  {
    if !Truthy(value) then false
    else if value.JArr? then exists i :: 0 <= i < |value.items| && StrictEquals(value.items[i], id)
    else Contains(value.s, StringOf(id))
  }

  datatype SelectOption = SelectOption(value: Option<Json>, text: Option<Json>, selected: bool)

  const Blank := SelectOption(Some(JStr("")), Some(JStr("")), false)

  /**
   * `buildOptions`: a blank option, then one option per available value whose
   * value and label are its id, selected when the id is in the value.
   */
  function BuildOptions(available: Option<seq<Item>>, value: Json): (r: Result<seq<SelectOption>, Failure>)
    ensures r.Err? <==> available.Some? && |available.value| > 0 && !Searchable(value)
    ensures available.None? ==> r == Ok([Blank])
    ensures r.Ok? && available.Some? ==>
      && |r.value| == |available.value| + 1 && r.value[0] == Blank
      && forall i :: 0 <= i < |available.value| ==>
           && r.value[i + 1].value == available.value[i].id && r.value[i + 1].text == available.value[i].id
           && r.value[i + 1].selected == IsSelected(value, available.value[i].id)
  {
    if available.None? then Ok([Blank])
    else if |available.value| > 0 && !Searchable(value) then Err(TypeError)
    else
      var items := available.value;
      Ok([Blank] + seq(|items|, i requires 0 <= i < |items| => SelectOption(items[i].id, items[i].id, IsSelected(value, items[i].id))))
  }

  /**
   * With a list of strings as the value, an option is selected exactly when
   * its id is one of those strings.
   */
  lemma SelectedIffInValue(available: seq<Item>, ss: seq<string>, i: nat)
    requires i < |available|
    ensures BuildOptions(Some(available), Strings(ss)).Ok?
    ensures BuildOptions(Some(available), Strings(ss)).value[i + 1].selected <==>
      exists s :: s in ss && available[i].id == Some(JStr(s))
  {
    var v := Strings(ss);
    var id := available[i].id;
    assert v.JArr? && Truthy(v);
    if exists s :: s in ss && id == Some(JStr(s)) {
      var s :| s in ss && id == Some(JStr(s));
      var k :| 0 <= k < |ss| && ss[k] == s;
      assert StrictEquals(v.items[k], id);
    }
    if IsSelected(v, id) {
      var k :| 0 <= k < |v.items| && StrictEquals(v.items[k], id);
      assert ss[k] in ss && id == Some(JStr(ss[k]));
    }
  }

  /** The value `resetModelValue` stores: the first default split on commas, or null. */
  function ResetValue(defaults: Option<seq<string>>): (v: Json)
    ensures defaults.None? || |defaults.value| == 0 <==> v == JNull
  {
    if defaults.Some? && |defaults.value| > 0 then Strings(Split(defaults.value[0], ',')) else JNull
  }

  /** The reset value joins back to the first default. */
  lemma ResetValueJoinsBack(defaults: seq<string>)
    requires |defaults| > 0
    ensures ToJsString(ResetValue(Some(defaults))) == defaults[0]
  {
    JoinStrings(Split(defaults[0], ','));
    JoinSplit(defaults[0], ',');
  }

  /** After a reset the count shows one value per comma-separated piece of the first default. */
  lemma ResetCount(defaults: seq<string>, available: Option<seq<Item>>)
    requires |defaults| > 0
    ensures var n := if available.Some? then |available.value| else 0;
      ParseCount(BuildCount(ResetValue(Some(defaults)), available)) == Some((Count(defaults[0], ',') + 1, n))
  {
    SplitPieces(defaults[0], ',');
    CountRoundTrip(Strings(Split(defaults[0], ',')).items, available);
  }

  /** The reference object name a `parameter-changed` message stores: an empty string stands for none. */
  function ReferenceName(newValue: Option<Json>): (r: Option<Json>)
    ensures newValue == Some(JStr("")) ==> r == Some(JNull)
    ensures newValue != Some(JStr("")) ==> r == newValue
    ensures !OptTruthy(r) <==> !OptTruthy(newValue)
  {
    if newValue == Some(JStr("")) then Some(JNull) else newValue
  }

  // ---------------------------------------------------------------------------
  // The widget
  // ---------------------------------------------------------------------------

  class SubdataWidget {
    var referenceObjectName: Option<Json>
    /** `None` when the model holds no list (`null` or `undefined`). */
    var availableValues: Option<seq<Item>>
    var value: Json
    const workspaceId: nat
    const selection: SubdataSelection
    const defaultValues: Option<seq<string>>

    constructor(workspaceId: nat, selection: SubdataSelection, defaultValues: Option<seq<string>>)
      ensures referenceObjectName == Some(JNull) && availableValues == Some([]) && value == JNull
      ensures this.workspaceId == workspaceId && this.selection == selection && this.defaultValues == defaultValues
    {
      referenceObjectName := Some(JNull);
      availableValues := Some([]);
      value := JNull;
      this.workspaceId := workspaceId;
      this.selection := selection;
      this.defaultValues := defaultValues;
    }

    /** The count the widget shows. */
    function CountText(): string
      reads this
    {
      BuildCount(value, availableValues)
    }

    method ResetModelValue()
      modifies this
      ensures value == ResetValue(defaultValues)
      ensures referenceObjectName == old(referenceObjectName) && availableValues == old(availableValues)
    {
      if defaultValues.Some? && |defaultValues.value| > 0 {
        value := Strings(Split(defaultValues.value[0], ','));
      } else {
        value := JNull;
      }
    }

    /** `reset-to-defaults`: the default value, no available values and no reference object. */
    method ResetToDefaults()
      modifies this
      ensures value == ResetValue(defaultValues)
      ensures availableValues == Some([]) && referenceObjectName == Some(JNull)
      ensures ParseCount(CountText()) == Some((if defaultValues.Some? && |defaultValues.value| > 0 then Count(defaultValues.value[0], ',') + 1 else 0, 0))
    {
      ResetModelValue();
      availableValues := Some([]);
      referenceObjectName := Some(JNull);
      if defaultValues.Some? && |defaultValues.value| > 0 {
        ResetCount(defaultValues.value, availableValues);
      } else {
        CountRoundTrip([], availableValues);
        assert BuildCount(JNull, availableValues) == BuildCount(JArr([]), availableValues);
      }
    }

    /** `update`: the value the message carries. */
    method Update(v: Json)
      modifies this
      ensures value == v
      ensures referenceObjectName == old(referenceObjectName) && availableValues == old(availableValues)
    {
      value := v;
    }

    /**
     * Fetches the items for the current reference object; `results` answers the
     * request. A failed fetch leaves the available values as they were.
     */
    method SyncAvailableValues(results: seq<Option<SubsetResult>>) returns (request: Option<SubsetRequest>)
      modifies this
      ensures referenceObjectName == old(referenceObjectName) && value == old(value)
      ensures !OptTruthy(referenceObjectName) ==> request.None? && availableValues == Some([])
      ensures OptTruthy(referenceObjectName) ==>
        && request == Some(SubsetRequest(NatToString(workspaceId) + "/" + StringOf(referenceObjectName), selection.subdataIncluded))
        && (Collected(results, selection).Err? ==> availableValues == old(availableValues))
        && (Collected(results, selection).Ok? ==>
              availableValues.Some? && Sorted(availableValues.value)
              && multiset(availableValues.value) == multiset(Collected(results, selection).value))
    {
      var data;
      request, data := FetchData(workspaceId, referenceObjectName, results, selection);
      if data.Ok? {
        availableValues := Some(data.value);
      }
    }

    /**
     * `parameter-changed`: for the linked parameter, stores the new reference
     * object name and fetches its items; messages about other parameters are
     * ignored.
     */
    method OnParameterChanged(parameter: string, newValue: Option<Json>, results: seq<Option<SubsetResult>>) returns (request: Option<SubsetRequest>)
      modifies this
      ensures value == old(value)
      ensures parameter != selection.parameterId ==>
        request.None? && referenceObjectName == old(referenceObjectName) && availableValues == old(availableValues)
      ensures parameter == selection.parameterId ==>
        && referenceObjectName == ReferenceName(newValue)
        && (!OptTruthy(newValue) ==> request.None? && availableValues == Some([]))
        && (OptTruthy(newValue) ==>
              && request == Some(SubsetRequest(NatToString(workspaceId) + "/" + StringOf(ReferenceName(newValue)), selection.subdataIncluded))
              && (Collected(results, selection).Err? ==> availableValues == old(availableValues))
              && (Collected(results, selection).Ok? ==>
                    availableValues.Some? && Sorted(availableValues.value)
                    && multiset(availableValues.value) == multiset(Collected(results, selection).value)))
    {
      if parameter != selection.parameterId {
        return None;
      }
      referenceObjectName := ReferenceName(newValue);
      request := SyncAvailableValues(results);
    }
  }
}
