/** The structural merge of the partial answers of several nodes
    (DistributedAPI.merge_results), written as functions.  The class method
    Dapi.DistributedApi.MergeResults runs the same merge with loops and is
    proved equal to MergeAll. */
module Merge {
  import opened Base
  import opened JsonModel

  /** The two collaborators of pagination: utils.sort_array, taken as an
      arbitrary function of the items and the request's `sort` argument, and
      the configured default page size common.database_limit. */
  datatype Paging = Paging(sortArray: (seq<Json>, Json) -> seq<Json>, databaseLimit: int)

  /** A merge outcome with the keyword arguments as the merge leaves them. */
  datatype Merged = Merged(out: Outcome<Fields>, kwargs: Kwargs)

  /** The priority table: a message that replaces the one already merged. */
  const Priorities: set<(string, string)> :=
    {("Some agents were not restarted", "All selected agents were restarted")}

  /** `(new, old) in priorities`, with Python's tuple equality. */
  predicate Supersedes(newer: Json, older: Json)
  {
    newer.JStr? && older.JStr? && (newer.s, older.s) in Priorities
  }

  /** `[elem for elem in field if elem not in existing]`. */
  function NewElements(field: seq<Json>, existing: seq<Json>): (r: seq<Json>)
    ensures |r| <= |field|
  {
    if field == [] then []
    else (if PyIn(field[0], existing) then [] else [field[0]]) + NewElements(field[1..], existing)
  }

  /** One key of one contributor whose value is not a dict: the per-kind rule
      for lists, ints (`type(field) == int`, so not bools) and every other
      scalar.  The TypeError and AttributeError Python raises when the kinds of
      the contributor and the accumulator clash become Raised. */
  function MergeScalar(acc: Fields, k: string, v: Json): (r: Outcome<Fields>)
    requires !v.JObj?
    ensures r.Returned? ==> Keys(r.value) == Keys(acc) + {k}
    ensures r.Returned? ==> forall k' :: k' != k ==> Lookup(r.value, k') == Lookup(acc, k')
    ensures k !in Keys(acc) ==> r == Returned(acc + [(k, v)])
  {
    match Lookup(acc, k)
    case None => Returned(Put(acc, k, v))
    case Some(cur) =>
      match v
      case JList(xs) =>
        if cur.JList? then Returned(Put(acc, k, JList(cur.items + NewElements(xs, cur.items))))
        else Raised(OtherError("merged value has no attribute 'extend'"))
      case JInt(n) =>
        if k == "totalItems" then
          match AsPyInt(cur)
          case Some(c) => Returned(Put(acc, k, JInt(c + n)))
          case None => Raised(OtherError("unsupported operand type(s) for +="))
        else if k == "error" then
          match AsPyInt(cur)
          case Some(c) => if c < n then Returned(Put(acc, k, v)) else Returned(acc)
          case None => Raised(OtherError("'<' not supported between the merged value and 'int'"))
        else Returned(acc)
      case _ =>
        if cur.JList? || cur.JObj? then Raised(Unhashable(cur))
        else if Supersedes(v, cur) then Returned(Put(acc, k, v))
        else Returned(acc)
  }

  /** Python's normalisation of one slice bound against a length n. */
  function SliceBound(i: int, n: nat): (r: nat)
    ensures r <= n
    ensures 0 <= i <= n ==> r == i
  {
    if i < 0 then (if i + n < 0 then 0 else i + n) else if i > n then n else i
  }

  /** Python's `s[lo:hi]`. */
  function PySlice<T>(s: seq<T>, lo: int, hi: int): (r: seq<T>)
    ensures |r| <= |s|
    ensures 0 <= lo <= hi <= |s| ==> r == s[lo..hi]
    ensures forall x :: x in r ==> x in s
  {
    var a := SliceBound(lo, |s|);
    var b := SliceBound(hi, |s|);
    if a < b then s[a..b] else []
  }

  /** f_kwargs as a merge leaves it: every value it had is kept, and only a
      missing offset or limit may have been added. */
  ghost predicate KeepsKwargs(kw: Kwargs, kw': Kwargs)
  {
    forall k :: (k in Keys(kw) || (k != "offset" && k != "limit")) ==> Lookup(kw', k) == Lookup(kw, k)
  }

  /** offset and limit as merge_results writes them back when absent. */
  function WithPageDefaults(kw: Kwargs, pg: Paging): (r: Kwargs)
    ensures "offset" in Keys(r) && "limit" in Keys(r)
    ensures KeepsKwargs(kw, r)
  {
    var k1 := if "offset" in Keys(kw) then kw else Put(kw, "offset", JInt(0));
    if "limit" in Keys(k1) then k1 else Put(k1, "limit", JInt(pg.databaseLimit))
  }

  /** The bounds `offset` and `offset + limit` of the slice: ints and bools
      add up; a str or a list on the left only concatenates with its own
      kind, and the resulting str or list is no slice index; any other pair
      has no `+`. */
  function OffsetPlusLimit(off: Json, lim: Json): (r: Outcome<(int, int)>)
    ensures r.Returned? <==> AsPyInt(off).Some? && AsPyInt(lim).Some?
    ensures r.Returned? ==> r.value == (AsPyInt(off).value, AsPyInt(off).value + AsPyInt(lim).value)
  {
    if AsPyInt(off).Some? && AsPyInt(lim).Some? then
      Returned((AsPyInt(off).value, AsPyInt(off).value + AsPyInt(lim).value))
    else Raised(BoundsError(off, lim))
  }

  /** The TypeError of `items[off:off + lim]` when the bounds are not both
      ints or bools. */
  function BoundsError(off: Json, lim: Json): Exc
  {
    if (off.JStr? && lim.JStr?) || (off.JList? && lim.JList?) then
      OtherError("slice indices must be integers or None or have an __index__ method")
    else if off.JStr? || off.JList? then
      OtherError("can only concatenate " + TypeName(off) + " (not \"" + TypeName(lim) + "\") to " + TypeName(off))
    else
      OtherError("unsupported operand type(s) for +: '" + TypeName(off) + "' and '" + TypeName(lim) + "'")
  }

  /** The TypeError of `'items' in data` for an int, a bool or None. */
  function NotIterable(data: Json): Exc
  {
    OtherError("argument of type '" + TypeName(data) + "' is not iterable")
  }

  /** The AttributeError of `local_json.items()` on an answer that is not a
      dict. */
  function NoItemsMethod(answer: Json): Exc
  {
    OtherError("'" + TypeName(answer) + "' object has no attribute 'items'")
  }

  /** Sorting (when the call has a `sort` argument) and slicing `data.items`. */
  function Page(acc: Fields, d: Fields, items: seq<Json>, kw: Kwargs, pg: Paging): (r: Merged)
    ensures KeepsKwargs(kw, r.kwargs) && "offset" in Keys(r.kwargs) && "limit" in Keys(r.kwargs)
    ensures r.out.Returned? ==> Keys(r.out.value) == Keys(acc) + {"data"}
    ensures r.out.Returned? ==> forall k :: k != "data" ==> Lookup(r.out.value, k) == Lookup(acc, k)
    ensures r.out.Returned? ==>
      && Lookup(r.out.value, "data").Some? && Lookup(r.out.value, "data").value.JObj?
      && forall k :: k != "items" ==> Lookup(Lookup(r.out.value, "data").value.fields, k) == Lookup(d, k)
  {
    var kw' := WithPageDefaults(kw, pg);
    var sorted := if "sort" in Keys(kw') then pg.sortArray(items, Lookup(kw', "sort").value) else items;
    match OffsetPlusLimit(Lookup(kw', "offset").value, Lookup(kw', "limit").value)
    case Raised(e) => Merged(Raised(e), kw')
    case Returned(b) => Merged(Returned(Put(acc, "data", JObj(Put(d, "items", JList(PySlice(sorted, b.0, b.1)))))), kw')
  }

  /** Whether `t` occurs in `s` (Python's `t in s` on strings). */
  predicate IsSubstring(t: string, s: string)
  {
    (|t| <= |s| && s[..|t|] == t) || (s != [] && IsSubstring(t, s[1..]))
  }

  /** `data.items` of the merged answer, if it is a list. */
  function DataItems(acc: Fields): Option<seq<Json>>
  {
    var data := Lookup(acc, "data");
    if data.Some? && data.value.JObj? then
      var items := Lookup(data.value.fields, "items");
      if items.Some? && items.value.JList? then Some(items.value.items) else None
    else None
  }

  /** The pagination block that ends every merge_results call: a list under
      `data.items` is paged; otherwise see NoItemsList. */
  function Paginate(acc: Fields, kw: Kwargs, pg: Paging): (r: Merged)
    ensures KeepsKwargs(kw, r.kwargs)
    ensures r.out.Returned? ==> Keys(r.out.value) == Keys(acc)
    ensures r.out.Returned? ==> forall k :: k != "data" ==> Lookup(r.out.value, k) == Lookup(acc, k)
    ensures r.out.Returned? && Lookup(acc, "data").Some? && Lookup(acc, "data").value.JObj? ==>
      && Lookup(r.out.value, "data").Some? && Lookup(r.out.value, "data").value.JObj?
      && forall k :: k != "items" ==>
           Lookup(Lookup(r.out.value, "data").value.fields, k) == Lookup(Lookup(acc, "data").value.fields, k)
  {
    if DataItems(acc).Some? then Page(acc, Lookup(acc, "data").value.fields, DataItems(acc).value, kw, pg)
    else NoItemsList(acc, kw)
  }

  /** The pagination guard when `data.items` is no list.  The test
      `'items' in final_json['data']` is a substring test on a string, a
      membership test on a list, and raises on an int, a bool or None, and
      when it holds the lookup `['items']` that follows raises too. */
  function NoItemsList(acc: Fields, kw: Kwargs): (r: Merged)
    ensures r.kwargs == kw
    ensures r.out.Returned? ==> r.out.value == acc
  {
    match Lookup(acc, "data")
    case None => Merged(Returned(acc), kw)
    case Some(data) =>
      match data
      case JObj(d) => Merged(Returned(acc), kw)
      case JStr(s) =>
        if IsSubstring("items", s) then Merged(Raised(OtherError("string indices must be integers")), kw)
        else Merged(Returned(acc), kw)
      case JList(l) =>
        if PyIn(JStr("items"), l) then Merged(Raised(OtherError("list indices must be integers or slices, not str")), kw)
        else Merged(Returned(acc), kw)
      case _ => Merged(Raised(NotIterable(data)), kw)
  }

  /** merge_results(responses, final_json): every contributor in order, then
      pagination. */
  function MergeAll(rs: seq<Json>, acc: Fields, kw: Kwargs, pg: Paging): (r: Merged)
    decreases SizeAllFrom(rs, 0), 2
    ensures KeepsKwargs(kw, r.kwargs)
    ensures r.out.Returned? ==> Keys(acc) <= Keys(r.out.value)
  {
    var m := Fold(rs, 0, acc, kw, pg);
    if m.out.Raised? then m else Paginate(m.out.value, m.kwargs, pg)
  }

  /** The outer loop `for local_json in responses`, from position i on. */
  function Fold(rs: seq<Json>, i: nat, acc: Fields, kw: Kwargs, pg: Paging): (r: Merged)
    requires i <= |rs|
    decreases SizeAllFrom(rs, i), 1
    ensures KeepsKwargs(kw, r.kwargs)
    ensures r.out.Returned? ==> Keys(acc) <= Keys(r.out.value)
  {
    if i == |rs| then Merged(Returned(acc), kw)
    else
      match rs[i]
      case JObj(fs) =>
        var m := MergeFields(fs, 0, acc, kw, pg);
        if m.out.Raised? then m else Fold(rs, i + 1, m.out.value, m.kwargs, pg)
      case _ => Merged(Raised(NoItemsMethod(rs[i])), kw)
  }

  /** The inner loop `for key, field in local_json.items()`, from entry j on. */
  function MergeFields(fs: Fields, j: nat, acc: Fields, kw: Kwargs, pg: Paging): (r: Merged)
    requires j <= |fs|
    decreases SizeFieldsFrom(fs, j), 0
    ensures KeepsKwargs(kw, r.kwargs)
    ensures r.out.Returned? ==> Keys(acc) <= Keys(r.out.value)
  {
    if j == |fs| then Merged(Returned(acc), kw)
    else
      var k := fs[j].0;
      var v := fs[j].1;
      if v.JObj? then
        var cur := Lookup(acc, k);
        if cur.Some? && !cur.value.JObj? then
          Merged(Raised(OtherError("merged value is not a dict")), kw)
        else
          assert SizeAllFrom([v], 0) == Size(v);
          var m := MergeAll([v], if cur.Some? then cur.value.fields else [], kw, pg);
          if m.out.Raised? then m
          else MergeFields(fs, j + 1, Put(acc, k, JObj(m.out.value)), m.kwargs, pg)
      else
        var r := MergeScalar(acc, k, v);
        if r.Raised? then Merged(r, kw) else MergeFields(fs, j + 1, r.value, kw, pg)
  }
}
