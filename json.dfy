/** JSON-shaped values as Python's json module hands them to the router, and
    the parts of Python's semantics on them that the router relies on:
    equality (where True == 1), the int view of a value, and a size measure. */
module JsonModel {
  import opened Base

  datatype Json =
    | JNull
    | JBool(b: bool)
    | JInt(i: int)
    | JStr(s: string)
    | JList(items: seq<Json>)
    | JObj(fields: seq<(string, Json)>)

  type Fields = seq<(string, Json)>

  /** The keyword arguments of a call (DistributedAPI.f_kwargs). */
  type Kwargs = Fields

  function BoolAsInt(b: bool): int { if b then 1 else 0 }

  /** The value Python uses in `+` and `<` against an int: ints, and bools
      (bool is a subclass of int); None for every other kind. */
  function AsPyInt(j: Json): (r: Option<int>)
    ensures r.Some? <==> j.JInt? || j.JBool?
    ensures j.JInt? ==> r == Some(j.i)
    ensures j.JBool? ==> r == Some(if j.b then 1 else 0)
  {
    match j
    case JInt(n) => Some(n)
    case JBool(b) => Some(BoolAsInt(b))
    case _ => None
  }

  /** The first entry of `fs` with key `fs[i].0` is the one at i. */
  predicate FirstOfKey(fs: Fields, i: int)
    requires 0 <= i < |fs|
  {
    forall j :: 0 <= j < i ==> fs[j].0 != fs[i].0
  }

  /** Python's `==` on JSON values: True == 1 and False == 0, lists compare
      element by element, dicts by their key sets and the values at each key. */
  predicate PyEq(a: Json, b: Json)
    decreases a
  {
    match a
    case JNull => b.JNull?
    case JBool(x) => (b.JBool? && b.b == x) || (b.JInt? && b.i == BoolAsInt(x))
    case JInt(x) => (b.JInt? && b.i == x) || (b.JBool? && BoolAsInt(b.b) == x)
    case JStr(x) => b.JStr? && b.s == x
    case JList(xs) =>
      && b.JList? && |xs| == |b.items|
      && forall i :: 0 <= i < |xs| ==> PyEq(xs[i], b.items[i])
    case JObj(fs) =>
      && b.JObj? && Keys(fs) == Keys(b.fields)
      && forall i :: 0 <= i < |fs| && FirstOfKey(fs, i) ==>
           Lookup(b.fields, fs[i].0).Some? && PyEq(fs[i].1, Lookup(b.fields, fs[i].0).value)
  }

  /** Python's `x in xs` on a list. */
  predicate PyIn(x: Json, xs: seq<Json>)
  {
    exists i :: 0 <= i < |xs| && PyEq(x, xs[i])
  }

  /** What `==` means on each kind: ints and bools compare by their int
      values and never equal any other kind; strings and None equal only
      themselves; a list equals only a list of the same length, a dict only
      a dict with the same keys. */
  lemma PyEqByKind(a: Json, b: Json)
    ensures AsPyInt(a).Some? ==> (PyEq(a, b) <==> AsPyInt(b).Some? && AsPyInt(a) == AsPyInt(b))
    ensures a.JStr? || a.JNull? ==> (PyEq(a, b) <==> b == a)
    ensures a.JList? ==> (PyEq(a, b) ==> b.JList? && |b.items| == |a.items|)
    ensures a.JObj? ==> (PyEq(a, b) ==> b.JObj? && Keys(b.fields) == Keys(a.fields))
  {
  }

  /** The name Python's `type(j).__name__` gives, as its TypeError and
      AttributeError messages quote it. */
  function TypeName(j: Json): string
  {
    match j
    case JNull => "NoneType"
    case JBool(_) => "bool"
    case JInt(_) => "int"
    case JStr(_) => "str"
    case JList(_) => "list"
    case JObj(_) => "dict"
  }

  /** Whether Python can put the value in a set: lists and dicts cannot. */
  predicate Hashable(j: Json)
  {
    !j.JList? && !j.JObj?
  }

  /** The TypeError of hashing a list or a dict (or a tuple holding one). */
  function Unhashable(j: Json): Exc
  {
    OtherError("unhashable type: '" + (if j.JList? then "list" else "dict") + "'")
  }

  lemma {:induction false} PyEqReflexive(a: Json)
    ensures PyEq(a, a)
    decreases a
  {
    match a
    case JList(xs) =>
      forall i | 0 <= i < |xs| ensures PyEq(xs[i], xs[i]) { PyEqReflexive(xs[i]); }
    case JObj(fs) =>
      forall i | 0 <= i < |fs| && FirstOfKey(fs, i)
        ensures Lookup(fs, fs[i].0).Some? && PyEq(fs[i].1, Lookup(fs, fs[i].0).value)
      {
        LookupAt(fs, i);
        PyEqReflexive(fs[i].1);
      }
    case _ =>
  }

  /** A measure that shrinks from a list or dict to the values it holds. */
  function Size(j: Json): nat
    decreases j, Width(j) + 1
  {
    match j
    case JList(xs) => 1 + SizeItemsFrom(xs, 0)
    case JObj(fs) => 1 + SizeFieldsFrom(fs, 0)
    case _ => 1
  }

  function Width(j: Json): nat
  {
    match j
    case JList(xs) => |xs|
    case JObj(fs) => |fs|
    case _ => 0
  }

  function SizeItemsFrom(xs: seq<Json>, i: nat): nat
    requires i <= |xs|
    decreases JList(xs), |xs| - i
  {
    if i == |xs| then 0 else Size(xs[i]) + SizeItemsFrom(xs, i + 1)
  }

  function SizeFieldsFrom(fs: Fields, i: nat): nat
    requires i <= |fs|
    decreases JObj(fs), |fs| - i
  {
    if i == |fs| then 0 else 1 + Size(fs[i].1) + SizeFieldsFrom(fs, i + 1)
  }

  /** The total size of the responses from position i on. */
  function SizeAllFrom(rs: seq<Json>, i: nat): nat
    requires i <= |rs|
    decreases |rs| - i
  {
    if i == |rs| then 0 else Size(rs[i]) + SizeAllFrom(rs, i + 1)
  }

  lemma {:induction false} FieldSmaller(fs: Fields, j: nat, i: nat)
    requires i <= j < |fs|
    ensures Size(fs[j].1) < SizeFieldsFrom(fs, i)
    decreases j - i
  {
    if i < j { FieldSmaller(fs, j, i + 1); }
  }

  /** A value inside a dict is smaller than the dict. */
  lemma ValueSmaller(fs: Fields, j: nat)
    requires j < |fs|
    ensures Size(fs[j].1) < Size(JObj(fs))
  {
    FieldSmaller(fs, j, 0);
  }

  lemma {:induction false} ResponseWithin(rs: seq<Json>, i: nat, k: nat)
    requires k <= i < |rs|
    ensures Size(rs[i]) <= SizeAllFrom(rs, k)
    decreases i - k
  {
    if k < i { ResponseWithin(rs, i, k + 1); }
  }
}
