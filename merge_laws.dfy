/** What merge_results promises about the merged answer: the per-kind rules
    over many contributors, the list de-duplication, the message priority and
    the pagination of `data.items`. */
module MergeLaws {
  import opened Base
  import opened JsonModel
  import opened Merge

  // ---------------------------------------------------------------- steps

  /** A contributor holding a single non-dict entry merges by MergeScalar. */
  lemma ScalarContributor(k: string, v: Json, acc: Fields, kw: Kwargs, pg: Paging)
    requires !v.JObj?
    ensures MergeFields([(k, v)], 0, acc, kw, pg) == Merged(MergeScalar(acc, k, v), kw)
  {
    var r := MergeScalar(acc, k, v);
    if r.Returned? {
      assert MergeFields([(k, v)], 1, r.value, kw, pg) == Merged(r, kw);
    }
  }

  /** The outer loop moves past a dict contributor that merges cleanly. */
  lemma FoldStep(rs: seq<Json>, i: nat, acc: Fields, kw: Kwargs, pg: Paging)
    requires i < |rs| && rs[i].JObj?
    requires MergeFields(rs[i].fields, 0, acc, kw, pg).out.Returned?
    ensures var m := MergeFields(rs[i].fields, 0, acc, kw, pg);
      Fold(rs, i, acc, kw, pg) == Fold(rs, i + 1, m.out.value, m.kwargs, pg)
  {
  }

  /** An answer without a `data` key is not paged. */
  lemma NoDataNoPage(acc: Fields, kw: Kwargs, pg: Paging)
    requires "data" !in Keys(acc)
    ensures Paginate(acc, kw, pg) == Merged(Returned(acc), kw)
  {
  }

  /** An answer that is not a dict has no `.items()`: the merge ends with
      Python's AttributeError (NoItemsMethod). */
  lemma NonDictAnswerRaises(rs: seq<Json>, acc: Fields, kw: Kwargs, pg: Paging)
    requires |rs| > 0 && !rs[0].JObj?
    ensures MergeAll(rs, acc, kw, pg) == Merged(Raised(NoItemsMethod(rs[0])), kw)
  {
  }

  /** `'items' in data` on an int, a bool or None raises Python's TypeError
      (NotIterable), whatever f_kwargs holds. */
  lemma ScalarDataIsNotIterable(acc: Fields, kw: Kwargs, pg: Paging)
    requires Lookup(acc, "data").Some?
    requires var d := Lookup(acc, "data").value; d.JInt? || d.JBool? || d.JNull?
    ensures Paginate(acc, kw, pg) == Merged(Raised(NotIterable(Lookup(acc, "data").value)), kw)
  {
  }

  /** Writing a key of a one-entry dict. */
  lemma PutSingleton<V>(k: string, v: V, w: V)
    ensures Lookup([(k, v)], k) == Some(v)
    ensures Put([(k, v)], k, w) == [(k, w)]
  {
    assert [(k, v)][1..] == [];
  }

  // ---------------------------------------------------------------- lists

  /** The elements a contributor adds are its own elements that the
      accumulated list does not hold yet, and no more of them than it has
      (their order is NewElementsOfConcat's). */
  lemma {:induction false} NewElementsAreNew(xs: seq<Json>, ys: seq<Json>)
    ensures forall e :: e in NewElements(xs, ys) ==> e in xs && !PyIn(e, ys)
    ensures forall x :: x in xs ==> PyIn(x, ys) || x in NewElements(xs, ys)
    ensures |NewElements(xs, ys)| <= |xs|
  {
    if xs != [] {
      NewElementsAreNew(xs[1..], ys);
      assert forall x :: x in xs ==> x == xs[0] || x in xs[1..];
    }
  }

  /** One element is added exactly when the list does not hold it yet. */
  lemma NewElementsOfOne(x: Json, ys: seq<Json>)
    ensures NewElements([x], ys) == (if PyIn(x, ys) then [] else [x])
  {
    assert [x][1..] == [];
  }

  /** The filter goes element by element: what two pieces of a contributor's
      list add is what the first adds followed by what the second adds.
      With NewElementsOfOne this fixes the order and the repeats of what is
      appended: those of the contributor. */
  lemma {:induction false} NewElementsOfConcat(xs: seq<Json>, xs': seq<Json>, ys: seq<Json>)
    ensures NewElements(xs + xs', ys) == NewElements(xs, ys) + NewElements(xs', ys)
    decreases |xs|
  {
    if xs == [] {
      assert xs + xs' == xs';
    } else {
      var head := if PyIn(xs[0], ys) then [] else [xs[0]];
      assert (xs + xs')[0] == xs[0] && (xs + xs')[1..] == xs[1..] + xs';
      assert NewElements(xs + xs', ys) == head + NewElements(xs[1..] + xs', ys);
      NewElementsOfConcat(xs[1..], xs', ys);
      var a, b := NewElements(xs[1..], ys), NewElements(xs', ys);
      assert head + (a + b) == (head + a) + b;
      assert NewElements(xs, ys) == head + a;
    }
  }

  /** The list after the extend: the old elements first, then only new
      ones, and every contributor element present. */
  lemma ExtendedList(xs: seq<Json>, ys: seq<Json>)
    ensures var zs := ys + NewElements(xs, ys);
      && |ys| <= |zs| && zs[..|ys|] == ys
      && (forall i :: |ys| <= i < |zs| ==> zs[i] in xs && !PyIn(zs[i], ys))
      && (forall x :: x in xs ==> PyIn(x, zs))
  {
    var zs := ys + NewElements(xs, ys);
    NewElementsAreNew(xs, ys);
    forall i | |ys| <= i < |zs| ensures zs[i] in xs && !PyIn(zs[i], ys) {
      assert zs[i] in NewElements(xs, ys);
    }
    forall x | x in xs ensures PyIn(x, zs) {
      if PyIn(x, ys) {
        var i :| 0 <= i < |ys| && PyEq(x, ys[i]);
        assert zs[i] == ys[i];
      } else {
        assert x in NewElements(xs, ys);
        var i :| 0 <= i < |NewElements(xs, ys)| && NewElements(xs, ys)[i] == x;
        assert zs[|ys| + i] == x;
        PyEqReflexive(x);
      }
    }
  }

  /** A list merged into an existing list: the existing elements stay first
      and in place, then come the contributor's elements not already present,
      in its order, and every element of the contributor is present
      afterwards. */
  lemma ListMergeAppendsNew(acc: Fields, k: string, xs: seq<Json>, ys: seq<Json>)
    requires Lookup(acc, k) == Some(JList(ys))
    ensures var r := MergeScalar(acc, k, JList(xs));
      && r.Returned?
      && Lookup(r.value, k).Some? && Lookup(r.value, k).value.JList?
      && var zs := Lookup(r.value, k).value.items;
      && zs == ys + NewElements(xs, ys)
      && |ys| <= |zs| && zs[..|ys|] == ys
      && (forall i :: |ys| <= i < |zs| ==> zs[i] in xs && !PyIn(zs[i], ys))
      && (forall x :: x in xs ==> PyIn(x, zs))
  {
    var zs := ys + NewElements(xs, ys);
    assert MergeScalar(acc, k, JList(xs)) == Returned(Put(acc, k, JList(zs)));
    ExtendedList(xs, ys);
  }

  /** De-duplication is against the list as it was before the contributor:
      repeats inside one contributor's list survive. */
  lemma OwnDuplicatesSurvive()
    ensures MergeScalar([("ids", JList([]))], "ids", JList([JStr("001"), JStr("001")]))
         == Returned([("ids", JList([JStr("001"), JStr("001")]))])
  {
    var x := JStr("001");
    assert !PyIn(x, []);
    assert NewElements([x], []) == [x] by { assert [x][1..] == []; }
    assert NewElements([x, x], []) == [x, x] by { assert [x, x][1..] == [x]; }
    PutSingleton("ids", JList([]), JList([x, x]));
    assert [] + [x, x] == [x, x];
  }

  /** Because True == 1 in Python, a bool already in the list keeps an equal
      int out of it. */
  lemma IntEqualToBoolIsNotAdded()
    ensures MergeScalar([("ids", JList([JBool(true)]))], "ids", JList([JInt(1)]))
         == Returned([("ids", JList([JBool(true)]))])
  {
    var t := JBool(true);
    assert PyEq(JInt(1), [t][0]);
    assert PyIn(JInt(1), [t]);
    assert NewElements([JInt(1)], [t]) == [] by { assert [JInt(1)][1..] == []; }
    PutSingleton("ids", JList([t]), JList([t]));
    assert [t] + [] == [t];
  }

  /** `[B, C]` merged over `[A, B]` appends only C. */
  lemma SecondListAddsOnlyC(a: Json, b: Json, c: Json)
    requires a == JStr("A") && b == JStr("B") && c == JStr("C")
    ensures MergeScalar([("items", JList([a, b]))], "items", JList([b, c])) == Returned([("items", JList([a, b, c]))])
  {
    assert PyIn(b, [a, b]) by { assert PyEq(b, [a, b][1]); }
    assert !PyIn(c, [a, b]) by {
      forall i | 0 <= i < 2 ensures !PyEq(c, [a, b][i]) { }
    }
    assert NewElements([b, c], [a, b]) == [c] by {
      assert [b, c][1..] == [c];
      assert NewElements([c], [a, b]) == [c] by { assert [c][1..] == []; }
    }
    PutSingleton("items", JList([a, b]), JList([a, b, c]));
    assert [a, b] + [c] == [a, b, c];
  }

  /** Two contributors with `[A, B]` and `[B, C]` under the same key give
      `[A, B, C]`. */
  lemma ListsMergeInFirstSeenOrder(kw: Kwargs, pg: Paging)
    ensures
      var a, b, c := JStr("A"), JStr("B"), JStr("C");
      MergeAll([JObj([("items", JList([a, b]))]), JObj([("items", JList([b, c]))])], [], kw, pg)
        == Merged(Returned([("items", JList([a, b, c]))]), kw)
  {
    var a, b, c := JStr("A"), JStr("B"), JStr("C");
    var rs := [JObj([("items", JList([a, b]))]), JObj([("items", JList([b, c]))])];
    var first := [("items", JList([a, b]))];
    var both := [("items", JList([a, b, c]))];
    ScalarContributor("items", JList([a, b]), [], kw, pg);
    assert MergeScalar([], "items", JList([a, b])) == Returned(first);
    FoldStep(rs, 0, [], kw, pg);
    SecondListAddsOnlyC(a, b, c);
    ScalarContributor("items", JList([b, c]), first, kw, pg);
    FoldStep(rs, 1, first, kw, pg);
    assert Fold(rs, 2, both, kw, pg) == Merged(Returned(both), kw);
    assert "data" !in Keys(both);
    NoDataNoPage(both, kw, pg);
  }

  // ---------------------------------------------------------------- ints

  /** The int seen by later contributors under key k: summed for
      `totalItems`, the larger for `error`, the first one otherwise. */
  function IntRule(k: string, c: int, n: int): int
  {
    if k == "totalItems" then c + n
    else if k == "error" then (if c < n then n else c)
    else c
  }

  /** The int rule applied to the values of contributors i.. in order. */
  function IntFold(k: string, c: int, ns: seq<int>, i: nat): int
    requires i <= |ns|
    decreases |ns| - i
  {
    if i == |ns| then c else IntFold(k, IntRule(k, c, ns[i]), ns, i + 1)
  }

  function Sum(ns: seq<int>, i: nat): int
    requires i <= |ns|
    decreases |ns| - i
  {
    if i == |ns| then 0 else ns[i] + Sum(ns, i + 1)
  }

  function MaxFrom(c: int, ns: seq<int>, i: nat): int
    requires i <= |ns|
    decreases |ns| - i
  {
    if i == |ns| then c else MaxFrom(if c < ns[i] then ns[i] else c, ns, i + 1)
  }

  /** One contributor per value: `{k: n}`. */
  function Contributors(k: string, ns: seq<int>): (rs: seq<Json>)
    ensures |rs| == |ns|
    ensures forall i :: 0 <= i < |ns| ==> rs[i] == JObj([(k, JInt(ns[i]))])
  {
    seq(|ns|, i requires 0 <= i < |ns| => JObj([(k, JInt(ns[i]))]))
  }

  lemma {:induction false} IntKeyFold(k: string, ns: seq<int>, i: nat, c: int, kw: Kwargs, pg: Paging)
    requires i <= |ns|
    ensures Fold(Contributors(k, ns), i, [(k, JInt(c))], kw, pg)
         == Merged(Returned([(k, JInt(IntFold(k, c, ns, i)))]), kw)
    decreases |ns| - i
  {
    if i < |ns| {
      var rs := Contributors(k, ns);
      var acc := [(k, JInt(c))];
      var next := [(k, JInt(IntRule(k, c, ns[i])))];
      PutSingleton(k, JInt(c), JInt(IntRule(k, c, ns[i])));
      assert MergeScalar(acc, k, JInt(ns[i])) == Returned(next);
      ScalarContributor(k, JInt(ns[i]), acc, kw, pg);
      FoldStep(rs, i, acc, kw, pg);
      IntKeyFold(k, ns, i + 1, IntRule(k, c, ns[i]), kw, pg);
    }
  }

  /** Contributors that hold nothing but `{k: n}` always merge, to `{k: v}`
      where v folds the int rule over the values; k is not `data`, whose int
      value would make the pagination guard raise. */
  lemma SingleKeyMerge(k: string, ns: seq<int>, kw: Kwargs, pg: Paging)
    requires |ns| > 0 && k != "data"
    ensures MergeAll(Contributors(k, ns), [], kw, pg)
         == Merged(Returned([(k, JInt(IntFold(k, ns[0], ns, 1)))]), kw)
  {
    var rs := Contributors(k, ns);
    ScalarContributor(k, JInt(ns[0]), [], kw, pg);
    assert MergeScalar([], k, JInt(ns[0])) == Returned([(k, JInt(ns[0]))]);
    FoldStep(rs, 0, [], kw, pg);
    IntKeyFold(k, ns, 1, ns[0], kw, pg);
    var last := [(k, JInt(IntFold(k, ns[0], ns, 1)))];
    assert "data" !in Keys(last);
    NoDataNoPage(last, kw, pg);
  }

  lemma {:induction false} TotalsAreSummed(ns: seq<int>, i: nat, c: int)
    requires i <= |ns|
    ensures IntFold("totalItems", c, ns, i) == c + Sum(ns, i)
    decreases |ns| - i
  {
    if i < |ns| { TotalsAreSummed(ns, i + 1, c + ns[i]); }
  }

  lemma {:induction false} ErrorsKeepMaximum(ns: seq<int>, i: nat, c: int)
    requires i <= |ns|
    ensures IntFold("error", c, ns, i) == MaxFrom(c, ns, i)
    ensures IntFold("error", c, ns, i) >= c
    ensures forall j :: i <= j < |ns| ==> IntFold("error", c, ns, i) >= ns[j]
    ensures IntFold("error", c, ns, i) == c || exists j :: i <= j < |ns| && IntFold("error", c, ns, i) == ns[j]
    decreases |ns| - i
  {
    if i < |ns| {
      var c' := if c < ns[i] then ns[i] else c;
      ErrorsKeepMaximum(ns, i + 1, c');
    }
  }

  lemma {:induction false} OtherIntsKeepFirst(k: string, ns: seq<int>, i: nat, c: int)
    requires i <= |ns| && k != "totalItems" && k != "error"
    ensures IntFold(k, c, ns, i) == c
    decreases |ns| - i
  {
    if i < |ns| { OtherIntsKeepFirst(k, ns, i + 1, c); }
  }

  // ---------------------------------------------------------------- ints in whole answers

  /** Key k occurs among the entries j.. of fs at position p and nowhere else. */
  ghost predicate OnlyAt(fs: Fields, j: nat, k: string, p: nat)
  {
    j <= p < |fs| && fs[p].0 == k && forall q :: j <= q < |fs| && q != p ==> fs[q].0 != k
  }

  /** The inner loop leaves alone every key that the entries j.. do not have. */
  lemma {:induction false} MergeFieldsKeepsOthers(fs: Fields, j: nat, acc: Fields, kw: Kwargs, pg: Paging, k: string)
    requires j <= |fs| && forall q :: j <= q < |fs| ==> fs[q].0 != k
    requires MergeFields(fs, j, acc, kw, pg).out.Returned?
    ensures Lookup(MergeFields(fs, j, acc, kw, pg).out.value, k) == Lookup(acc, k)
    decreases |fs| - j
  {
    if j < |fs| {
      var key, v := fs[j].0, fs[j].1;
      if v.JObj? {
        var cur := Lookup(acc, key);
        var sub := MergeAll([v], if cur.Some? then cur.value.fields else [], kw, pg);
        MergeFieldsKeepsOthers(fs, j + 1, Put(acc, key, JObj(sub.out.value)), sub.kwargs, pg, k);
      } else {
        MergeFieldsKeepsOthers(fs, j + 1, MergeScalar(acc, key, v).value, kw, pg, k);
      }
    }
  }

  /** The int under k after an int n is merged over what the accumulator
      holds there (nothing, or an int). */
  function Combine(k: string, cur: Option<Json>, n: int): int
    requires cur.None? || cur.value.JInt?
  {
    if cur.None? then n else IntRule(k, cur.value.i, n)
  }

  /** One answer whose only entry under k is the int n: the accumulated int
      under k moves by the int rule, whatever else the answer holds. */
  lemma {:induction false} MergeFieldsIntKey(fs: Fields, j: nat, acc: Fields, kw: Kwargs, pg: Paging,
                                            k: string, p: nat, n: int)
    requires OnlyAt(fs, j, k, p) && fs[p].1 == JInt(n)
    requires Lookup(acc, k).None? || Lookup(acc, k).value.JInt?
    requires MergeFields(fs, j, acc, kw, pg).out.Returned?
    ensures Lookup(MergeFields(fs, j, acc, kw, pg).out.value, k) == Some(JInt(Combine(k, Lookup(acc, k), n)))
    decreases |fs| - j
  {
    var key, v := fs[j].0, fs[j].1;
    if j == p {
      var r := MergeScalar(acc, k, JInt(n));
      assert MergeFields(fs, j, acc, kw, pg) == MergeFields(fs, j + 1, r.value, kw, pg);
      assert Lookup(r.value, k) == Some(JInt(Combine(k, Lookup(acc, k), n)));
      MergeFieldsKeepsOthers(fs, j + 1, r.value, kw, pg, k);
    } else if v.JObj? {
      var cur := Lookup(acc, key);
      var sub := MergeAll([v], if cur.Some? then cur.value.fields else [], kw, pg);
      var acc' := Put(acc, key, JObj(sub.out.value));
      assert MergeFields(fs, j, acc, kw, pg) == MergeFields(fs, j + 1, acc', sub.kwargs, pg);
      MergeFieldsIntKey(fs, j + 1, acc', sub.kwargs, pg, k, p, n);
    } else {
      var acc' := MergeScalar(acc, key, v).value;
      assert MergeFields(fs, j, acc, kw, pg) == MergeFields(fs, j + 1, acc', kw, pg);
      MergeFieldsIntKey(fs, j + 1, acc', kw, pg, k, p, n);
    }
  }

  /** Answers that are dicts (without repeated keys, as every Python dict)
      holding the int ns[q] under k; whatever else they hold is free. */
  ghost predicate IntAnswers(rs: seq<Json>, ns: seq<int>, k: string)
  {
    && |rs| == |ns|
    && forall q :: 0 <= q < |rs| ==>
         rs[q].JObj? && DistinctKeys(rs[q].fields) && Lookup(rs[q].fields, k) == Some(JInt(ns[q]))
  }

  /** The answer at position i, merged over `acc`, moves the int under k by
      the int rule. */
  lemma OneIntAnswer(rs: seq<Json>, ns: seq<int>, k: string, i: nat, acc: Fields, kw: Kwargs, pg: Paging)
    requires IntAnswers(rs, ns, k) && i < |rs|
    requires Lookup(acc, k).None? || Lookup(acc, k).value.JInt?
    requires MergeFields(rs[i].fields, 0, acc, kw, pg).out.Returned?
    ensures Lookup(MergeFields(rs[i].fields, 0, acc, kw, pg).out.value, k)
         == Some(JInt(Combine(k, Lookup(acc, k), ns[i])))
  {
    var p := PositionOfKey(rs[i].fields, k);
    MergeFieldsIntKey(rs[i].fields, 0, acc, kw, pg, k, p, ns[i]);
  }

  lemma {:induction false} FoldIntKey(rs: seq<Json>, ns: seq<int>, k: string, i: nat, acc: Fields, c: int,
                                     kw: Kwargs, pg: Paging)
    requires IntAnswers(rs, ns, k) && i <= |rs|
    requires Lookup(acc, k) == Some(JInt(c))
    requires Fold(rs, i, acc, kw, pg).out.Returned?
    ensures Lookup(Fold(rs, i, acc, kw, pg).out.value, k) == Some(JInt(IntFold(k, c, ns, i)))
    decreases |rs| - i
  {
    if i < |rs| {
      var m := MergeFields(rs[i].fields, 0, acc, kw, pg);
      OneIntAnswer(rs, ns, k, i, acc, kw, pg);
      FoldIntKey(rs, ns, k, i + 1, m.out.value, IntRule(k, c, ns[i]), m.kwargs, pg);
    }
  }

  /** Whole answers, such as the `{data: ..., error: n}` envelopes of the
      fan-out: when their merge returns, the int under k is the int rule
      folded over the answers' values, in answer order. */
  lemma IntKeyMerge(rs: seq<Json>, ns: seq<int>, k: string, kw: Kwargs, pg: Paging)
    requires IntAnswers(rs, ns, k) && |rs| > 0 && k != "data"
    requires MergeAll(rs, [], kw, pg).out.Returned?
    ensures Lookup(MergeAll(rs, [], kw, pg).out.value, k) == Some(JInt(IntFold(k, ns[0], ns, 1)))
  {
    var m := MergeFields(rs[0].fields, 0, [], kw, pg);
    OneIntAnswer(rs, ns, k, 0, [], kw, pg);
    FoldIntKey(rs, ns, k, 1, m.out.value, ns[0], m.kwargs, pg);
  }

  /** totalItems is the sum over all answers (2 and 3 give 5). */
  lemma TotalItemsSum(rs: seq<Json>, ns: seq<int>, kw: Kwargs, pg: Paging)
    requires IntAnswers(rs, ns, "totalItems") && |rs| > 0
    requires MergeAll(rs, [], kw, pg).out.Returned?
    ensures Lookup(MergeAll(rs, [], kw, pg).out.value, "totalItems") == Some(JInt(Sum(ns, 0)))
  {
    IntKeyMerge(rs, ns, "totalItems", kw, pg);
    SumOfAll(ns);
  }

  /** The totalItems rule folded from the first value is the sum of all. */
  lemma SumOfAll(ns: seq<int>)
    requires |ns| > 0
    ensures IntFold("totalItems", ns[0], ns, 1) == Sum(ns, 0)
  {
    TotalsAreSummed(ns, 1, ns[0]);
  }

  /** error is the largest code of all answers (0 and 1000 give 1000). */
  lemma ErrorKeepsMax(rs: seq<Json>, ns: seq<int>, kw: Kwargs, pg: Paging)
    requires IntAnswers(rs, ns, "error") && |rs| > 0
    requires MergeAll(rs, [], kw, pg).out.Returned?
    ensures var e := Lookup(MergeAll(rs, [], kw, pg).out.value, "error");
      && e.Some? && e.value.JInt?
      && (forall j :: 0 <= j < |ns| ==> e.value.i >= ns[j])
      && (exists j :: 0 <= j < |ns| && e.value.i == ns[j])
  {
    IntKeyMerge(rs, ns, "error", kw, pg);
    MaxOfAll(ns);
  }

  /** The error rule folded from the first value is the largest of all. */
  lemma MaxOfAll(ns: seq<int>)
    requires |ns| > 0
    ensures var e := IntFold("error", ns[0], ns, 1);
      (forall j :: 0 <= j < |ns| ==> e >= ns[j]) && (exists j :: 0 <= j < |ns| && e == ns[j])
  {
    ErrorsKeepMaximum(ns, 1, ns[0]);
  }

  /** Any other int key keeps the first answer's value. */
  lemma OtherIntKeepsFirst(rs: seq<Json>, ns: seq<int>, k: string, kw: Kwargs, pg: Paging)
    requires IntAnswers(rs, ns, k) && |rs| > 0 && k != "totalItems" && k != "error" && k != "data"
    requires MergeAll(rs, [], kw, pg).out.Returned?
    ensures Lookup(MergeAll(rs, [], kw, pg).out.value, k) == Some(JInt(ns[0]))
  {
    IntKeyMerge(rs, ns, k, kw, pg);
    OtherIntsKeepFirst(k, ns, 1, ns[0]);
  }

  // ---------------------------------------------------------------- ints one level down

  /** acc[k] is a dict holding the int c under k2. */
  ghost predicate HoldsInner(acc: Fields, k: string, k2: string, c: int)
  {
    Lookup(acc, k).Some? && Lookup(acc, k).value.JObj? && Lookup(Lookup(acc, k).value.fields, k2) == Some(JInt(c))
  }

  /** The recursive merge of one dict value over what the accumulator holds
      under its key: the int under k2 moves by the int rule. */
  lemma InnerMerge(v: Fields, cur: Fields, k2: string, n: int, kw: Kwargs, pg: Paging)
    requires DistinctKeys(v) && Lookup(v, k2) == Some(JInt(n)) && k2 != "data"
    requires Lookup(cur, k2).None? || Lookup(cur, k2).value.JInt?
    requires MergeAll([JObj(v)], cur, kw, pg).out.Returned?
    ensures Lookup(MergeAll([JObj(v)], cur, kw, pg).out.value, k2) == Some(JInt(Combine(k2, Lookup(cur, k2), n)))
  {
    var p := PositionOfKey(v, k2);
    var m := MergeFields(v, 0, cur, kw, pg);
    assert Fold([JObj(v)], 1, m.out.value, m.kwargs, pg) == Merged(Returned(m.out.value), m.kwargs);
    assert m.out.Returned? && Fold([JObj(v)], 0, cur, kw, pg) == Merged(Returned(m.out.value), m.kwargs);
    MergeFieldsIntKey(v, 0, cur, kw, pg, k2, p, n);
  }

  lemma {:induction false} MergeFieldsNestedIntKey(fs: Fields, j: nat, acc: Fields, kw: Kwargs, pg: Paging,
                                                  k: string, k2: string, p: nat, n: int, c: int)
    requires OnlyAt(fs, j, k, p) && fs[p].1.JObj? && k2 != "data"
    requires DistinctKeys(fs[p].1.fields) && Lookup(fs[p].1.fields, k2) == Some(JInt(n))
    requires Lookup(acc, k).None? || HoldsInner(acc, k, k2, c)
    requires MergeFields(fs, j, acc, kw, pg).out.Returned?
    ensures HoldsInner(MergeFields(fs, j, acc, kw, pg).out.value, k, k2,
                       if Lookup(acc, k).None? then n else IntRule(k2, c, n))
    decreases |fs| - j
  {
    var key, v := fs[j].0, fs[j].1;
    if j == p {
      var cur := Lookup(acc, k);
      var cf := if cur.Some? then cur.value.fields else [];
      var sub := MergeAll([v], cf, kw, pg);
      InnerMerge(v.fields, cf, k2, n, kw, pg);
      var acc' := Put(acc, k, JObj(sub.out.value));
      assert HoldsInner(acc', k, k2, if cur.None? then n else IntRule(k2, c, n));
      MergeFieldsKeepsOthers(fs, j + 1, acc', sub.kwargs, pg, k);
    } else if v.JObj? {
      var cur := Lookup(acc, key);
      var sub := MergeAll([v], if cur.Some? then cur.value.fields else [], kw, pg);
      MergeFieldsNestedIntKey(fs, j + 1, Put(acc, key, JObj(sub.out.value)), sub.kwargs, pg, k, k2, p, n, c);
    } else {
      MergeFieldsNestedIntKey(fs, j + 1, MergeScalar(acc, key, v).value, kw, pg, k, k2, p, n, c);
    }
  }

  /** Answers that hold, under k, a dict holding the int ns[q] under k2. */
  ghost predicate NestedIntAnswers(rs: seq<Json>, ns: seq<int>, k: string, k2: string)
  {
    && |rs| == |ns|
    && forall q :: 0 <= q < |rs| ==>
         && rs[q].JObj? && DistinctKeys(rs[q].fields)
         && Lookup(rs[q].fields, k).Some? && Lookup(rs[q].fields, k).value.JObj?
         && DistinctKeys(Lookup(rs[q].fields, k).value.fields)
         && Lookup(Lookup(rs[q].fields, k).value.fields, k2) == Some(JInt(ns[q]))
  }

  lemma OneNestedAnswer(rs: seq<Json>, ns: seq<int>, k: string, k2: string, i: nat, acc: Fields, c: int,
                        kw: Kwargs, pg: Paging)
    requires NestedIntAnswers(rs, ns, k, k2) && i < |rs| && k2 != "data"
    requires Lookup(acc, k).None? || HoldsInner(acc, k, k2, c)
    requires MergeFields(rs[i].fields, 0, acc, kw, pg).out.Returned?
    ensures HoldsInner(MergeFields(rs[i].fields, 0, acc, kw, pg).out.value, k, k2,
                       if Lookup(acc, k).None? then ns[i] else IntRule(k2, c, ns[i]))
  {
    var p := PositionOfKey(rs[i].fields, k);
    MergeFieldsNestedIntKey(rs[i].fields, 0, acc, kw, pg, k, k2, p, ns[i], c);
  }

  lemma {:induction false} FoldNestedIntKey(rs: seq<Json>, ns: seq<int>, k: string, k2: string, i: nat,
                                           acc: Fields, c: int, kw: Kwargs, pg: Paging)
    requires NestedIntAnswers(rs, ns, k, k2) && i <= |rs| && k2 != "data"
    requires HoldsInner(acc, k, k2, c)
    requires Fold(rs, i, acc, kw, pg).out.Returned?
    ensures HoldsInner(Fold(rs, i, acc, kw, pg).out.value, k, k2, IntFold(k2, c, ns, i))
    decreases |rs| - i
  {
    if i < |rs| {
      var m := MergeFields(rs[i].fields, 0, acc, kw, pg);
      OneNestedAnswer(rs, ns, k, k2, i, acc, c, kw, pg);
      FoldNestedIntKey(rs, ns, k, k2, i + 1, m.out.value, IntRule(k2, c, ns[i]), m.kwargs, pg);
    }
  }

  /** The int rules hold one level down as well: when the merge returns,
      answers[k][k2] is the int rule for k2 folded over the answers. The
      pagination only rewrites `data.items`, so k2 is neither `items` nor
      `data`. */
  lemma NestedIntKeyMerge(rs: seq<Json>, ns: seq<int>, k: string, k2: string, kw: Kwargs, pg: Paging)
    requires NestedIntAnswers(rs, ns, k, k2) && |rs| > 0 && k2 != "data" && k2 != "items"
    requires MergeAll(rs, [], kw, pg).out.Returned?
    ensures HoldsInner(MergeAll(rs, [], kw, pg).out.value, k, k2, IntFold(k2, ns[0], ns, 1))
  {
    var m := MergeFields(rs[0].fields, 0, [], kw, pg);
    OneNestedAnswer(rs, ns, k, k2, 0, [], 0, kw, pg);
    FoldNestedIntKey(rs, ns, k, k2, 1, m.out.value, ns[0], m.kwargs, pg);
  }

  /** `data.totalItems` of the fan-out's envelopes is summed (the pagination
      of `data.items` leaves it alone). */
  lemma DataTotalItemsSum(rs: seq<Json>, ns: seq<int>, kw: Kwargs, pg: Paging)
    requires NestedIntAnswers(rs, ns, "data", "totalItems") && |rs| > 0
    requires MergeAll(rs, [], kw, pg).out.Returned?
    ensures HoldsInner(MergeAll(rs, [], kw, pg).out.value, "data", "totalItems", Sum(ns, 0))
  {
    assert |"totalItems"| == 10 && |"data"| == 4 && |"items"| == 5;
    NestedIntKeyMerge(rs, ns, "data", "totalItems", kw, pg);
    TotalsAreSummed(ns, 1, ns[0]);
    assert IntFold("totalItems", ns[0], ns, 1) == Sum(ns, 0);
  }

  /** `type(field) == int` is false for a bool: a bool under totalItems is not
      added, it takes the first-write-wins rule of other scalars. */
  lemma BoolIsNotSummed(acc: Fields, c: int, b: bool)
    requires Lookup(acc, "totalItems") == Some(JInt(c))
    ensures MergeScalar(acc, "totalItems", JBool(b)) == Returned(acc)
  {
  }

  // ---------------------------------------------------------------- other scalars

  /** A string or other scalar merged over an existing hashable value keeps the
      existing one unless the priority table says the new one wins. */
  lemma ScalarFirstWriteWins(acc: Fields, k: string, v: Json, cur: Json)
    requires !v.JObj? && !v.JList? && !v.JInt?
    requires Lookup(acc, k) == Some(cur) && !cur.JList? && !cur.JObj?
    ensures MergeScalar(acc, k, v) == Returned(if Supersedes(v, cur) then Put(acc, k, v) else acc)
  {
  }

  /** "Some agents were not restarted" wins over "All selected agents were
      restarted" whichever node answers first. */
  lemma RestartMessagePriority(k: string, kw: Kwargs, pg: Paging)
    requires k != "data"
    ensures
      var all, some := JStr("All selected agents were restarted"), JStr("Some agents were not restarted");
      && MergeAll([JObj([(k, all)]), JObj([(k, some)])], [], kw, pg) == Merged(Returned([(k, some)]), kw)
      && MergeAll([JObj([(k, some)]), JObj([(k, all)])], [], kw, pg) == Merged(Returned([(k, some)]), kw)
  {
    var all, some := JStr("All selected agents were restarted"), JStr("Some agents were not restarted");
    assert Supersedes(some, all);
    assert !Supersedes(all, some);
    var rs1 := [JObj([(k, all)]), JObj([(k, some)])];
    var rs2 := [JObj([(k, some)]), JObj([(k, all)])];
    assert "data" !in Keys([(k, some)]);
    NoDataNoPage([(k, some)], kw, pg);
    // all, then some: the second message replaces the first
    ScalarContributor(k, all, [], kw, pg);
    assert MergeScalar([], k, all) == Returned([(k, all)]);
    FoldStep(rs1, 0, [], kw, pg);
    PutSingleton(k, all, some);
    ScalarContributor(k, some, [(k, all)], kw, pg);
    FoldStep(rs1, 1, [(k, all)], kw, pg);
    // some, then all: the first message stays
    ScalarContributor(k, some, [], kw, pg);
    assert MergeScalar([], k, some) == Returned([(k, some)]);
    FoldStep(rs2, 0, [], kw, pg);
    PutSingleton(k, some, all);
    ScalarContributor(k, all, [(k, some)], kw, pg);
    FoldStep(rs2, 1, [(k, some)], kw, pg);
  }

  // ---------------------------------------------------------------- pagination

  /** For a non-negative offset and limit the page is the limit-long run of
      items from the offset on, cut short at the end of the list. */
  lemma SliceIsPage<T>(s: seq<T>, offset: int, limit: int)
    requires 0 <= offset && 0 <= limit
    ensures var r := PySlice(s, offset, offset + limit);
      && |r| == (if limit < |s| - offset then limit else if |s| - offset < 0 then 0 else |s| - offset)
      && forall i :: 0 <= i < |r| ==> r[i] == s[offset + i]
  {
  }

  /** The default offset 0 and limit common.database_limit are written into
      the keyword arguments only when absent; nothing else changes. */
  lemma PageDefaultsWrittenBack(kw: Kwargs, pg: Paging)
    ensures var r := WithPageDefaults(kw, pg);
      && Lookup(r, "offset") == (if "offset" in Keys(kw) then Lookup(kw, "offset") else Some(JInt(0)))
      && Lookup(r, "limit") == (if "limit" in Keys(kw) then Lookup(kw, "limit") else Some(JInt(pg.databaseLimit)))
      && Keys(r) == Keys(kw) + {"offset", "limit"}
      && forall k :: k != "offset" && k != "limit" ==> Lookup(r, k) == Lookup(kw, k)
  {
  }

  /** A list under `data.items` sends the answer to Page. */
  lemma PaginateOnItems(acc: Fields, kw: Kwargs, pg: Paging)
    requires DataItems(acc).Some?
    ensures Paginate(acc, kw, pg)
         == Page(acc, Lookup(acc, "data").value.fields, DataItems(acc).value, kw, pg)
  {
  }

  /** Page with int bounds: the sorted items sliced, the defaults written back. */
  lemma PageResult(acc: Fields, d: Fields, items: seq<Json>, kw: Kwargs, pg: Paging,
                   sorted: seq<Json>, off: int, lim: int)
    requires var kw' := WithPageDefaults(kw, pg);
      && sorted == (if "sort" in Keys(kw') then pg.sortArray(items, Lookup(kw', "sort").value) else items)
      && AsPyInt(Lookup(kw', "offset").value) == Some(off)
      && AsPyInt(Lookup(kw', "limit").value) == Some(lim)
    ensures Page(acc, d, items, kw, pg)
         == Merged(Returned(Put(acc, "data", JObj(Put(d, "items", JList(PySlice(sorted, off, off + lim)))))),
                   WithPageDefaults(kw, pg))
  {
  }

  /** The answer with `page` written into `data.items`: nothing else changes. */
  function WithItems(acc: Fields, page: seq<Json>): (r: Fields)
    requires Lookup(acc, "data").Some? && Lookup(acc, "data").value.JObj?
    ensures DataItems(r) == Some(page)
    ensures forall k :: k != "data" ==> Lookup(r, k) == Lookup(acc, k)
  {
    var d := Lookup(acc, "data").value.fields;
    assert Lookup(Put(d, "items", JList(page)), "items") == Some(JList(page));
    Put(acc, "data", JObj(Put(d, "items", JList(page))))
  }

  /** When `data.items` is a list and offset and limit are ints (or absent),
      pagination replaces it by the requested page of the sorted items and
      leaves every other key of the answer alone (WithItems). The page
      starts at `off` and has at most `lim` items, the bounds f_kwargs holds
      after the defaults. */
  lemma PaginateTakesPage(acc: Fields, kw: Kwargs, pg: Paging) returns (off: int, lim: int)
    requires DataItems(acc).Some?
    requires "offset" in Keys(kw) ==> Lookup(kw, "offset").value.JInt?
    requires "limit" in Keys(kw) ==> Lookup(kw, "limit").value.JInt?
    ensures Lookup(WithPageDefaults(kw, pg), "offset") == Some(JInt(off))
    ensures Lookup(WithPageDefaults(kw, pg), "limit") == Some(JInt(lim))
    ensures Paginate(acc, kw, pg)
         == Merged(Returned(WithItems(acc, PySlice(if "sort" in Keys(kw) then pg.sortArray(DataItems(acc).value, Lookup(kw, "sort").value)
                                                  else DataItems(acc).value, off, off + lim))),
                   WithPageDefaults(kw, pg))
  {
    off, lim := PageBounds(kw, pg);
    PaginateOnItems(acc, kw, pg);
    PageResult(acc, Lookup(acc, "data").value.fields, DataItems(acc).value, kw, pg,
               if "sort" in Keys(kw) then pg.sortArray(DataItems(acc).value, Lookup(kw, "sort").value)
               else DataItems(acc).value, off, lim);
  }

  /** When `data.items` is a list but offset or limit (after the defaults)
      is neither an int nor a bool, the slice raises BoundsError's TypeError
      and f_kwargs keeps the defaults written back. */
  lemma PaginateRejectsBounds(acc: Fields, kw: Kwargs, pg: Paging)
    requires DataItems(acc).Some?
    requires var kw' := WithPageDefaults(kw, pg);
      AsPyInt(Lookup(kw', "offset").value).None? || AsPyInt(Lookup(kw', "limit").value).None?
    ensures var kw' := WithPageDefaults(kw, pg);
      Paginate(acc, kw, pg) == Merged(Raised(BoundsError(Lookup(kw', "offset").value, Lookup(kw', "limit").value)), kw')
  {
    PaginateOnItems(acc, kw, pg);
  }

  /** With offset and limit ints or absent, the defaults leave int bounds,
      and `sort` as it was. */
  lemma PageBounds(kw: Kwargs, pg: Paging) returns (off: int, lim: int)
    requires "offset" in Keys(kw) ==> Lookup(kw, "offset").value.JInt?
    requires "limit" in Keys(kw) ==> Lookup(kw, "limit").value.JInt?
    ensures Lookup(WithPageDefaults(kw, pg), "offset") == Some(JInt(off))
    ensures Lookup(WithPageDefaults(kw, pg), "limit") == Some(JInt(lim))
    ensures ("sort" in Keys(WithPageDefaults(kw, pg))) == ("sort" in Keys(kw))
    ensures Lookup(WithPageDefaults(kw, pg), "sort") == Lookup(kw, "sort")
  {
    PageDefaultsWrittenBack(kw, pg);
    off := Lookup(WithPageDefaults(kw, pg), "offset").value.i;
    lim := Lookup(WithPageDefaults(kw, pg), "limit").value.i;
  }

  /** The example of a ten-item merged answer read with offset 2 and limit 3:
      exactly the items at positions 2 to 4 of the sorted list. */
  lemma TenItemsOffsetTwoLimitThree(acc: Fields, pg: Paging, sort: Json)
    requires DataItems(acc).Some? && |pg.sortArray(DataItems(acc).value, sort)| == 10
    ensures var kw := [("offset", JInt(2)), ("limit", JInt(3)), ("sort", sort)];
      var m := Paginate(acc, kw, pg);
      var sorted := pg.sortArray(DataItems(acc).value, sort);
      && m.out.Returned?
      && DataItems(m.out.value) == Some([sorted[2], sorted[3], sorted[4]])
  {
    var kw := [("offset", JInt(2)), ("limit", JInt(3)), ("sort", sort)];
    var tail := [("limit", JInt(3)), ("sort", sort)];
    var last := [("sort", sort)];
    assert kw[1..] == tail && tail[1..] == last && last[1..] == [];
    assert last != [] && last[0] == ("sort", sort);
    assert Keys(last) == {"sort"} + Keys(last[1..]);
    assert Lookup(last, "sort") == Some(sort);
    assert Keys(tail) == {"limit"} + Keys(last);
    assert Lookup(tail, "sort") == Lookup(last, "sort");
    assert Keys(kw) == {"offset", "limit", "sort"};
    assert Lookup(kw, "offset") == Some(JInt(2));
    assert Lookup(kw, "limit") == Some(JInt(3));
    assert Lookup(kw, "sort") == Some(sort);
    assert WithPageDefaults(kw, pg) == kw;
    var off, lim := PaginateTakesPage(acc, kw, pg);
    var sorted := pg.sortArray(DataItems(acc).value, sort);
    assert PySlice(sorted, 2, 5) == sorted[2..5];
    assert sorted[2..5] == [sorted[2], sorted[3], sorted[4]];
  }

  /** Pagination runs at every level of the recursion: a nested dict that has
      its own `data.items` is paged as well. */
  lemma NestedLevelsArePaged(pg: Paging)
    ensures
      var a, b := JStr("a"), JStr("b");
      var kw := [("offset", JInt(1)), ("limit", JInt(1))];
      var inner := JObj([("data", JObj([("items", JList([a, b]))]))]);
      MergeAll([JObj([("outer", inner)])], [], kw, pg)
        == Merged(Returned([("outer", JObj([("data", JObj([("items", JList([b]))]))]))]), kw)
  {
    var a, b := JStr("a"), JStr("b");
    var kw := [("offset", JInt(1)), ("limit", JInt(1))];
    var inner := JObj([("data", JObj([("items", JList([a, b]))]))]);
    var paged := [("data", JObj([("items", JList([b]))]))];
    MiddleLevelIsPaged(pg);
    assert MergeFields([("outer", inner)], 1, [("outer", JObj(paged))], kw, pg)
        == Merged(Returned([("outer", JObj(paged))]), kw);
    assert MergeFields([("outer", inner)], 0, [], kw, pg) == Merged(Returned([("outer", JObj(paged))]), kw);
    FoldStep([JObj([("outer", inner)])], 0, [], kw, pg);
    assert "data" !in Keys([("outer", JObj(paged))]);
    NoDataNoPage([("outer", JObj(paged))], kw, pg);
  }

  /** The innermost dict of NestedLevelsArePaged holds no `data` key:
      nothing to page there. */
  lemma ItemsOnlyIsNotPaged(items: seq<Json>, kw: Kwargs, pg: Paging)
    ensures MergeAll([JObj([("items", JList(items))])], [], kw, pg)
         == Merged(Returned([("items", JList(items))]), kw)
  {
    var itemsDict := [("items", JList(items))];
    ScalarContributor("items", JList(items), [], kw, pg);
    assert MergeScalar([], "items", JList(items)) == Returned(itemsDict);
    FoldStep([JObj(itemsDict)], 0, [], kw, pg);
    assert "data" !in Keys(itemsDict);
    NoDataNoPage(itemsDict, kw, pg);
  }

  /** The middle dict of NestedLevelsArePaged: `data` is merged, then its
      items are paged with offset 1 and limit 1. */
  lemma MiddleLevelIsPaged(pg: Paging)
    ensures var a, b := JStr("a"), JStr("b");
      var kw := [("offset", JInt(1)), ("limit", JInt(1))];
      MergeAll([JObj([("data", JObj([("items", JList([a, b]))]))])], [], kw, pg)
        == Merged(Returned([("data", JObj([("items", JList([b]))]))]), kw)
  {
    var a, b := JStr("a"), JStr("b");
    var kw := [("offset", JInt(1)), ("limit", JInt(1))];
    var itemsDict := [("items", JList([a, b]))];
    var inner := JObj([("data", JObj(itemsDict))]);
    var pagedItems := [("items", JList([b]))];
    var paged := [("data", JObj(pagedItems))];
    OneOneBounds(pg);
    assert PySlice([a, b], 1, 2) == [b];
    ItemsOnlyIsNotPaged([a, b], kw, pg);
    var none: Fields := [];
    assert Lookup(none, "data") == None;
    assert MergeFields([("data", JObj(itemsDict))], 1, [("data", JObj(itemsDict))], kw, pg)
        == Merged(Returned([("data", JObj(itemsDict))]), kw);
    assert MergeFields([("data", JObj(itemsDict))], 0, [], kw, pg)
        == Merged(Returned([("data", JObj(itemsDict))]), kw);
    FoldStep([inner], 0, [], kw, pg);
    assert DataItems([("data", JObj(itemsDict))]) == Some([a, b]);
    PaginateOnItems([("data", JObj(itemsDict))], kw, pg);
    PageResult([("data", JObj(itemsDict))], itemsDict, [a, b], kw, pg, [a, b], 1, 1);
    PutSingleton("items", JList([a, b]), JList([b]));
    PutSingleton("data", JObj(itemsDict), JObj(pagedItems));
  }

  /** f_kwargs `{offset: 1, limit: 1}` already holds both bounds. */
  lemma OneOneBounds(pg: Paging)
    ensures var kw := [("offset", JInt(1)), ("limit", JInt(1))];
      && Keys(kw) == {"offset", "limit"}
      && Lookup(kw, "offset") == Some(JInt(1)) && Lookup(kw, "limit") == Some(JInt(1))
      && WithPageDefaults(kw, pg) == kw
  {
    var kw := [("offset", JInt(1)), ("limit", JInt(1))];
    assert kw[1..] == [("limit", JInt(1))];
    assert kw[1..][1..] == [];
  }
}
