/** Which node(s) can answer a distributed_master request
    (DistributedAPI.get_solver_node), with the agent directory as an input. */
module Solver {
  import opened Base
  import opened JsonModel

  /** One item of the agent directory's answer: the agent's id and the name
      of the node it reports to. */
  datatype AgentRecord = AgentRecord(id: Json, nodeName: Json)

  /** A node name and the agent ids sent to that node, in dictionary order. */
  type SolverMap = seq<(Json, seq<Json>)>

  /** The agent directory: get_agents_overview filtered to a list of ids,
      get_agents_overview over every agent, and get_agent's node_name. */
  datatype Directory = Directory(
    overview: seq<Json> -> Outcome<seq<AgentRecord>>,
    allAgents: Outcome<seq<AgentRecord>>,
    nodeOf: Json -> Outcome<Json>)

  // ---------------------------------------------------------------- grouping

  /** Whether record i continues the run of record i - 1 under groupby. */
  predicate ContinuesRun(recs: seq<AgentRecord>, i: nat)
    requires i < |recs|
  {
    i > 0 && recs[i - 1].nodeName == recs[i].nodeName
  }

  /** The node names of records i.. */
  function NodesFrom(recs: seq<AgentRecord>, i: nat): set<Json>
    requires i <= |recs|
    decreases |recs| - i
  {
    if i == |recs| then {} else {recs[i].nodeName} + NodesFrom(recs, i + 1)
  }

  /** `{k: list(ids of g) for k, g in groupby(recs, node_name)}` from record i
      on: a record that starts a run writes `[id]` under its node, one that
      continues a run appends its id, so a later run of the same node
      overwrites what an earlier run wrote, at the earlier position.  A node
      name that is a list or a dict cannot be a dict key: the comprehension
      raises TypeError at the first one (a run continues only on an equal
      name, so that record starts its run, and its run's key is that name). */
  function GroupFrom(recs: seq<AgentRecord>, i: nat, acc: SolverMap): (r: Outcome<SolverMap>)
    requires i <= |recs|
    decreases |recs| - i
    ensures r.Returned? <==> forall j :: i <= j < |recs| ==> Hashable(recs[j].nodeName)
    // one key per node name, each once, as in a dict
    ensures r.Returned? ==> Keys(r.value) == Keys(acc) + NodesFrom(recs, i)
    ensures r.Returned? && DistinctKeys(acc) ==> DistinctKeys(r.value)
    ensures r.Returned? ==> forall n :: n in Keys(r.value) && n !in Keys(acc) ==> Hashable(n)
    // a node no later record names keeps its bucket
    ensures r.Returned? ==> forall n :: n !in NodesFrom(recs, i) ==> Lookup(r.value, n) == Lookup(acc, n)
  {
    if i == |recs| then Returned(acc)
    else
      var n := recs[i].nodeName;
      if !Hashable(n) then Raised(Unhashable(n))
      else
        var run := match Lookup(acc, n)
          case Some(ids) => if ContinuesRun(recs, i) then ids + [recs[i].id] else [recs[i].id]
          case None => [recs[i].id];
        PutKeepsDistinct(acc, n, run);
        GroupFrom(recs, i + 1, Put(acc, n, run))
  }

  /** The groupby dictionary: it exists exactly when every node name can be
      hashed, and then its keys are exactly the node names, each once. */
  function GroupByNode(recs: seq<AgentRecord>): (r: Outcome<SolverMap>)
    ensures r.Returned? <==> forall j :: 0 <= j < |recs| ==> Hashable(recs[j].nodeName)
    ensures r.Returned? ==> Keys(r.value) == NodesFrom(recs, 0) && DistinctKeys(r.value)
    ensures r.Returned? ==> forall n :: n in Keys(r.value) ==> Hashable(n)
  {
    GroupFrom(recs, 0, [])
  }

  /** The comprehension's TypeError names the first node name that is a
      list or a dict. */
  lemma {:induction false} GroupFromRaises(recs: seq<AgentRecord>, i: nat, acc: SolverMap, p: nat)
    requires i <= p < |recs| && !Hashable(recs[p].nodeName)
    requires forall j :: i <= j < p ==> Hashable(recs[j].nodeName)
    ensures GroupFrom(recs, i, acc) == Raised(Unhashable(recs[p].nodeName))
    decreases p - i
  {
    if i < p {
      var run := GroupStep(recs, i, acc);
      GroupFromRaises(recs, i + 1, Put(acc, recs[i].nodeName, run), p);
    }
  }

  /** groupby over records whose first unhashable node name is record p's
      raises that name's TypeError. */
  lemma GroupByNodeRaises(recs: seq<AgentRecord>, p: nat)
    requires p < |recs| && !Hashable(recs[p].nodeName)
    requires forall j :: 0 <= j < p ==> Hashable(recs[j].nodeName)
    ensures GroupByNode(recs) == Raised(Unhashable(recs[p].nodeName))
  {
    GroupFromRaises(recs, 0, [], p);
  }

  /** Every id groupby puts in a node's bucket is the id of a record that
      reports to that node (or was in the bucket already). */
  lemma {:induction false} GroupedIdsBelong(recs: seq<AgentRecord>, i: nat, acc: SolverMap, n: Json, x: Json)
    requires i <= |recs| && GroupFrom(recs, i, acc).Returned?
    requires Lookup(GroupFrom(recs, i, acc).value, n).Some? && x in Lookup(GroupFrom(recs, i, acc).value, n).value
    ensures (Lookup(acc, n).Some? && x in Lookup(acc, n).value)
            || exists j :: i <= j < |recs| && recs[j] == AgentRecord(x, n)
    decreases |recs| - i
  {
    if i < |recs| {
      var m := recs[i].nodeName;
      var run := GroupStep(recs, i, acc);
      var acc' := Put(acc, m, run);
      GroupedIdsBelong(recs, i + 1, acc', n, x);
      if Lookup(acc', n).Some? && x in Lookup(acc', n).value {
        BucketStep(acc, m, run, recs[i].id, n, x);
        if m == n && x == recs[i].id {
          assert recs[i] == AgentRecord(x, n);
        }
      } else {
        var j :| i + 1 <= j < |recs| && recs[j] == AgentRecord(x, n);
        assert i <= j;
      }
    }
  }

  /** The bucket record i writes in one groupby step: a fresh `[id]` or the
      node's bucket with the id appended; the rest of the grouping goes on
      from the updated dictionary. */
  lemma GroupStep(recs: seq<AgentRecord>, i: nat, acc: SolverMap) returns (run: seq<Json>)
    requires i < |recs| && Hashable(recs[i].nodeName)
    ensures run == [recs[i].id]
            || (Lookup(acc, recs[i].nodeName).Some? && run == Lookup(acc, recs[i].nodeName).value + [recs[i].id])
    ensures GroupFrom(recs, i, acc) == GroupFrom(recs, i + 1, Put(acc, recs[i].nodeName, run))
  {
    run := match Lookup(acc, recs[i].nodeName)
      case Some(ids) => if ContinuesRun(recs, i) then ids + [recs[i].id] else [recs[i].id]
      case None => [recs[i].id];
  }

  /** One groupby step: a bucket after writing `run` under node m holds only
      what it held before, or the id just appended. */
  lemma BucketStep(acc: SolverMap, m: Json, run: seq<Json>, id: Json, n: Json, x: Json)
    requires run == [id] || (Lookup(acc, m).Some? && run == Lookup(acc, m).value + [id])
    requires Lookup(Put(acc, m, run), n).Some? && x in Lookup(Put(acc, m, run), n).value
    ensures (Lookup(acc, n).Some? && x in Lookup(acc, n).value) || (m == n && x == id)
  {
    if m != n {
      assert Lookup(Put(acc, m, run), n) == Lookup(acc, n);
    }
  }

  /** No agent's id is routed to a node it does not report to. */
  lemma IdsGoToTheirNode(recs: seq<AgentRecord>, n: Json, x: Json)
    requires GroupByNode(recs).Returned?
    requires Lookup(GroupByNode(recs).value, n).Some? && x in Lookup(GroupByNode(recs).value, n).value
    ensures exists j :: 0 <= j < |recs| && recs[j] == AgentRecord(x, n)
  {
    GroupedIdsBelong(recs, 0, [], n, x);
  }

  /** Records of one node are consecutive: this is what groupby needs to see
      each node once. */
  ghost predicate Contiguous(recs: seq<AgentRecord>)
  {
    forall i, k :: 0 <= i < k < |recs| && recs[i].nodeName == recs[k].nodeName ==>
      recs[k - 1].nodeName == recs[k].nodeName
  }

  /** The ids of the records among the first i that report to node n. */
  function IdsUpTo(recs: seq<AgentRecord>, n: Json, i: nat): seq<Json>
    requires i <= |recs|
  {
    if i == 0 then []
    else IdsUpTo(recs, n, i - 1) + (if recs[i - 1].nodeName == n then [recs[i - 1].id] else [])
  }

  lemma {:induction false} IdsUpToHasRecord(recs: seq<AgentRecord>, n: Json, i: nat)
    requires i <= |recs| && IdsUpTo(recs, n, i) != []
    ensures exists j :: 0 <= j < i && recs[j].nodeName == n
  {
    if recs[i - 1].nodeName != n {
      assert IdsUpTo(recs, n, i) == IdsUpTo(recs, n, i - 1) + [];
      IdsUpToHasRecord(recs, n, i - 1);
      var j :| 0 <= j < i - 1 && recs[j].nodeName == n;
      assert 0 <= j < i;
    }
  }

  /** The map built from records ..i holds, for every node seen so far, all
      of its ids in order. */
  ghost predicate GroupedUpTo(recs: seq<AgentRecord>, i: nat, acc: SolverMap)
    requires i <= |recs|
  {
    forall n :: Lookup(acc, n) == (if IdsUpTo(recs, n, i) == [] then None else Some(IdsUpTo(recs, n, i)))
  }

  lemma {:induction false} GroupContiguous(recs: seq<AgentRecord>, i: nat, acc: SolverMap)
    requires i <= |recs| && Contiguous(recs) && GroupedUpTo(recs, i, acc)
    ensures GroupFrom(recs, i, acc).Returned? ==> GroupedUpTo(recs, |recs|, GroupFrom(recs, i, acc).value)
    decreases |recs| - i
  {
    if i < |recs| && Hashable(recs[i].nodeName) {
      var m, x := recs[i].nodeName, recs[i].id;
      var run := match Lookup(acc, m)
        case Some(ids) => if ContinuesRun(recs, i) then ids + [x] else [x]
        case None => [x];
      var acc' := Put(acc, m, run);
      assert IdsUpTo(recs, m, i + 1) == IdsUpTo(recs, m, i) + [x];
      if ContinuesRun(recs, i) {
        assert IdsUpTo(recs, m, i) == IdsUpTo(recs, m, i - 1) + [recs[i - 1].id];
        assert Lookup(acc, m) == Some(IdsUpTo(recs, m, i));
        assert run == IdsUpTo(recs, m, i) + [x];
      } else if IdsUpTo(recs, m, i) != [] {
        // an earlier record of m, followed by one of another node, then m again
        IdsUpToHasRecord(recs, m, i);
        assert false;
      } else {
        assert Lookup(acc, m) == None;
        assert run == [x];
        assert IdsUpTo(recs, m, i + 1) == [x];
      }
      assert Lookup(acc', m) == Some(IdsUpTo(recs, m, i + 1));
      forall n ensures Lookup(acc', n) == (if IdsUpTo(recs, n, i + 1) == [] then None else Some(IdsUpTo(recs, n, i + 1))) {
        if n != m {
          assert IdsUpTo(recs, n, i + 1) == IdsUpTo(recs, n, i);
        }
      }
      GroupContiguous(recs, i + 1, acc');
    }
  }

  /** When the directory lists the agents of each node consecutively, every
      node's bucket holds all of its agents' ids, in directory order. */
  lemma ContiguousGroupingKeepsEveryId(recs: seq<AgentRecord>)
    requires Contiguous(recs)
    ensures GroupByNode(recs).Returned? ==>
      forall n :: Lookup(GroupByNode(recs).value, n)
                     == (if IdsUpTo(recs, n, |recs|) == [] then None else Some(IdsUpTo(recs, n, |recs|)))
  {
    GroupContiguous(recs, 0, []);
  }

  /** groupby only groups consecutive records: a node whose agents are split
      by another node's keeps only its last run.  The directory is sorted on
      the field `node` (not `node_name`), so nothing guarantees contiguity. */
  lemma SplitRunOverwrites()
    ensures var a, b := JStr("node-a"), JStr("node-b");
      GroupByNode([AgentRecord(JStr("001"), a), AgentRecord(JStr("002"), b), AgentRecord(JStr("003"), a)])
        == Returned([(a, [JStr("003")]), (b, [JStr("002")])])
  {
    var a, b := JStr("node-a"), JStr("node-b");
    var recs := [AgentRecord(JStr("001"), a), AgentRecord(JStr("002"), b), AgentRecord(JStr("003"), a)];
    var m1 := [(a, [JStr("001")])];
    var m2 := [(a, [JStr("001")]), (b, [JStr("002")])];
    var m3 := [(a, [JStr("003")]), (b, [JStr("002")])];
    assert Put([], a, [JStr("001")]) == m1;
    assert Lookup(m1, b) == None;
    assert Put(m1, b, [JStr("002")]) == m2;
    assert Lookup(m2, a) == Some([JStr("001")]);
    assert !ContinuesRun(recs, 2);
    assert Put(m2, a, [JStr("003")]) == m3 by { assert m2[1..] == [(b, [JStr("002")])]; }
    assert GroupFrom(recs, 3, m3) == Returned(m3);
    assert GroupFrom(recs, 2, m2) == GroupFrom(recs, 3, m3);
    assert Lookup(m1, b) == None && Put(m1, b, [JStr("002")]) == m2;
    assert GroupFrom(recs, 1, m1) == GroupFrom(recs, 2, m2);
    assert GroupFrom(recs, 0, []) == GroupFrom(recs, 1, m1);
  }

  // ---------------------------------------------------------------- missing ids

  /** `set(requested) - set(found)`, listed in request order without repeats.
      Python's set order is unspecified; the lemmas state membership only. */
  function DiffFrom(requested: seq<Json>, found: seq<Json>, i: nat, acc: seq<Json>): seq<Json>
    requires i <= |requested|
    decreases |requested| - i
  {
    if i == |requested| then acc
    else if PyIn(requested[i], found) || PyIn(requested[i], acc) then DiffFrom(requested, found, i + 1, acc)
    else DiffFrom(requested, found, i + 1, acc + [requested[i]])
  }

  /** The position of the first element that cannot go in a set. */
  function FirstUnhashable(s: seq<Json>): (r: Option<nat>)
    ensures r.None? <==> forall i :: 0 <= i < |s| ==> Hashable(s[i])
    ensures r.Some? ==> r.value < |s| && !Hashable(s[r.value])
                        && forall i :: 0 <= i < r.value ==> Hashable(s[i])
  {
    if s == [] then None
    else if !Hashable(s[0]) then Some(0)
    else match FirstUnhashable(s[1..])
      case None => None
      case Some(p) => Some(p + 1)
  }

  /** Building the two sets raises TypeError on an unhashable id. */
  function MissingIds(requested: seq<Json>, found: seq<Json>): Outcome<seq<Json>>
  {
    match FirstUnhashable(requested)
    case Some(p) => Raised(Unhashable(requested[p]))
    case None =>
      match FirstUnhashable(found)
      case Some(p) => Raised(Unhashable(found[p]))
      case None => Returned(DiffFrom(requested, found, 0, []))
  }

  /** The set difference fails exactly when some id is a list or a dict; the
      requested ids are hashed first, and the first unhashable id names the
      TypeError. */
  lemma MissingIdsErrors(requested: seq<Json>, found: seq<Json>)
    ensures var r := MissingIds(requested, found);
      && (r.Returned? <==> (forall i :: 0 <= i < |requested| ==> Hashable(requested[i]))
                           && (forall i :: 0 <= i < |found| ==> Hashable(found[i])))
      && (forall p :: FirstUnhashable(requested) == Some(p) ==> r == Raised(Unhashable(requested[p])))
      && (forall p :: FirstUnhashable(requested).None? && FirstUnhashable(found) == Some(p) ==>
            r == Raised(Unhashable(found[p])))
  {
  }

  lemma {:induction false} DiffMembers(requested: seq<Json>, found: seq<Json>, i: nat, acc: seq<Json>)
    requires i <= |requested|
    requires forall x :: x in acc ==> x in requested && !PyIn(x, found)
    requires forall j :: 0 <= j < i ==> PyIn(requested[j], found) || PyIn(requested[j], acc)
    ensures var r := DiffFrom(requested, found, i, acc);
      && (forall x :: x in r ==> x in requested && !PyIn(x, found))
      && (forall j :: 0 <= j < |requested| ==> PyIn(requested[j], found) || PyIn(requested[j], r))
      && acc <= r
    decreases |requested| - i
  {
    if i < |requested| {
      var y := requested[i];
      if PyIn(y, found) || PyIn(y, acc) {
        DiffMembers(requested, found, i + 1, acc);
      } else {
        var acc' := acc + [y];
        forall j | 0 <= j < i + 1 ensures PyIn(requested[j], found) || PyIn(requested[j], acc') {
          if j == i {
            PyEqReflexive(y);
            assert acc'[|acc|] == y;
          } else if !PyIn(requested[j], found) {
            var k :| 0 <= k < |acc| && PyEq(requested[j], acc[k]);
            assert acc'[k] == acc[k];
          }
        }
        DiffMembers(requested, found, i + 1, acc');
      }
    }
  }

  /** An id is listed as missing exactly when it was requested and the
      directory did not return it (up to Python's ==). */
  lemma MissingIdsMembership(requested: seq<Json>, found: seq<Json>)
    requires MissingIds(requested, found).Returned?
    ensures var r := MissingIds(requested, found).value;
      && (forall x :: x in r ==> x in requested && !PyIn(x, found))
      && (forall y :: y in requested ==> PyIn(y, found) || PyIn(y, r))
  {
    DiffMembers(requested, found, 0, []);
  }

  // ---------------------------------------------------------------- the solver map

  /** `map(itemgetter('id'), agents)`. */
  function IdsOf(recs: seq<AgentRecord>): (r: seq<Json>)
    ensures |r| == |recs| && forall i :: 0 <= i < |recs| ==> r[i] == recs[i].id
  {
    seq(|recs|, i requires 0 <= i < |recs| => recs[i].id)
  }

  /** Missing ids go to this node's own bucket: appended to it when the node
      already has one, as a new last entry otherwise. */
  function AddToOwnBucket(m: SolverMap, self: Json, missing: seq<Json>): (r: SolverMap)
    ensures Lookup(r, self) == Some((if Lookup(m, self).Some? then Lookup(m, self).value else []) + missing)
    ensures forall n :: n != self ==> Lookup(r, n) == Lookup(m, n)
    ensures Keys(r) == Keys(m) + {self}
    ensures DistinctKeys(m) ==> DistinctKeys(r)
  {
    match Lookup(m, self)
    case Some(ids) =>
      PutKeepsDistinct(m, self, ids + missing);
      Put(m, self, ids + missing)
    case None =>
      assert [] + missing == missing;
      PutKeepsDistinct(m, self, missing);
      Put(m, self, missing)
  }

  /** `{k: [] for k, _ in groupby(...)}`: every node once, with no ids. */
  function Emptied(m: SolverMap): (r: SolverMap)
    ensures |r| == |m| && forall i :: 0 <= i < |m| ==> r[i] == (m[i].0, [])
  {
    seq(|m|, i requires 0 <= i < |m| => (m[i].0, []))
  }

  /** The branch for a list of agent ids: the directory's records grouped by
      node, and the ids it does not know added to this node's bucket. */
  function SolveList(ids: seq<Json>, dir: Directory, self: Json): Outcome<SolverMap>
  {
    match dir.overview(ids)
    case Raised(e) => Raised(e)
    case Returned(agents) =>
      match GroupByNode(agents)
      case Raised(e) => Raised(e)
      case Returned(groups) =>
        match MissingIds(ids, IdsOf(agents))
        case Raised(e) => Raised(e)
        case Returned(missing) =>
          if missing != [] then Returned(AddToOwnBucket(groups, self, missing)) else Returned(groups)
  }

  /** For a list of ids, the directory's, the grouping's and the set
      difference's exceptions pass through, in that order; otherwise the
      targets are the nodes of the records found, each once, and this node
      when some id is unknown. */
  lemma SolveListTargets(ids: seq<Json>, dir: Directory, self: Json)
    ensures var r := SolveList(ids, dir, self);
      && (r.Returned? <==> dir.overview(ids).Returned? && GroupByNode(dir.overview(ids).value).Returned?
                           && MissingIds(ids, IdsOf(dir.overview(ids).value)).Returned?)
      && (dir.overview(ids).Raised? ==> r == Raised(dir.overview(ids).exc))
      && (dir.overview(ids).Returned? && GroupByNode(dir.overview(ids).value).Raised? ==>
            r == GroupByNode(dir.overview(ids).value))
    ensures var r := SolveList(ids, dir, self);
      r.Returned? ==>
      var agents := dir.overview(ids).value;
      var missing := MissingIds(ids, IdsOf(agents)).value;
      && Keys(r.value) == NodesFrom(agents, 0) + (if missing == [] then {} else {self})
      && DistinctKeys(r.value)
  {
    if dir.overview(ids).Returned? {
      MissingIdsErrors(ids, IdsOf(dir.overview(ids).value));
    }
  }

  /** The branch for one agent id: the node the directory names for it. */
  function SolveOne(a: Json, dir: Directory): Outcome<SolverMap>
  {
    match dir.nodeOf(a)
    case Raised(e) => Raised(e)
    case Returned(n) => if Hashable(n) then Returned([(n, [a])]) else Raised(Unhashable(n))
  }

  /** For one id, the directory's exception passes through, and a node name
      that is a list or a dict cannot be the key; otherwise there is a single
      target, the agent's node, with that one id. */
  lemma SolveOneTarget(a: Json, dir: Directory)
    ensures var r := SolveOne(a, dir);
      && (r.Returned? <==> dir.nodeOf(a).Returned? && Hashable(dir.nodeOf(a).value))
      && (dir.nodeOf(a).Raised? ==> r == Raised(dir.nodeOf(a).exc))
      && (dir.nodeOf(a).Returned? && !Hashable(dir.nodeOf(a).value) ==> r == Raised(Unhashable(dir.nodeOf(a).value)))
      && (r.Returned? ==>
            && Keys(r.value) == {dir.nodeOf(a).value} && DistinctKeys(r.value)
            && Lookup(r.value, dir.nodeOf(a).value) == Some([a]))
  {
  }

  /** The branch for a call on every agent: each node of the directory. */
  function SolveAll(dir: Directory): Outcome<SolverMap>
  {
    match dir.allAgents
    case Raised(e) => Raised(e)
    case Returned(agents) =>
      match GroupByNode(agents)
      case Raised(e) => Raised(e)
      case Returned(groups) => Returned(Emptied(groups))
  }

  /** For every agent, the directory's and the grouping's exceptions pass
      through; otherwise the targets are exactly the directory's nodes, each
      once, with no ids. */
  lemma SolveAllTargets(dir: Directory)
    ensures var r := SolveAll(dir);
      && (r.Returned? <==> dir.allAgents.Returned? && GroupByNode(dir.allAgents.value).Returned?)
      && (dir.allAgents.Raised? ==> r == Raised(dir.allAgents.exc))
      && (dir.allAgents.Returned? && GroupByNode(dir.allAgents.value).Raised? ==>
            r == GroupByNode(dir.allAgents.value))
      && (r.Returned? ==>
            && Keys(r.value) == NodesFrom(dir.allAgents.value, 0) && DistinctKeys(r.value)
            && forall i :: 0 <= i < |r.value| ==> r.value[i].1 == [])
  {
    if dir.allAgents.Returned? && GroupByNode(dir.allAgents.value).Returned? {
      EmptiedKeys(GroupByNode(dir.allAgents.value).value);
    }
  }

  /** get_solver_node for keyword arguments kw on the node named self: the
      solver map, and kw as the call leaves it (node_id deleted). */
  function Solve(kw: Kwargs, dir: Directory, self: Json): (r: (Outcome<SolverMap>, Kwargs))
    ensures "agent_id" in Keys(kw) && Lookup(kw, "agent_id").value.JList? ==>
              r == (SolveList(Lookup(kw, "agent_id").value.items, dir, self), kw)
    ensures "agent_id" in Keys(kw) && !Lookup(kw, "agent_id").value.JList? ==>
              r == (SolveOne(Lookup(kw, "agent_id").value, dir), kw)
    ensures "agent_id" !in Keys(kw) && "node_id" in Keys(kw) ==>
              var n := Lookup(kw, "node_id").value;
              r == (if Hashable(n) then Returned([(n, [])]) else Raised(Unhashable(n)), Remove(kw, "node_id"))
              && "node_id" !in Keys(r.1)
    ensures "agent_id" !in Keys(kw) && "node_id" !in Keys(kw) ==> r == (SolveAll(dir), kw)
  {
    if "agent_id" in Keys(kw) then
      var a := Lookup(kw, "agent_id").value;
      if a.JList? then (SolveList(a.items, dir, self), kw) else (SolveOne(a, dir), kw)
    else if "node_id" in Keys(kw) then
      // node_id is deleted before the dict {node_id: []} is built
      var n := Lookup(kw, "node_id").value;
      (if Hashable(n) then Returned([(n, [])]) else Raised(Unhashable(n)), Remove(kw, "node_id"))
    else (SolveAll(dir), kw)
  }

  /** Whatever the branch, the solver map is a dict: no node twice, and no
      key (but possibly this node's own name) that Python could not hash. */
  lemma SolverMapIsADict(kw: Kwargs, dir: Directory, self: Json)
    ensures var r := Solve(kw, dir, self).0;
      r.Returned? ==> DistinctKeys(r.value) && forall n :: n in Keys(r.value) ==> Hashable(n) || n == self
  {
    if "agent_id" in Keys(kw) {
      var a := Lookup(kw, "agent_id").value;
      if a.JList? { SolveListTargets(a.items, dir, self); } else { SolveOneTarget(a, dir); }
    } else if "node_id" !in Keys(kw) {
      SolveAllTargets(dir);
    }
  }

  /** For a list of agent ids: every requested id is either one the directory
      returned, or it is in this node's bucket after the ids the directory
      placed there; no other bucket is touched. */
  lemma RequestedIdsAreRouted(ids: seq<Json>, dir: Directory, self: Json)
    requires SolveList(ids, dir, self).Returned?
    ensures var agents := dir.overview(ids).value;
      var m := SolveList(ids, dir, self).value;
      var groups := GroupByNode(agents).value;
      && (forall n :: n != self ==> Lookup(m, n) == Lookup(groups, n))
      && (forall y :: y in ids && !PyIn(y, IdsOf(agents)) ==>
            Lookup(m, self).Some? && PyIn(y, Lookup(m, self).value))
      && (Lookup(groups, self).Some? ==>
            Lookup(m, self).Some? && Lookup(groups, self).value <= Lookup(m, self).value)
  {
    var agents := dir.overview(ids).value;
    MissingIdsMembership(ids, IdsOf(agents));
    var missing := MissingIds(ids, IdsOf(agents)).value;
    var groups := GroupByNode(agents).value;
    assert SolveList(ids, dir, self).value
      == if missing != [] then AddToOwnBucket(groups, self, missing) else groups;
    MissingGoToOwnBucket(groups, self, ids, IdsOf(agents), missing);
  }

  /** Adding the missing ids to this node's bucket (when there are any) keeps
      every other bucket, keeps what this node's bucket held, and gives every
      requested id that was not found a place in it. */
  lemma MissingGoToOwnBucket(groups: SolverMap, self: Json, ids: seq<Json>, found: seq<Json>, missing: seq<Json>)
    requires forall y :: y in ids ==> PyIn(y, found) || PyIn(y, missing)
    ensures var m := if missing != [] then AddToOwnBucket(groups, self, missing) else groups;
      && (forall n :: n != self ==> Lookup(m, n) == Lookup(groups, n))
      && (forall y :: y in ids && !PyIn(y, found) ==> Lookup(m, self).Some? && PyIn(y, Lookup(m, self).value))
      && (Lookup(groups, self).Some? ==> Lookup(m, self).Some? && Lookup(groups, self).value <= Lookup(m, self).value)
  {
    if missing != [] {
      var m := AddToOwnBucket(groups, self, missing);
      var pre := if Lookup(groups, self).Some? then Lookup(groups, self).value else [];
      assert Lookup(m, self) == Some(pre + missing);
      forall y | y in ids && !PyIn(y, found) ensures PyIn(y, pre + missing) {
        assert PyIn(y, missing);
        var k :| 0 <= k < |missing| && PyEq(y, missing[k]);
        assert (pre + missing)[|pre| + k] == missing[k];
      }
    }
  }

  /** `{k: [] for ...}` keeps the keys it empties. */
  lemma {:induction false} EmptiedKeys(m: SolverMap)
    ensures Keys(Emptied(m)) == Keys(m)
  {
    if m != [] {
      EmptiedKeys(m[1..]);
      assert Emptied(m)[1..] == Emptied(m[1..]);
    }
  }
}
