/** The DistributedAPI object: its attributes, and the methods that route a
    call, resolve the solver nodes, forward and merge, each proved to do what
    the functions of Distribution, Solver and Merge say. */
module Dapi {
  import opened Base
  import opened JsonModel
  import opened Merge
  import opened Envelope
  import opened Routing
  import opened Solver
  import opened Marshal
  import opened Distribution

  /** What the outer loop of merge_results does once the inner loop over
      contributor i has given `m`: stop on an exception, or go on with the
      next contributor. */
  ghost function AfterContributor(rs: seq<Json>, i: nat, m: Merged, pg: Paging): Merged
    requires i < |rs|
  {
    if m.out.Raised? then m else Fold(rs, i + 1, m.out.value, m.kwargs, pg)
  }

  class DistributedApi {
    const f: PyCallable
    var fKwargs: Kwargs
    const requestType: string
    const waitForComplete: bool
    var fromCluster: bool
    const isAsync: bool
    const debug: bool
    /** cluster.get_node(), read once by the constructor. */
    const node: NodeInfo
    /** The configuration and the collaborators the call consults. */
    const env: Env
    /** The requests sent to other nodes so far, in order. */
    ghost var sent: seq<Message>

    /** The attributes to_dict writes. */
    function Call(): CallRecord
      reads this
    {
      CallRecord(f, fKwargs, requestType, waitForComplete, fromCluster, isAsync)
    }

    function State(): CallState
      reads this
    {
      CallState(Call(), debug, node)
    }

    constructor (c: CallRecord, debug: bool, node: NodeInfo, env: Env)
      ensures Call() == c && this.debug == debug && this.node == node && this.env == env
      ensures sent == []
    {
      f := c.f;
      fKwargs := c.fKwargs;
      requestType := c.requestType;
      waitForComplete := c.waitForComplete;
      fromCluster := c.fromCluster;
      isAsync := c.isAsync;
      this.debug := debug;
      this.node := node;
      this.env := env;
      sent := [];
    }

    /** distribute_function. */
    method Distribute() returns (r: Reply)
      modifies this
      decreases Rank(Call()), 0
      ensures var st := DistributeSpec(old(State()), env);
        r == st.result && Call() == st.call && sent == old(sent) + st.sent
    {
      var d := Route(env.dapiEnabled, env.clusterDisabled, requestType, node.nodeType, fromCluster);
      if d.Local? {
        r := ExecuteLocalRequest();
      } else if d.Forward? {
        var o := ForwardRequest();
        r := Guard(o, debug);
      } else {
        var o := ExecuteRemoteRequest();
        r := Guard(o, debug);
      }
    }

    /** execute_local_request: the outcome of the run, as an envelope. */
    method ExecuteLocalRequest() returns (r: Reply)
      ensures r == LocalSpec(State(), env)
    {
      var run := env.runLocal(f, fKwargs);
      r := ExecuteLocal(run, waitForComplete, debug, env.timeoutMessage);
    }

    /** execute_remote_request: the call, as to_dict writes it, goes to the
        master and the master's answer is returned as it is. */
    method ExecuteRemoteRequest() returns (o: Outcome<Json>)
      modifies this`sent
      ensures o == env.remote(Call())
      ensures sent == old(sent) + [ToMaster(Call())]
    {
      var c := Call();
      o := env.remote(c);
      sent := sent + [ToMaster(c)];
    }

    /** forward_request, with the fan-out over several nodes as a loop. */
    method ForwardRequest() returns (o: Outcome<Json>)
      requires requestType == "distributed_master"
      modifies this
      decreases 2, 0
      ensures var st := ForwardSpec(old(State()), env);
        o == st.result && Call() == st.call && sent == old(sent) + st.sent
    {
      var solved := GetSolverNode();
      if solved.Raised? {
        return Raised(solved.exc);
      }
      fromCluster := true;
      var nodes := solved.value;
      if |nodes| > 1 {
        var results := FanOut(nodes);
        if results.Raised? {
          return Raised(results.exc);
        }
        var merged := MergeResults(results.value, []);
        o := if merged.Raised? then Raised(merged.exc) else Returned(JObj(merged.value));
      } else if |nodes| == 1 {
        o := Forward(nodes[0]);
      } else {
        o := Raised(NoSolverNode);
      }
    }

    /** `gather(*[forward(node) for node in nodes.items()])`, one node after
        the other; the first exception ends it. */
    method FanOut(nodes: SolverMap) returns (o: Outcome<seq<Json>>)
      requires Reentrant(Call())
      modifies this
      decreases 1, 1
      ensures var st := ForwardAll(old(State()), nodes, 0, [], env);
        o == st.result && Call() == st.call && sent == old(sent) + st.sent
    {
      ghost var total := ForwardAll(State(), nodes, 0, [], env);
      var results: seq<Json> := [];
      var i := 0;
      while i < |nodes|
        invariant 0 <= i <= |nodes|
        invariant Reentrant(Call()) && SameCall(old(Call()), Call())
        invariant var rest := ForwardAll(State(), nodes, i, results, env);
          total.result == rest.result && total.call == rest.call && old(sent) + total.sent == sent + rest.sent
        decreases |nodes| - i
      {
        FanOutStep(total, old(sent), sent, State(), nodes, i, results, env);
        var a := Forward(nodes[i]);
        if a.Raised? {
          return Raised(a.exc);
        }
        results := results + [a.value];
        i := i + 1;
      }
      o := Returned(results);
    }

    /** forward(node_name): agent_id is written, then the target runs here or
        is sent with b'dapi_forward'. */
    method Forward(target: (Json, seq<Json>)) returns (o: Outcome<Json>)
      requires Reentrant(Call())
      modifies this
      decreases 1, 0
      ensures var st := ForwardOne(old(State()), target, env);
        o == st.result && Call() == st.call && sent == old(sent) + st.sent
    {
      var (name, ids) := target;
      if ids != [] && ("agent_id" !in Keys(fKwargs) || Lookup(fKwargs, "agent_id").value.JList?) {
        fKwargs := Put(fKwargs, "agent_id", JList(ids));
      }
      if name == JStr("unknown") || name == JStr("") || name == JStr(node.name) {
        var r := Distribute();
        o := if r.Answered? then Returned(r.body) else Raised(r.exc);
      } else {
        var c := Call();
        o := env.forwardTo(name, c);
        sent := sent + [ToNode(name, c)];
      }
    }

    /** get_solver_node: the solver map, with node_id deleted from f_kwargs
        and the unknown ids added to this node's bucket. */
    method GetSolverNode() returns (r: Outcome<SolverMap>)
      modifies this`fKwargs
      ensures (r, fKwargs) == Solve(old(fKwargs), env.directory, JStr(node.name))
    {
      if "agent_id" in Keys(fKwargs) {
        var a := Lookup(fKwargs, "agent_id").value;
        if a.JList? {
          var agents := env.directory.overview(a.items);
          if agents.Raised? {
            return Raised(agents.exc);
          }
          var grouped := GroupByNode(agents.value);
          if grouped.Raised? {
            return Raised(grouped.exc);
          }
          var groups := grouped.value;
          var missing := MissingIds(a.items, IdsOf(agents.value));
          if missing.Raised? {
            return Raised(missing.exc);
          }
          if missing.value != [] {
            var self := JStr(node.name);
            var own := Lookup(groups, self);
            if own.Some? {
              groups := Put(groups, self, own.value + missing.value);
            } else {
              assert [] + missing.value == missing.value;
              groups := Put(groups, self, missing.value);
            }
          }
          r := Returned(groups);
        } else {
          var n := env.directory.nodeOf(a);
          if n.Raised? {
            return Raised(n.exc);
          }
          r := if Hashable(n.value) then Returned([(n.value, [a])]) else Raised(Unhashable(n.value));
        }
      } else if "node_id" in Keys(fKwargs) {
        var nodeId := Lookup(fKwargs, "node_id").value;
        fKwargs := Remove(fKwargs, "node_id");
        r := if Hashable(nodeId) then Returned([(nodeId, [])]) else Raised(Unhashable(nodeId));
      } else {
        var agents := env.directory.allAgents;
        if agents.Raised? {
          return Raised(agents.exc);
        }
        var grouped := GroupByNode(agents.value);
        r := if grouped.Raised? then Raised(grouped.exc) else Returned(Emptied(grouped.value));
      }
    }

    /** merge_results(responses, final_json): the nested loops over the
        contributors and their keys, then the pagination block, which writes
        offset and limit into f_kwargs. */
    method MergeResults(rs: seq<Json>, finalJson: Fields) returns (r: Outcome<Fields>)
      modifies this`fKwargs
      decreases SizeAllFrom(rs, 0), 1
      ensures Merged(r, fKwargs) == MergeAll(rs, finalJson, old(fKwargs), env.paging)
    {
      var acc := finalJson;
      var i := 0;
      while i < |rs|
        invariant 0 <= i <= |rs|
        invariant Fold(rs, 0, finalJson, old(fKwargs), env.paging) == Fold(rs, i, acc, fKwargs, env.paging)
      {
        if !rs[i].JObj? {
          return Raised(NoItemsMethod(rs[i]));
        }
        var fs := rs[i].fields;
        var j := 0;
        while j < |fs|
          invariant 0 <= j <= |fs|
          invariant Fold(rs, 0, finalJson, old(fKwargs), env.paging)
                    == AfterContributor(rs, i, MergeFields(fs, j, acc, fKwargs, env.paging), env.paging)
        {
          var step := MergeKey(rs, i, fs, j, acc);
          if step.Raised? {
            return step;
          }
          acc := step.value;
          j := j + 1;
        }
        i := i + 1;
      }
      r := PaginateFinal(acc);
    }

    /** One pass of the inner loop of merge_results: key `fs[j]` of
        contributor `rs[i]` folded into `acc`, a recursive call for a dict
        value. A raised step is the outcome of the whole key loop; a returned
        one leaves the rest of that loop to fold. */
    method MergeKey(rs: seq<Json>, i: nat, fs: Fields, j: nat, acc: Fields) returns (r: Outcome<Fields>)
      requires i < |rs| && rs[i] == JObj(fs) && j < |fs|
      modifies this`fKwargs
      decreases SizeAllFrom(rs, 0), 0
      ensures r.Raised? ==> Merged(r, fKwargs) == MergeFields(fs, j, acc, old(fKwargs), env.paging)
      ensures r.Returned? ==> MergeFields(fs, j, acc, old(fKwargs), env.paging)
                              == MergeFields(fs, j + 1, r.value, fKwargs, env.paging)
    {
      var key := fs[j].0;
      var field := fs[j].1;
      if field.JObj? {
        var cur := Lookup(acc, key);
        if cur.Some? && !cur.value.JObj? {
          return Raised(OtherError("merged value is not a dict"));
        }
        ValueSmaller(fs, j);
        ResponseWithin(rs, i, 0);
        assert SizeAllFrom([field], 0) == Size(field);
        var sub := MergeResults([field], if cur.Some? then cur.value.fields else []);
        if sub.Raised? {
          return sub;
        }
        r := Returned(Put(acc, key, JObj(sub.value)));
      } else {
        r := MergeScalar(acc, key, field);
      }
    }

    /** Sorting and slicing `data.items`, after offset and limit are written
        back into f_kwargs when absent. */
    method PageFinal(acc: Fields, d: Fields, items: seq<Json>) returns (r: Outcome<Fields>)
      modifies this`fKwargs
      ensures Merged(r, fKwargs) == Page(acc, d, items, old(fKwargs), env.paging)
    {
      if "offset" !in Keys(fKwargs) {
        fKwargs := Put(fKwargs, "offset", JInt(0));
      }
      if "limit" !in Keys(fKwargs) {
        fKwargs := Put(fKwargs, "limit", JInt(env.paging.databaseLimit));
      }
      assert fKwargs == WithPageDefaults(old(fKwargs), env.paging);
      var sorted := items;
      if "sort" in Keys(fKwargs) {
        sorted := env.paging.sortArray(sorted, Lookup(fKwargs, "sort").value);
      }
      var bounds := OffsetPlusLimit(Lookup(fKwargs, "offset").value, Lookup(fKwargs, "limit").value);
      if bounds.Raised? {
        return Raised(bounds.exc);
      }
      var page := PySlice(sorted, bounds.value.0, bounds.value.1);
      r := Returned(Put(acc, "data", JObj(Put(d, "items", JList(page)))));
    }

    /** The pagination block of merge_results on the merged answer. */
    method PaginateFinal(acc: Fields) returns (r: Outcome<Fields>)
      modifies this`fKwargs
      ensures Merged(r, fKwargs) == Paginate(acc, old(fKwargs), env.paging)
    {
      var data := Lookup(acc, "data");
      if data.None? {
        return Returned(acc);
      }
      match data.value {
        case JObj(d) =>
          var items := Lookup(d, "items");
          if items.Some? && items.value.JList? {
            r := PageFinal(acc, d, items.value.items);
          } else {
            r := Returned(acc);
          }
        case JStr(s) =>
          if IsSubstring("items", s) {
            r := Raised(OtherError("string indices must be integers"));
          } else {
            r := Returned(acc);
          }
        case JList(l) =>
          if PyIn(JStr("items"), l) {
            r := Raised(OtherError("list indices must be integers or slices, not str"));
          } else {
            r := Returned(acc);
          }
        case _ =>
          r := Raised(NotIterable(data.value));
      }
    }
  }
}
