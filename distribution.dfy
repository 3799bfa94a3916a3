/** The specification of one DistributedAPI call: distribute_function,
    execute_local_request, execute_remote_request, forward_request and its
    inner forward, as functions of the call's state and of what the call
    consults outside itself.  The methods of Dapi.DistributedApi run the same
    routing and are proved equal to these functions. */
module Distribution {
  import opened Base
  import opened JsonModel
  import opened Merge
  import opened Envelope
  import opened Routing
  import opened Solver
  import opened Marshal

  /** cluster.get_node(): the type and the name of this node. */
  datatype NodeInfo = NodeInfo(nodeType: string, name: string)

  /** What a call consults outside its object:
      - `dapiEnabled`: the cluster items' distributed_api.enabled flag;
      - `clusterDisabled`: the result of check_cluster_status();
      - `runLocal`: the run of `f(**f_kwargs)` in the executor;
      - `remote`: the master's answer to `node.execute(b'dapi', ...)` for
        the call whose to_dict() the request carries;
      - `forwardTo`: a worker's answer, read back with json.loads, to
        `node.execute(b'dapi_forward', ...)` for the call whose to_dict()
        the request carries;
      - the agent directory, the pagination collaborators and the text
        of WazuhException(3021). */
  datatype Env = Env(
    dapiEnabled: bool,
    clusterDisabled: bool,
    runLocal: (PyCallable, Kwargs) -> LocalRun,
    remote: CallRecord -> Outcome<Json>,
    forwardTo: (Json, CallRecord) -> Outcome<Json>,
    directory: Directory,
    paging: Paging,
    timeoutMessage: string)

  /** A request sent to another node about a call: to the master with the
      b'dapi' command, or to a named node with b'dapi_forward'.  What goes on
      the wire is the call's to_dict(). */
  datatype Message = ToMaster(call: CallRecord) | ToNode(target: Json, call: CallRecord)
  {
    const payload: Json := Payload(call)
  }

  /** The attributes of a DistributedAPI object that the routing reads. */
  datatype CallState = CallState(call: CallRecord, debug: bool, node: NodeInfo)

  /** What a routing step gives back, the call as the step leaves it (it may
      write f_kwargs and from_cluster) and the messages sent, in order. */
  datatype Step<T> = Step(result: T, call: CallRecord, sent: seq<Message>)

  /** Two states of one call that differ at most in f_kwargs and from_cluster. */
  predicate SameCall(a: CallRecord, b: CallRecord)
  {
    a.f == b.f && a.requestType == b.requestType && a.waitForComplete == b.waitForComplete
    && a.isAsync == b.isAsync
  }

  function RouteOf(s: CallState, env: Env): Decision
  {
    Route(env.dapiEnabled, env.clusterDisabled, s.call.requestType, s.node.nodeType, s.call.fromCluster)
  }

  /** A distributed_master call that came from the cluster: it runs locally. */
  predicate Reentrant(c: CallRecord)
  {
    c.fromCluster && c.requestType == "distributed_master"
  }

  /** The termination measure of distribute_function: a re-entrant call
      cannot forward again. */
  function Rank(c: CallRecord): nat
  {
    if Reentrant(c) then 0 else 3
  }

  /** execute_local_request: f runs with the call's keyword arguments. */
  function LocalSpec(s: CallState, env: Env): (r: Reply)
    // outside debug mode the answer is always a print_json envelope
    ensures !s.debug ==> r.Answered? && ReadEnvelope(r.body).Some?
    ensures var run := env.runLocal(s.call.f, s.call.fKwargs);
      run.outcome.Returned? && (s.call.waitForComplete || run.finishesInTime) ==>
        r.Answered? && ReadEnvelope(r.body) == Some((run.outcome.value, 0))
    ensures var run := env.runLocal(s.call.f, s.call.fKwargs);
      !s.call.waitForComplete && !run.finishesInTime && !s.debug ==>
        ReadEnvelope(r.body) == Some((JStr(env.timeoutMessage), TimeoutCode))
    ensures var run := env.runLocal(s.call.f, s.call.fKwargs);
      run.outcome.Raised? && (s.call.waitForComplete || run.finishesInTime) && !s.debug ==>
        ReadEnvelope(r.body) == Some(ErrorAnswer(run.outcome.exc))
  {
    ExecuteLocal(env.runLocal(s.call.f, s.call.fKwargs), s.call.waitForComplete, s.debug, env.timeoutMessage)
  }

  /** The payload of execute_remote_request and of a b'dapi_forward'. */
  function Payload(c: CallRecord): Json
  {
    ToWire(c)
  }

  /** distribute_function. */
  function DistributeSpec(s: CallState, env: Env): (r: Step<Reply>)
    decreases Rank(s.call), 0
    ensures SameCall(s.call, r.call)
    ensures RouteOf(s, env) == Local ==> r == Step(LocalSpec(s, env), s.call, [])
    ensures RouteOf(s, env) == Remote ==>
              r == Step(Guard(env.remote(s.call), s.debug), s.call, [ToMaster(s.call)])
    // outside debug mode no exception leaves distribute_function
    ensures !s.debug ==> r.result.Answered?
  {
    match RouteOf(s, env)
    case Local => Step(LocalSpec(s, env), s.call, [])
    case Forward =>
      var st := ForwardSpec(s, env);
      Step(Guard(st.result, s.debug), st.call, st.sent)
    case Remote =>
      Step(Guard(env.remote(s.call), s.debug), s.call, [ToMaster(s.call)])
  }

  /** The exception next(iter({}.items())) raises inside a coroutine. */
  const NoSolverNode := OtherError("coroutine raised StopIteration")

  /** forward_request. */
  function ForwardSpec(s: CallState, env: Env): (r: Step<Outcome<Json>>)
    requires s.call.requestType == "distributed_master"
    decreases 2, 0
    ensures SameCall(s.call, r.call)
    // a solver exception ends the call before anything is sent
    ensures var sol := Solve(s.call.fKwargs, env.directory, JStr(s.node.name));
      sol.0.Raised? ==> r == Step(Raised(sol.0.exc), s.call.(fKwargs := sol.1), [])
    // once the solver has answered, the call is marked as coming from the cluster
    ensures var sol := Solve(s.call.fKwargs, env.directory, JStr(s.node.name));
      sol.0.Returned? ==> r.call.fromCluster
    // an empty solver map ends in StopIteration
    ensures var sol := Solve(s.call.fKwargs, env.directory, JStr(s.node.name));
      sol.0 == Returned([]) ==>
        r == Step(Raised(NoSolverNode), s.call.(fKwargs := sol.1, fromCluster := true), [])
  {
    var (solved, kw) := Solve(s.call.fKwargs, env.directory, JStr(s.node.name));
    match solved
    case Raised(e) => Step(Raised(e), s.call.(fKwargs := kw), [])
    case Returned(nodes) =>
      var s' := s.(call := s.call.(fKwargs := kw, fromCluster := true));
      if |nodes| > 1 then
        var all := ForwardAll(s', nodes, 0, [], env);
        match all.result
        case Raised(e) => Step(Raised(e), all.call, all.sent)
        case Returned(results) =>
          var m := MergeAll(results, [], all.call.fKwargs, env.paging);
          Step(if m.out.Raised? then Raised(m.out.exc) else Returned(JObj(m.out.value)),
               all.call.(fKwargs := m.kwargs), all.sent)
      else if |nodes| == 1 then ForwardOne(s', nodes[0], env)
      else Step(Raised(NoSolverNode), s'.call, [])
  }

  /** The fan-out over the solver map from entry i on, sequentialised, with
      the answers of the entries before i in `results`; the first exception
      ends it. */
  function ForwardAll(s: CallState, nodes: SolverMap, i: nat, results: seq<Json>, env: Env)
    : (r: Step<Outcome<seq<Json>>>)
    requires i <= |nodes| && Reentrant(s.call)
    decreases 1, |nodes| - i
    ensures SameCall(s.call, r.call) && Reentrant(r.call)
    ensures r.result.Returned? ==> |r.result.value| == |results| + |nodes| - i
  {
    if i == |nodes| then Step(Returned(results), s.call, [])
    else
      var one := ForwardOne(s, nodes[i], env);
      match one.result
      case Raised(e) => Step(Raised(e), one.call, one.sent)
      case Returned(v) =>
        var rest := ForwardAll(s.(call := one.call), nodes, i + 1, results + [v], env);
        Step(rest.result, rest.call, one.sent + rest.sent)
  }

  /** The keyword arguments once forward has written agent_id for the first
      j entries of the solver map, in order. */
  function KwargsBefore(kw: Kwargs, nodes: SolverMap, j: nat): Kwargs
    requires j <= |nodes|
  {
    if j == 0 then kw else InjectAgentIds(KwargsBefore(kw, nodes, j - 1), nodes[j - 1].1)
  }

  /** The call state the fan-out started in `s0` reaches at entry j. */
  function AtEntry(s0: CallState, nodes: SolverMap, j: nat): CallState
    requires j <= |nodes|
  {
    s0.(call := s0.call.(fKwargs := KwargsBefore(s0.call.fKwargs, nodes, j)))
  }

  /** What node j of the solver map answers in a fan-out started in `s0`:
      forward(node) after the agent_id writes of the entries before it. */
  function NodeAnswer(s0: CallState, nodes: SolverMap, j: nat, env: Env): Outcome<Json>
    requires Reentrant(s0.call) && j < |nodes|
  {
    ForwardOne(AtEntry(s0, nodes, j), nodes[j], env).result
  }

  /** The answers from entry i + 1 on, with node i's answer before them. */
  lemma AnswersExtend(s0: CallState, nodes: SolverMap, i: nat, results: seq<Json>, v: Json, vs: seq<Json>, env: Env)
    requires Reentrant(s0.call) && i < |nodes|
    requires NodeAnswer(s0, nodes, i, env) == Returned(v)
    requires |vs| == |results| + |nodes| - i && vs[..|results| + 1] == results + [v]
    requires forall j {:trigger NodeAnswer(s0, nodes, j, env)} :: i + 1 <= j < |nodes| ==>
               NodeAnswer(s0, nodes, j, env) == Returned(vs[|results| + 1 + j - (i + 1)])
    ensures vs[..|results|] == results
    ensures forall j {:trigger NodeAnswer(s0, nodes, j, env)} :: i <= j < |nodes| ==>
              NodeAnswer(s0, nodes, j, env) == Returned(vs[|results| + j - i])
  {
    assert vs[..|results|] == vs[..|results| + 1][..|results|];
    assert vs[|results|] == vs[..|results| + 1][|results|];
  }

  /** One step of a fan-out that returns: node i answered, and the fan-out
      goes on from entry i + 1 with that answer added. */
  lemma FanOutOneStep(s0: CallState, nodes: SolverMap, i: nat, results: seq<Json>, env: Env)
    requires i < |nodes| && Reentrant(s0.call)
    requires ForwardAll(AtEntry(s0, nodes, i), nodes, i, results, env).result.Returned?
    ensures NodeAnswer(s0, nodes, i, env).Returned?
    ensures var all := ForwardAll(AtEntry(s0, nodes, i), nodes, i, results, env);
      var rest := ForwardAll(AtEntry(s0, nodes, i + 1), nodes, i + 1, results + [NodeAnswer(s0, nodes, i, env).value], env);
      all.result == rest.result && all.call == rest.call
  {
    var s := AtEntry(s0, nodes, i);
    var one := ForwardOne(s, nodes[i], env);
    assert s.(call := one.call) == AtEntry(s0, nodes, i + 1);
  }

  /** A fan-out that returns leaves the agent_id writes of all entries in
      f_kwargs. */
  lemma {:induction false} FanOutCall(s0: CallState, nodes: SolverMap, i: nat, results: seq<Json>, env: Env)
    requires i <= |nodes| && Reentrant(s0.call)
    requires ForwardAll(AtEntry(s0, nodes, i), nodes, i, results, env).result.Returned?
    ensures ForwardAll(AtEntry(s0, nodes, i), nodes, i, results, env).call == AtEntry(s0, nodes, |nodes|).call
    decreases |nodes| - i
  {
    if i < |nodes| {
      FanOutOneStep(s0, nodes, i, results, env);
      FanOutCall(s0, nodes, i + 1, results + [NodeAnswer(s0, nodes, i, env).value], env);
    }
  }

  /** A sequence starting with `results + [v]` starts with `results`. */
  lemma PrefixOfLonger(vs: seq<Json>, results: seq<Json>, v: Json)
    requires |results| < |vs| && vs[..|results| + 1] == results + [v]
    ensures vs[..|results|] == results
  {
    assert vs[..|results|] == vs[..|results| + 1][..|results|];
  }

  /** A fan-out that returns keeps the answers it started with, first. */
  lemma {:induction false} FanOutKeepsEarlier(s0: CallState, nodes: SolverMap, i: nat, results: seq<Json>, env: Env)
    requires i <= |nodes| && Reentrant(s0.call)
    requires ForwardAll(AtEntry(s0, nodes, i), nodes, i, results, env).result.Returned?
    ensures ForwardAll(AtEntry(s0, nodes, i), nodes, i, results, env).result.value[..|results|] == results
    decreases |nodes| - i
  {
    var all := ForwardAll(AtEntry(s0, nodes, i), nodes, i, results, env);
    if i < |nodes| {
      FanOutOneStep(s0, nodes, i, results, env);
      var v := NodeAnswer(s0, nodes, i, env).value;
      FanOutKeepsEarlier(s0, nodes, i + 1, results + [v], env);
      var vs := ForwardAll(AtEntry(s0, nodes, i + 1), nodes, i + 1, results + [v], env).result.value;
      PrefixOfLonger(vs, results, v);
      assert all.result.value == vs;
    } else {
      assert all.result == Returned(results);
    }
  }

  /** A fan-out that returns holds every node's answer, in solver-map order,
      after the answers it started with. */
  lemma {:induction false} FanOutAnswers(s0: CallState, nodes: SolverMap, i: nat, results: seq<Json>, env: Env)
    requires i <= |nodes| && Reentrant(s0.call)
    requires ForwardAll(AtEntry(s0, nodes, i), nodes, i, results, env).result.Returned?
    ensures var vs := ForwardAll(AtEntry(s0, nodes, i), nodes, i, results, env).result.value;
      forall j {:trigger NodeAnswer(s0, nodes, j, env)} :: i <= j < |nodes| ==> NodeAnswer(s0, nodes, j, env) == Returned(vs[|results| + j - i])
    decreases |nodes| - i
  {
    if i < |nodes| {
      FanOutOneStep(s0, nodes, i, results, env);
      var v := NodeAnswer(s0, nodes, i, env).value;
      FanOutAnswers(s0, nodes, i + 1, results + [v], env);
      FanOutKeepsEarlier(s0, nodes, i + 1, results + [v], env);
      var vs := ForwardAll(AtEntry(s0, nodes, i + 1), nodes, i + 1, results + [v], env).result.value;
      assert ForwardAll(AtEntry(s0, nodes, i), nodes, i, results, env).result.value == vs;
      assert |results + [v]| == |results| + 1;
      AnswersExtend(s0, nodes, i, results, v, vs, env);
    }
  }

  lemma AnsweredBefore(s0: CallState, nodes: SolverMap, i: nat, j: nat, env: Env)
    requires Reentrant(s0.call) && i < j <= |nodes| && NodeAnswer(s0, nodes, i, env).Returned?
    requires forall q {:trigger NodeAnswer(s0, nodes, q, env)} :: i + 1 <= q < j ==> NodeAnswer(s0, nodes, q, env).Returned?
    ensures forall q {:trigger NodeAnswer(s0, nodes, q, env)} :: i <= q < j ==> NodeAnswer(s0, nodes, q, env).Returned?
  {
  }

  /** A fan-out that raises raises the exception of the first node that
      raises; every node before it answered. */
  lemma {:induction false} FanOutStopsAtFirstError(s0: CallState, nodes: SolverMap, i: nat, results: seq<Json>, env: Env)
    returns (j: nat)
    requires i <= |nodes| && Reentrant(s0.call)
    requires ForwardAll(AtEntry(s0, nodes, i), nodes, i, results, env).result.Raised?
    ensures i <= j < |nodes|
    ensures NodeAnswer(s0, nodes, j, env) == Raised(ForwardAll(AtEntry(s0, nodes, i), nodes, i, results, env).result.exc)
    ensures forall q {:trigger NodeAnswer(s0, nodes, q, env)} :: i <= q < j ==> NodeAnswer(s0, nodes, q, env).Returned?
    decreases |nodes| - i
  {
    FanOutUnfold(s0, nodes, i, results, env);
    if NodeAnswer(s0, nodes, i, env).Raised? {
      j := i;
    } else {
      j := FanOutStopsAtFirstError(s0, nodes, i + 1, results + [NodeAnswer(s0, nodes, i, env).value], env);
      AnsweredBefore(s0, nodes, i, j, env);
    }
  }

  /** The first step of a fan-out: node i's exception ends it, node i's
      answer carries it on to entry i + 1. */
  lemma FanOutUnfold(s0: CallState, nodes: SolverMap, i: nat, results: seq<Json>, env: Env)
    requires i < |nodes| && Reentrant(s0.call)
    ensures var all := ForwardAll(AtEntry(s0, nodes, i), nodes, i, results, env);
      NodeAnswer(s0, nodes, i, env).Raised? ==> all.result == Raised(NodeAnswer(s0, nodes, i, env).exc)
    ensures var all := ForwardAll(AtEntry(s0, nodes, i), nodes, i, results, env);
      NodeAnswer(s0, nodes, i, env).Returned? ==>
        all.result == ForwardAll(AtEntry(s0, nodes, i + 1), nodes, i + 1, results + [NodeAnswer(s0, nodes, i, env).value], env).result
  {
    var s := AtEntry(s0, nodes, i);
    var one := ForwardOne(s, nodes[i], env);
    assert s.(call := one.call) == AtEntry(s0, nodes, i + 1);
  }

  /** One entry of the fan-out, in the form the loop of
      Dapi.DistributedApi.FanOut keeps: `total` is the whole fan-out, of which
      the messages up to `sentBefore` (after `prefix`) are already sent. */
  lemma FanOutStep(total: Step<Outcome<seq<Json>>>, prefix: seq<Message>, sentBefore: seq<Message>,
                   s: CallState, nodes: SolverMap, i: nat, results: seq<Json>, env: Env)
    requires i < |nodes| && Reentrant(s.call)
    requires var rest := ForwardAll(s, nodes, i, results, env);
      total.result == rest.result && total.call == rest.call && prefix + total.sent == sentBefore + rest.sent
    ensures var one := ForwardOne(s, nodes[i], env);
      one.result.Raised? ==>
        total.result == Raised(one.result.exc) && total.call == one.call
        && prefix + total.sent == sentBefore + one.sent
    ensures var one := ForwardOne(s, nodes[i], env);
      one.result.Returned? ==>
        var rest := ForwardAll(s.(call := one.call), nodes, i + 1, results + [one.result.value], env);
        total.result == rest.result && total.call == rest.call
        && prefix + total.sent == (sentBefore + one.sent) + rest.sent
  {
    var one := ForwardOne(s, nodes[i], env);
    if one.result.Returned? {
      var rest := ForwardAll(s.(call := one.call), nodes, i + 1, results + [one.result.value], env);
      assert sentBefore + (one.sent + rest.sent) == (sentBefore + one.sent) + rest.sent;
    }
  }

  /** The agent_id write at the head of forward: a non-empty bucket replaces
      agent_id when it is absent or a list, and nothing changes otherwise. */
  function InjectAgentIds(kw: Kwargs, ids: seq<Json>): (r: Kwargs)
    ensures (ids != [] && (Lookup(kw, "agent_id").None? || Lookup(kw, "agent_id").value.JList?))
            ==> Lookup(r, "agent_id") == Some(JList(ids))
    ensures !(ids != [] && (Lookup(kw, "agent_id").None? || Lookup(kw, "agent_id").value.JList?))
            ==> r == kw
    ensures forall k :: k != "agent_id" ==> Lookup(r, k) == Lookup(kw, k)
  {
    if ids != [] && ("agent_id" !in Keys(kw) || Lookup(kw, "agent_id").value.JList?) then
      Put(kw, "agent_id", JList(ids))
    else kw
  }

  /** The targets forward runs on this node itself. */
  predicate IsLocalTarget(n: Json, self: NodeInfo)
  {
    n == JStr("unknown") || n == JStr("") || n == JStr(self.name)
  }

  /** forward(node): one entry of the solver map. */
  function ForwardOne(s: CallState, target: (Json, seq<Json>), env: Env): (r: Step<Outcome<Json>>)
    requires Reentrant(s.call)
    decreases 1, 0
    ensures r.call == s.call.(fKwargs := InjectAgentIds(s.call.fKwargs, target.1))
    ensures IsLocalTarget(target.0, s.node) ==> r.sent == []
    ensures !IsLocalTarget(target.0, s.node) ==>
              r == Step(env.forwardTo(target.0, r.call), r.call, [ToNode(target.0, r.call)])
  {
    var c := s.call.(fKwargs := InjectAgentIds(s.call.fKwargs, target.1));
    if IsLocalTarget(target.0, s.node) then
      var st := DistributeSpec(s.(call := c), env);
      Step(if st.result.Answered? then Returned(st.result.body) else Raised(st.result.exc), st.call, st.sent)
    else
      Step(env.forwardTo(target.0, c), c, [ToNode(target.0, c)])
  }

  // ---------------------------------------------------------------- properties

  /** A payload that says the call comes from the cluster. */
  predicate FromCluster(p: Json)
  {
    p.JObj? && Lookup(p.fields, "from_cluster") == Some(JBool(true))
  }

  /** A message forward may send: to a node of the solver map that is not
      this node, with from_cluster already set. */
  predicate SentElsewhere(m: Message, nodes: SolverMap, self: NodeInfo)
  {
    && m.ToNode?
    && !IsLocalTarget(m.target, self)
    && FromCluster(m.payload)
    && exists j :: 0 <= j < |nodes| && nodes[j].0 == m.target
  }

  lemma {:induction false} FanOutSendsElsewhere(s: CallState, nodes: SolverMap, i: nat, results: seq<Json>, env: Env)
    requires i <= |nodes| && Reentrant(s.call)
    ensures forall m :: m in ForwardAll(s, nodes, i, results, env).sent ==> SentElsewhere(m, nodes, s.node)
    decreases |nodes| - i
  {
    if i < |nodes| {
      var one := ForwardOne(s, nodes[i], env);
      if one.result.Returned? {
        FanOutSendsElsewhere(s.(call := one.call), nodes, i + 1, results + [one.result.value], env);
      }
    }
  }

  /** Everything forward_request sends goes out with b'dapi_forward', to a
      node of the solver map other than 'unknown', '' and this node, and
      says from_cluster: True; forward_request never sends b'dapi'. */
  lemma ForwardsOnlyElsewhere(s: CallState, env: Env)
    requires s.call.requestType == "distributed_master"
    ensures var nodes := Solve(s.call.fKwargs, env.directory, JStr(s.node.name)).0;
      forall m :: m in ForwardSpec(s, env).sent ==>
        nodes.Returned? && SentElsewhere(m, nodes.value, s.node)
  {
    var (solved, kw) := Solve(s.call.fKwargs, env.directory, JStr(s.node.name));
    if solved.Returned? {
      var s' := s.(call := s.call.(fKwargs := kw, fromCluster := true));
      var nodes := solved.value;
      if |nodes| > 1 {
        FanOutSendsElsewhere(s', nodes, 0, [], env);
      } else if |nodes| == 1 {
        OneSendsElsewhere(s', nodes, 0, env);
      }
    }
  }

  /** forward(node) sends at most one message, to that node when it is not
      this node, with from_cluster set. */
  lemma OneSendsElsewhere(s: CallState, nodes: SolverMap, i: nat, env: Env)
    requires i < |nodes| && Reentrant(s.call)
    ensures forall m :: m in ForwardOne(s, nodes[i], env).sent ==> SentElsewhere(m, nodes, s.node)
  {
    var one := ForwardOne(s, nodes[i], env);
    if !IsLocalTarget(nodes[i].0, s.node) {
      assert one.sent == [ToNode(nodes[i].0, one.call)];
      assert FromCluster(Payload(one.call));
    }
  }

  /** Only a master forwards: on any other node a call sends nothing, or the
      single b'dapi' request of execute_remote_request. */
  lemma OnlyTheMasterForwards(s: CallState, env: Env)
    requires s.node.nodeType != "master" || s.call.fromCluster
    ensures var r := DistributeSpec(s, env);
      r.sent == [] || r.sent == [ToMaster(s.call)]
  {
    assert RouteOf(s, env) != Forward;
  }

  /** A target named 'unknown', '' or after this node runs here, through a
      re-entry of distribute_function that can only take the local branch
      (from_cluster is already True), with agent_id written first. */
  lemma LocalTargetsRunHere(s: CallState, target: (Json, seq<Json>), env: Env)
    requires Reentrant(s.call) && IsLocalTarget(target.0, s.node)
    ensures var c := s.call.(fKwargs := InjectAgentIds(s.call.fKwargs, target.1));
      var local := LocalSpec(s.(call := c), env);
      ForwardOne(s, target, env)
        == Step(if local.Answered? then Returned(local.body) else Raised(local.exc), c, [])
  {
    var c := s.call.(fKwargs := InjectAgentIds(s.call.fKwargs, target.1));
    assert RouteOf(s.(call := c), env) == Local;
  }

  /** With one solver node the node's answer is the answer: nothing is
      merged, and pagination does not touch f_kwargs.  A remote node answers
      through b'dapi_forward'; this node answers with its local run. */
  lemma SingleNodeIsNotMerged(s: CallState, env: Env, n: Json, ids: seq<Json>)
    requires s.call.requestType == "distributed_master"
    requires Solve(s.call.fKwargs, env.directory, JStr(s.node.name)).0 == Returned([(n, ids)])
    ensures var kw := Solve(s.call.fKwargs, env.directory, JStr(s.node.name)).1;
      var c := s.call.(fKwargs := InjectAgentIds(kw, ids), fromCluster := true);
      !IsLocalTarget(n, s.node) ==>
        ForwardSpec(s, env) == Step(env.forwardTo(n, c), c, [ToNode(n, c)])
    ensures var kw := Solve(s.call.fKwargs, env.directory, JStr(s.node.name)).1;
      var c := s.call.(fKwargs := InjectAgentIds(kw, ids), fromCluster := true);
      var local := LocalSpec(s.(call := c), env);
      IsLocalTarget(n, s.node) ==>
        ForwardSpec(s, env) == Step(if local.Answered? then Returned(local.body) else Raised(local.exc), c, [])
  {
    var kw := Solve(s.call.fKwargs, env.directory, JStr(s.node.name)).1;
    var s' := s.(call := s.call.(fKwargs := kw, fromCluster := true));
    if IsLocalTarget(n, s.node) {
      LocalTargetsRunHere(s', (n, ids), env);
    }
  }

  /** When every node answers, the fan-out returns their answers. */
  lemma AllNodesAnswer(s0: CallState, nodes: SolverMap, env: Env)
    requires Reentrant(s0.call)
    requires forall j {:trigger NodeAnswer(s0, nodes, j, env)} :: 0 <= j < |nodes| ==> NodeAnswer(s0, nodes, j, env).Returned?
    ensures var all := ForwardAll(s0, nodes, 0, [], env);
      && all.result.Returned? && |all.result.value| == |nodes|
      && all.call.fKwargs == KwargsBefore(s0.call.fKwargs, nodes, |nodes|)
      && forall j {:trigger NodeAnswer(s0, nodes, j, env)} :: 0 <= j < |nodes| ==>
           NodeAnswer(s0, nodes, j, env) == Returned(all.result.value[j])
  {
    assert AtEntry(s0, nodes, 0) == s0;
    if ForwardAll(s0, nodes, 0, [], env).result.Raised? {
      var k := FanOutStopsAtFirstError(s0, nodes, 0, [], env);
      assert false;
    }
    FanOutAnswers(s0, nodes, 0, [], env);
    FanOutCall(s0, nodes, 0, [], env);
  }

  /** When node j raises and every node before it answers, the fan-out
      raises node j's exception. */
  lemma FirstErrorOfFanOut(s0: CallState, nodes: SolverMap, j: nat, env: Env)
    requires Reentrant(s0.call) && j < |nodes| && NodeAnswer(s0, nodes, j, env).Raised?
    requires forall q {:trigger NodeAnswer(s0, nodes, q, env)} :: 0 <= q < j ==> NodeAnswer(s0, nodes, q, env).Returned?
    ensures ForwardAll(s0, nodes, 0, [], env).result == Raised(NodeAnswer(s0, nodes, j, env).exc)
  {
    assert AtEntry(s0, nodes, 0) == s0;
    if ForwardAll(s0, nodes, 0, [], env).result.Returned? {
      FanOutAnswers(s0, nodes, 0, [], env);
      assert false;
    }
    var k := FanOutStopsAtFirstError(s0, nodes, 0, [], env);
    if k != j {
      assert false;
    }
  }

  /** With more than one solver node every node is asked, in solver-map
      order, after the agent_id writes of the entries before it; when all of
      them answer, the answers are merged by merge_results with the
      f_kwargs the fan-out leaves, and merge_results' f_kwargs are kept. */
  lemma SeveralNodesAreMerged(s: CallState, env: Env)
    requires s.call.requestType == "distributed_master"
    requires var (sol, kw) := Solve(s.call.fKwargs, env.directory, JStr(s.node.name));
      var s' := s.(call := s.call.(fKwargs := kw, fromCluster := true));
      && sol.Returned? && |sol.value| > 1
      && forall j {:trigger NodeAnswer(s', sol.value, j, env)} :: 0 <= j < |sol.value| ==> NodeAnswer(s', sol.value, j, env).Returned?
    ensures var (sol, kw) := Solve(s.call.fKwargs, env.directory, JStr(s.node.name));
      var nodes := sol.value;
      var s' := s.(call := s.call.(fKwargs := kw, fromCluster := true));
      var r := ForwardSpec(s, env);
      exists rs: seq<Json> ::
        && |rs| == |nodes|
        && (forall j {:trigger NodeAnswer(s', nodes, j, env)} :: 0 <= j < |nodes| ==> NodeAnswer(s', nodes, j, env) == Returned(rs[j]))
        && var m := MergeAll(rs, [], KwargsBefore(kw, nodes, |nodes|), env.paging);
           && r.result == (if m.out.Raised? then Raised(m.out.exc) else Returned(JObj(m.out.value)))
           && r.call.fKwargs == m.kwargs
  {
    var (sol, kw) := Solve(s.call.fKwargs, env.directory, JStr(s.node.name));
    var nodes := sol.value;
    var s' := s.(call := s.call.(fKwargs := kw, fromCluster := true));
    AllNodesAnswer(s', nodes, env);
    var rs := ForwardAll(s', nodes, 0, [], env).result.value;
    MergedReply(s, env);
    assert forall j {:trigger NodeAnswer(s', nodes, j, env)} :: 0 <= j < |nodes| ==> NodeAnswer(s', nodes, j, env) == Returned(rs[j]);
  }

  /** The reply of a fan-out whose nodes all answered is merge_results of
      the answers. */
  lemma MergedReply(s: CallState, env: Env)
    requires s.call.requestType == "distributed_master"
    requires var (sol, kw) := Solve(s.call.fKwargs, env.directory, JStr(s.node.name));
      var s' := s.(call := s.call.(fKwargs := kw, fromCluster := true));
      sol.Returned? && |sol.value| > 1 && ForwardAll(s', sol.value, 0, [], env).result.Returned?
    ensures var (sol, kw) := Solve(s.call.fKwargs, env.directory, JStr(s.node.name));
      var s' := s.(call := s.call.(fKwargs := kw, fromCluster := true));
      var all := ForwardAll(s', sol.value, 0, [], env);
      var m := MergeAll(all.result.value, [], all.call.fKwargs, env.paging);
      && ForwardSpec(s, env).result == (if m.out.Raised? then Raised(m.out.exc) else Returned(JObj(m.out.value)))
      && ForwardSpec(s, env).call.fKwargs == m.kwargs
  {
  }

  /** With more than one solver node, the first node that raises ends the
      call with its exception; the merge is not reached. */
  lemma FirstFailingNodeDecides(s: CallState, env: Env, j: nat)
    requires s.call.requestType == "distributed_master"
    requires var (sol, kw) := Solve(s.call.fKwargs, env.directory, JStr(s.node.name));
      var s' := s.(call := s.call.(fKwargs := kw, fromCluster := true));
      && sol.Returned? && |sol.value| > 1 && j < |sol.value|
      && NodeAnswer(s', sol.value, j, env).Raised?
      && forall q {:trigger NodeAnswer(s', sol.value, q, env)} :: 0 <= q < j ==> NodeAnswer(s', sol.value, q, env).Returned?
    ensures var (sol, kw) := Solve(s.call.fKwargs, env.directory, JStr(s.node.name));
      var s' := s.(call := s.call.(fKwargs := kw, fromCluster := true));
      ForwardSpec(s, env).result == NodeAnswer(s', sol.value, j, env)
  {
    var (sol, kw) := Solve(s.call.fKwargs, env.directory, JStr(s.node.name));
    var nodes := sol.value;
    var s' := s.(call := s.call.(fKwargs := kw, fromCluster := true));
    FirstErrorOfFanOut(s', nodes, j, env);
  }

  /** A node_id request goes to that node without its node_id argument. */
  lemma NodeIdIsNotForwarded(s: CallState, env: Env)
    requires s.call.requestType == "distributed_master"
    requires "agent_id" !in Keys(s.call.fKwargs) && "node_id" in Keys(s.call.fKwargs)
    requires Hashable(Lookup(s.call.fKwargs, "node_id").value)
    requires !IsLocalTarget(Lookup(s.call.fKwargs, "node_id").value, s.node)
    ensures var n := Lookup(s.call.fKwargs, "node_id").value;
      var r := ForwardSpec(s, env);
      |r.sent| == 1 && r.sent[0].ToNode? && r.sent[0].target == n
      && Lookup(Lookup(r.sent[0].payload.fields, "f_kwargs").value.fields, "node_id") == None
  {
    var n := Lookup(s.call.fKwargs, "node_id").value;
    var kw := Remove(s.call.fKwargs, "node_id");
    assert InjectAgentIds(kw, []) == kw;
    SingleNodeIsNotMerged(s, env, n, []);
  }

  /** A node_id that is a list or a dict cannot key the solver map: the call
      is answered with that TypeError, nothing is sent, and node_id stays
      deleted from f_kwargs. */
  lemma UnhashableNodeIdIsRefused(s: CallState, env: Env)
    requires s.call.requestType == "distributed_master"
    requires "agent_id" !in Keys(s.call.fKwargs) && "node_id" in Keys(s.call.fKwargs)
    requires !Hashable(Lookup(s.call.fKwargs, "node_id").value)
    ensures var r := ForwardSpec(s, env);
      && r.result == Raised(Unhashable(Lookup(s.call.fKwargs, "node_id").value))
      && r.sent == []
      && r.call.fKwargs == Remove(s.call.fKwargs, "node_id")
  {
  }
}
