# Wazuh distributed API: routing, forwarding, merging and the request queue

This project models the core of the distributed API of the Wazuh cluster,
`framework/wazuh/cluster/dapi/dapi.py`, in Dafny, and proves properties of
the model. It also models the engine's `base::EventHandler`.

A `DistributedAPI` object holds one API call: the function `f`, its keyword
arguments `f_kwargs`, a request type and three flags. `distribute_function`
chooses one of three ways to answer the call:

- run it on this node (`execute_local_request`);
- forward it, as the master, to the node or nodes that hold the data
  (`forward_request`, which finds the nodes with `get_solver_node` and
  merges several answers with `merge_results`);
- send it to the master (`execute_remote_request`).

A local run is answered with the envelope `print_json` writes,
`{data|message, error}`, and so is every exception `distribute_function`
catches. An exception becomes an error code in the envelope: a
WazuhException gives its own code, an overrun of the API timeout gives
3021, and any other exception gives 1000. In debug mode the exception is
re-raised instead. The master's answer to a remote call and a worker's
answer to a forward are passed through as they come. With more than one
solver node, the answer is the dict `merge_results` builds from the node
answers.

On the master, the `APIRequestQueue` takes entries of the form
`<peer>[*<suffix>] <request>`. For each entry it rebuilds the call from
`to_dict`'s JSON. The functions travel as `__callable__` records
(`CallableEncoder.default` and `as_callable`). The queue then routes the
call, answers the peer, and sends a `dapi_res` or `dapi_err` follow-up.

How the model is laid out:

- `base.dfy` (module `Base`): Python dicts as association lists in
  insertion order, exceptions, and outcomes.
- `json.dfy` (`JsonModel`): JSON values, Python's `==` on them (where
  `True == 1`), and a size measure.
- `routing.dfy` (`Routing`): the three-way choice of `distribute_function`.
- `envelope.dfy` (`Envelope`): `print_json`, the exception-to-code
  mapping, and `execute_local_request`.
- `solver.dfy` (`Solver`): `get_solver_node`.
- `merge.dfy` (`Merge`): `merge_results` and its pagination, as
  functions.
- `merge_laws.dfy` (`MergeLaws`): the merge rules proved over any
  number of dict answers. A law about one key holds whenever the merge
  returns, whatever else the answers hold.
- `marshal.dfy` (`Marshal`): `CallableEncoder.default`, `as_callable`,
  and `to_dict` read back as constructor keywords.
- `distribution.dfy` (`Distribution`): `distribute_function`,
  `forward_request` and `forward`, as mutually recursive functions of the
  call's state.
- `dapi.dfy` (`Dapi`): the class `DistributedApi`. It has the source's
  attributes, and its methods change `f_kwargs` and `from_cluster` in
  place. Each method is proved equal to the function that specifies it.
- `queue.dfy` (`RequestQueue`): the parsing of queue entries, the class
  `ApiRequestQueue` with `add_request` and `run`, and the follow-up.
- `event_handler.dfy` (`EventHandling`): `base::EventHandler`.

What the model takes as inputs, because it cannot see them:

- the agent directory (`Solver.Directory`);
- the run of `f` and whether it finishes before the timeout
  (`Envelope.LocalRun`);
- the answers of other nodes;
- `utils.sort_array` and `common.database_limit` (`Merge.Paging`);
- the cluster flags;
- `json.loads` of the queue entries;
- the `task_id` that `send_string` answers with;
- the modules and Wazuh objects that `as_callable` can reach
  (`Marshal.Registry`).

The sequence `sent` of the `DistributedApi` object records what the call
sends to other nodes. The sequence `outbox` of the queue records what the
queue sends. The laws about `run` are stated for any way of serving one
entry (`RequestQueue.Serve`); the queue itself serves with `ServeSpec`
(`RequestQueue.Serving`).

## Model

| member | source | states |
|---|---|---|
| Base.Put | framework/wazuh/cluster/dapi/dapi.py:173 | `d[k] = v` on a dict: k then maps to v, every other key keeps its value, and a new key is added at the end (insertion order) |
| Base.Remove | framework/wazuh/cluster/dapi/dapi.py:234 | `del d[k]`: k is gone, every other key keeps its value |
| Base.PutKeepsDistinct | framework/wazuh/cluster/dapi/dapi.py:212-222 | `d[k] = v` never makes a key appear twice, so what the solver builds with it is a dict |
| JsonModel.AsPyInt | framework/wazuh/cluster/dapi/dapi.py:275-276 | the int that `+=` and `<` see: an int's own value, 1 or 0 for a bool, none for any other kind |
| JsonModel.PyEqReflexive | framework/wazuh/cluster/dapi/dapi.py:269 | every value equals itself under Python's `==`, so a value already in the list is always found |
| JsonModel.PyEqByKind | framework/wazuh/cluster/dapi/dapi.py:269 | what `==` means per kind: ints and bools compare by int value and equal no other kind; strings and None equal only themselves; a list equals only a list of the same length and a dict only a dict with the same keys |
| Solver.FirstUnhashable | framework/wazuh/cluster/dapi/dapi.py:216 | the position of the first list or dict, which `set()` cannot hold, and none exactly when every element is hashable |
| Routing.Route | framework/wazuh/cluster/dapi/dapi.py:62-77 | the branch is local exactly when one of the five local conditions holds; otherwise it is forward exactly for distributed_master on a master; otherwise it is remote. Only a master forwards, and only a call not already from the cluster. A distributed_master call from the cluster always runs locally. A type other than the three known ones goes remote, and so does local_master on a worker |
| Envelope.PrintJson | framework/wazuh/cluster/dapi/dapi.py:87-96 | exactly two keys: `data` when error is 0 and `message` otherwise, plus `error`; the payload and the code are stored under them |
| Envelope.ReadEnvelope | framework/wazuh/cluster/dapi/dapi.py:94 | the inverse of print_json: whatever it reads is an envelope print_json writes |
| Envelope.EnvelopeRoundTrip | framework/wazuh/cluster/dapi/dapi.py:94 | reading back the envelope of (data, error) gives (data, error) |
| Envelope.ErrorAnswer | framework/wazuh/cluster/dapi/dapi.py:78-85 | a WazuhException is answered with its own message and code; any other exception with its text and 1000 |
| Envelope.Catch | framework/wazuh/cluster/dapi/dapi.py:128-137 | a value is wrapped with error 0; an exception is re-raised in debug mode and otherwise answered with its code |
| Envelope.ExecuteLocal | framework/wazuh/cluster/dapi/dapi.py:98-137 | outside debug mode the answer is always an envelope. Without wait_for_complete, a run past the timeout is answered with code 3021 under `message`. With wait_for_complete the deadline never applies. A run that returns in time is answered with error 0 |
| Envelope.Guard | framework/wazuh/cluster/dapi/dapi.py:66-85 | the except clauses of distribute_function: the branch's answer passes through unchanged; an exception is re-raised in debug mode and otherwise answered with its code |
| Solver.GroupFrom | framework/wazuh/cluster/dapi/dapi.py:212-213 | the dict comprehension over groupby from record i on returns exactly when every node name from record i on is hashable. Then its keys are the ones it started with plus the nodes of those records, no key repeats, every new key is hashable, and a node not among those records keeps its entry |
| Solver.GroupByNode | framework/wazuh/cluster/dapi/dapi.py:212-213 | the groupby dictionary is built exactly when no node name is a list or a dict; its keys are then exactly the node names of the directory's records, each once |
| Solver.GroupFromRaises | framework/wazuh/cluster/dapi/dapi.py:212-213 | from record i on, the first record whose node name is a list or a dict makes the comprehension raise `unhashable type` for that name |
| Solver.GroupByNodeRaises | framework/wazuh/cluster/dapi/dapi.py:212-213 | the whole comprehension raises `unhashable type` for the first node name that is a list or a dict |
| Solver.GroupedIdsBelong | framework/wazuh/cluster/dapi/dapi.py:212-213 | an id grouped under a node was already there or comes from a record of that node |
| Solver.IdsGoToTheirNode | framework/wazuh/cluster/dapi/dapi.py:212-213 | every id in a node's list belongs to a record of that node: nothing is put under the wrong node |
| Solver.ContiguousGroupingKeepsEveryId | framework/wazuh/cluster/dapi/dapi.py:212-213 | when each node's agents are listed consecutively, every node maps to all of its agents' ids, in directory order |
| Solver.SplitRunOverwrites | framework/wazuh/cluster/dapi/dapi.py:209-213 | groupby groups consecutive runs only: for records 001 on a, 002 on b and 003 on a, node a keeps only 003 |
| Solver.MissingIdsErrors | framework/wazuh/cluster/dapi/dapi.py:216-217 | the set difference succeeds exactly when both lists hold only hashable values; otherwise it raises `unhashable type` for the first list or dict of the requested ids, then of the found ids, as `set()` does |
| Solver.MissingIdsMembership | framework/wazuh/cluster/dapi/dapi.py:216-217 | an id is listed as missing exactly when it was requested and the directory did not return it (up to Python's `==`) |
| Solver.IdsOf | framework/wazuh/cluster/dapi/dapi.py:217 | `map(itemgetter('id'), agents)`: one id per record, in order |
| Solver.AddToOwnBucket | framework/wazuh/cluster/dapi/dapi.py:218-222 | the missing ids are appended to this node's bucket when it has one, and become a new bucket otherwise; no other node changes |
| Solver.Emptied | framework/wazuh/cluster/dapi/dapi.py:241 | every node of the grouping, each with an empty id list |
| Solver.SolveListTargets | framework/wazuh/cluster/dapi/dapi.py:206-224 | for a list agent_id, the map is built exactly when the overview, the grouping and the set difference all succeed. An overview error passes through, then a grouping error. Otherwise the keys are the nodes of the records, plus this node when some id is missing, each once |
| Solver.SolveOneTarget | framework/wazuh/cluster/dapi/dapi.py:225-230 | for a scalar agent_id, the map is `{node: [id]}` for the node get_agent names, exactly when get_agent answers with a hashable name. Its error passes through, and a list or dict name raises `unhashable type` |
| Solver.SolveAllTargets | framework/wazuh/cluster/dapi/dapi.py:237-242 | with neither agent_id nor node_id, the map is built exactly when the overview and the grouping succeed, and their errors pass through. Its keys are then exactly the nodes of the directory's records, each once and with no ids |
| Solver.Solve | framework/wazuh/cluster/dapi/dapi.py:198-242 | the four branches of get_solver_node. A list agent_id is grouped by node; a scalar agent_id gives `{node: [id]}`. node_id is deleted from f_kwargs, then gives `{node_id: []}`, or `unhashable type` for a list or dict. Otherwise every node gets `[]` |
| Solver.SolverMapIsADict | framework/wazuh/cluster/dapi/dapi.py:198-242 | every solver map is a dict without repeated keys, so its length is the number of target nodes; every key is hashable, except possibly `self`, the name of this node that the caller passes in (forward_request passes a string) |
| Solver.RequestedIdsAreRouted | framework/wazuh/cluster/dapi/dapi.py:206-224 | for a list of ids, every requested id the directory does not know ends up in this node's bucket, after the ids already there; no other node's bucket changes |
| Solver.MissingGoToOwnBucket | framework/wazuh/cluster/dapi/dapi.py:218-222 | when every requested id is found or missing, adding the missing ids (if any) to this node's bucket leaves every other bucket alone, keeps this bucket's ids first, and gives each unfound id a place in it |
| Solver.EmptiedKeys | framework/wazuh/cluster/dapi/dapi.py:241 | emptying the buckets keeps the same nodes |
| Merge.MergeScalar | framework/wazuh/cluster/dapi/dapi.py:267-285 | one non-dict value merged into the accumulator: a new key takes the value as it is; an existing key changes at most that key |
| Merge.NewElements | framework/wazuh/cluster/dapi/dapi.py:269 | the list comprehension adds no more elements than the contributor has |
| Merge.SliceBound | framework/wazuh/cluster/dapi/dapi.py:299 | Python's normalisation of a slice bound: it lies within the list, and a bound already inside is kept |
| Merge.PySlice | framework/wazuh/cluster/dapi/dapi.py:299 | `items[offset:offset+limit]`: never longer than the list, only its elements, and the plain slice when both bounds lie within it |
| Merge.WithPageDefaults | framework/wazuh/cluster/dapi/dapi.py:288-291 | after the defaults, f_kwargs holds both offset and limit |
| Merge.OffsetPlusLimit | framework/wazuh/cluster/dapi/dapi.py:299 | `offset + limit` as a slice bound: defined exactly when both are ints or bools, and then the bounds are offset and offset plus limit |
| Merge.NoItemsList | framework/wazuh/cluster/dapi/dapi.py:287 | when `data.items` is not a list, f_kwargs is untouched and the answer, if returned, is the merged one unchanged |
| Merge.Page | framework/wazuh/cluster/dapi/dapi.py:288-299 | offset and limit are in f_kwargs afterwards and no other value there changes; only `data.items` of the answer is replaced |
| Merge.Paginate | framework/wazuh/cluster/dapi/dapi.py:287-299 | pagination keeps the answer's keys and every value except `data`, and inside `data` keeps everything but `items`; f_kwargs only gains offset and limit |
| Merge.MergeAll | framework/wazuh/cluster/dapi/dapi.py:244-301 | the merged dict has every key the initial dict had, and f_kwargs keeps its values, gaining at most offset and limit |
| Merge.Fold | framework/wazuh/cluster/dapi/dapi.py:262 | the outer loop from a contributor on keeps every key of the accumulator and every value of f_kwargs but offset and limit |
| Merge.MergeFields | framework/wazuh/cluster/dapi/dapi.py:263-285 | the inner loop from a key on keeps every key of the accumulator and every value of f_kwargs but offset and limit |
| MergeLaws.NewElementsAreNew | framework/wazuh/cluster/dapi/dapi.py:269 | the elements added are the contributor's own elements that the accumulated list does not hold, never more than it has, and every contributor element is either added or already there |
| MergeLaws.NewElementsOfOne | framework/wazuh/cluster/dapi/dapi.py:269 | one element is added exactly when the list does not hold it yet |
| MergeLaws.NewElementsOfConcat | framework/wazuh/cluster/dapi/dapi.py:269 | the filter goes element by element: what two pieces of a contributor add is what the first adds followed by what the second adds; with NewElementsOfOne this fixes the order and the repeats of what is appended as the contributor's |
| MergeLaws.ListMergeAppendsNew | framework/wazuh/cluster/dapi/dapi.py:267-269 | a list merged into an existing list becomes that list followed by the contributor's new elements in the contributor's order (NewElements); the existing elements stay first and in place, and afterwards every contributor element is present |
| MergeLaws.OwnDuplicatesSurvive | framework/wazuh/cluster/dapi/dapi.py:269 | the dedup compares against the list as it was before the extend, so repeats inside one contributor survive |
| MergeLaws.IntEqualToBoolIsNotAdded | framework/wazuh/cluster/dapi/dapi.py:269 | `1 in [True]` holds in Python, so an int equal to a bool already present is not added |
| MergeLaws.ListsMergeInFirstSeenOrder | framework/wazuh/cluster/dapi/dapi.py:262-271 | `[A, B]` then `[B, C]` under one key merge to `[A, B, C]` |
| MergeLaws.Contributors | framework/wazuh/cluster/dapi/dapi.py:262 | one single-key contributor `{k: n}` per value, in order |
| MergeLaws.SingleKeyMerge | framework/wazuh/cluster/dapi/dapi.py:262-279 | merging single-key answers `{k: n}` gives exactly `{k: the int rule folded over the values}` |
| MergeLaws.IntKeyMerge | framework/wazuh/cluster/dapi/dapi.py:262-279 | for dict answers that each hold an int under k (and anything else besides), the merged value under k is the int rule folded over those ints in answer order |
| MergeLaws.TotalsAreSummed | framework/wazuh/cluster/dapi/dapi.py:274-275 | the int rule for totalItems sums |
| MergeLaws.ErrorsKeepMaximum | framework/wazuh/cluster/dapi/dapi.py:276-277 | the int rule for error keeps the maximum, which is one of the values seen |
| MergeLaws.OtherIntsKeepFirst | framework/wazuh/cluster/dapi/dapi.py:272-279 | for any other int key the first value stays |
| MergeLaws.MergeFieldsKeepsOthers | framework/wazuh/cluster/dapi/dapi.py:263-285 | the inner loop leaves every key alone that the remaining entries of the answer do not have |
| MergeLaws.MergeFieldsIntKey | framework/wazuh/cluster/dapi/dapi.py:272-279 | an answer whose only entry under k is an int moves the accumulated int under k by the int rule, whatever else the answer holds |
| MergeLaws.TotalItemsSum | framework/wazuh/cluster/dapi/dapi.py:274-275 | for dict answers holding an int totalItems, the merged totalItems is the sum over all answers |
| MergeLaws.ErrorKeepsMax | framework/wazuh/cluster/dapi/dapi.py:276-277 | for dict answers holding an int error, such as `{data, error}` envelopes, the merged error is at least every answer's error and equals one of them |
| MergeLaws.OtherIntKeepsFirst | framework/wazuh/cluster/dapi/dapi.py:272-279 | for dict answers holding an int under any other key, the first answer's value stays |
| MergeLaws.NestedIntKeyMerge | framework/wazuh/cluster/dapi/dapi.py:265-279 | for answers holding a dict under k that holds an int under k2, the recursive merge folds the int rule for k2 over those ints |
| MergeLaws.DataTotalItemsSum | framework/wazuh/cluster/dapi/dapi.py:265-275 | for answers holding an int under `data.totalItems`, the merged `data.totalItems` is the sum over all answers |
| MergeLaws.BoolIsNotSummed | framework/wazuh/cluster/dapi/dapi.py:272-285 | `type(field) == int` is false for a bool, so a bool under totalItems is not added |
| MergeLaws.ScalarFirstWriteWins | framework/wazuh/cluster/dapi/dapi.py:280-285 | a string or other scalar keeps the existing value unless the priority table lets the new one win |
| MergeLaws.RestartMessagePriority | framework/wazuh/cluster/dapi/dapi.py:258-283 | "Some agents were not restarted" wins over "All selected agents were restarted", whichever node answers first |
| MergeLaws.SliceIsPage | framework/wazuh/cluster/dapi/dapi.py:298-299 | for a non-negative offset and limit the page has length min(limit, max(0, len - offset)) and holds the items from offset on |
| MergeLaws.PageDefaultsWrittenBack | framework/wazuh/cluster/dapi/dapi.py:288-291 | offset defaults to 0 and limit to common.database_limit; they are written into f_kwargs only when absent, and nothing else changes |
| MergeLaws.PaginateOnItems | framework/wazuh/cluster/dapi/dapi.py:287 | a merged answer whose `data.items` is a list is paged |
| MergeLaws.PaginateRejectsBounds | framework/wazuh/cluster/dapi/dapi.py:288-299 | when `data.items` is a list and offset or limit, after the defaults, is neither an int nor a bool, pagination raises the TypeError of the slice, with the defaults written back |
| MergeLaws.ScalarDataIsNotIterable | framework/wazuh/cluster/dapi/dapi.py:287 | a `data` that is an int, a bool or None makes `'items' in data` raise `is not iterable`, and f_kwargs is untouched |
| MergeLaws.NonDictAnswerRaises | framework/wazuh/cluster/dapi/dapi.py:262-263 | a first answer that is not a dict ends the merge with `object has no attribute 'items'` |
| MergeLaws.PageResult | framework/wazuh/cluster/dapi/dapi.py:288-299 | with int bounds, the page is the slice of the sorted items, and the defaults are written back |
| MergeLaws.WithItems | framework/wazuh/cluster/dapi/dapi.py:299 | writing the page into `data.items` puts it there and changes no other key of the answer |
| MergeLaws.PaginateTakesPage | framework/wazuh/cluster/dapi/dapi.py:287-299 | when `data.items` is a list and the bounds are ints or absent, pagination gives exactly the answer with `data.items` replaced by the requested page of the optionally sorted items, starting at the offset and at most limit long, and f_kwargs with the defaults written back |
| MergeLaws.TenItemsOffsetTwoLimitThree | framework/wazuh/cluster/dapi/dapi.py:298-299 | ten sorted items read with offset 2 and limit 3 give exactly the items at positions 2, 3 and 4 |
| MergeLaws.NestedLevelsArePaged | framework/wazuh/cluster/dapi/dapi.py:264-299 | the pagination block runs at every recursion level: a nested dict with its own `data.items` is paged too |
| MergeLaws.NoDataNoPage | framework/wazuh/cluster/dapi/dapi.py:287 | an answer without `data` is not paged |
| Marshal.CallableAttributes | framework/wazuh/cluster/dapi/dapi.py:352-363 | `__name__`, `__module__` and `__qualname__` are present exactly when the callable has them; `__wazuh__` only for a method bound to a Wazuh object; `__type__` always |
| Marshal.EncodeCallable | framework/wazuh/cluster/dapi/dapi.py:350-364 | the record has the single key `__callable__`, holding the attributes |
| Marshal.Default | framework/wazuh/cluster/dapi/dapi.py:348-366 | a callable becomes its record; anything else raises TypeError `Object of type X is not JSON serializable` |
| Marshal.BeforeDot | framework/wazuh/cluster/dapi/dapi.py:381-382 | the first segment of a dotted name: a prefix without dots, the whole name when it has none |
| Marshal.AsCallable | framework/wazuh/cluster/dapi/dapi.py:369-391 | a dict without `__callable__` is returned unchanged, and a dict with one is never returned as a dict |
| Marshal.BadRecordCannotBeDecoded | framework/wazuh/cluster/dapi/dapi.py:381-383 | a module record whose `__qualname__` or `__module__` is missing or not a str raises the TypeError that the KeyError or AttributeError becomes (:390-391) |
| Marshal.MissingAttributeCannotBeDecoded | framework/wazuh/cluster/dapi/dapi.py:385-388 | once the module is imported, a missing function, a missing class (whatever the name's type, since the class is looked up first) or a class without the member raises that TypeError |
| Marshal.MissingWazuhMethodCannotBeDecoded | framework/wazuh/cluster/dapi/dapi.py:374-378 | a `__wazuh__` value that is not a dict, or a method the Wazuh object lacks, raises that TypeError |
| Marshal.UnknownModuleIsNotConverted | framework/wazuh/cluster/dapi/dapi.py:383-384 | an empty module name raises ValueError `Empty module name`, an unknown one ModuleNotFoundError `No module named 'm'`; neither becomes the TypeError |
| Marshal.NonStrNameIsNotConverted | framework/wazuh/cluster/dapi/dapi.py:373-388 | a `__name__` that is not a str raises getattr's own TypeError once the Wazuh object, or the module and class, are found |
| Marshal.UnresolvedCannotBeDecoded | framework/wazuh/cluster/dapi/dapi.py:369-391 | an encoded callable that the registry does not hold (no such Wazuh method, no qualname or module, or a missing function, class or member) raises the TypeError; the counterpart of the round trips |
| Marshal.NamelessCannotBeDecoded | framework/wazuh/cluster/dapi/dapi.py:369-391 | a record without `__name__` raises the TypeError the KeyError is turned into |
| Marshal.ModuleFunctionRoundTrip | framework/wazuh/cluster/dapi/dapi.py:350-387 | a module-level function, encoded and decoded, comes back as the module's attribute |
| Marshal.ClassFunctionRoundTrip | framework/wazuh/cluster/dapi/dapi.py:350-388 | a function with qualname `C.name` comes back as member `name` of class C of its module |
| Marshal.WazuhMethodRoundTrip | framework/wazuh/cluster/dapi/dapi.py:359-378 | a method bound to a Wazuh object comes back as the method of a fresh Wazuh with the same path, /var/ossec when none is recorded |
| Marshal.ToWire | framework/wazuh/cluster/dapi/dapi.py:139-146 | to_dict writes exactly six keys, with the call's function record, f_kwargs, request type and three flags |
| Marshal.ConstructorTakesWireKeys | framework/wazuh/cluster/dapi/dapi.py:139-146 | every key to_dict writes is a constructor keyword that the queue does not pass itself |
| Marshal.FromWire | framework/wazuh/cluster/dapi/dapi.py:22-46 | a call can be built only from a mapping whose keys are constructor keywords and that holds f |
| Marshal.WireRoundTrip | framework/wazuh/cluster/dapi/dapi.py:139-146 | for a function the registry resolves, the constructor rebuilds exactly the call that to_dict wrote, with debug off |
| Distribution.LocalSpec | framework/wazuh/cluster/dapi/dapi.py:98-137 | outside debug mode the local answer is a print_json envelope: error 0 with the value of a run that returns in time, 3021 with the timeout message for a run past the deadline without wait_for_complete, and the exception's code for a run that raises |
| Distribution.DistributeSpec | framework/wazuh/cluster/dapi/dapi.py:48-85 | the local branch answers with execute_local_request and sends nothing; the remote branch sends to_dict once to the master and passes its answer through; outside debug mode no exception escapes; and no branch changes f, the request type or the flags other than from_cluster |
| Distribution.ForwardSpec | framework/wazuh/cluster/dapi/dapi.py:157-196 | forward_request changes nothing but f_kwargs and from_cluster; a solver exception ends it before anything is sent; once the solver answers, from_cluster is True; an empty solver map raises StopIteration with nothing sent |
| Distribution.ForwardAll | framework/wazuh/cluster/dapi/dapi.py:191 | the fan-out keeps from_cluster set and, when no node fails, gives one answer per node |
| Distribution.FanOutStep | framework/wazuh/cluster/dapi/dapi.py:191 | one node of the fan-out: a failure ends it with that exception; a success adds the answer and the fan-out goes on from the next node |
| Distribution.FanOutOneStep | framework/wazuh/cluster/dapi/dapi.py:191 | a fan-out that returns has node i answered, and goes on from the next node with that answer added |
| Distribution.FanOutCall | framework/wazuh/cluster/dapi/dapi.py:191 | a fan-out that returns leaves the call as the last node left it |
| Distribution.FanOutKeepsEarlier | framework/wazuh/cluster/dapi/dapi.py:191 | a fan-out that returns keeps the answers collected before it |
| Distribution.FanOutAnswers | framework/wazuh/cluster/dapi/dapi.py:191 | the answers of a fan-out that returns are the nodes' answers, one per node in the solver map's order |
| Distribution.FanOutStopsAtFirstError | framework/wazuh/cluster/dapi/dapi.py:191 | a fan-out that raises does so with the exception of a node whose predecessors all answered |
| Distribution.AllNodesAnswer | framework/wazuh/cluster/dapi/dapi.py:191 | when every node answers, the fan-out returns exactly their answers, one per node in order |
| Distribution.FirstErrorOfFanOut | framework/wazuh/cluster/dapi/dapi.py:191 | when node j raises and all before it answer, the fan-out raises node j's exception |
| Distribution.InjectAgentIds | framework/wazuh/cluster/dapi/dapi.py:172-173 | a non-empty bucket overwrites agent_id exactly when agent_id is absent or a list; otherwise f_kwargs is unchanged; no other key changes |
| Distribution.ForwardOne | framework/wazuh/cluster/dapi/dapi.py:171-185 | forward writes agent_id first. A target named 'unknown', '' or this node's own name sends nothing. Every other target gets exactly one b'dapi_forward' of to_dict, and its answer is the result |
| Distribution.FanOutSendsElsewhere | framework/wazuh/cluster/dapi/dapi.py:171-191 | every message of the fan-out goes with b'dapi_forward' to a node of the solver map that is neither 'unknown', '' nor this node, and says from_cluster: True |
| Distribution.ForwardsOnlyElsewhere | framework/wazuh/cluster/dapi/dapi.py:171-196 | everything forward_request sends goes to a solver node other than 'unknown', '' and this node; from_cluster is True in every payload, since it is set before any sub-call; nothing goes to the master |
| Distribution.OnlyTheMasterForwards | framework/wazuh/cluster/dapi/dapi.py:62-77 | on a worker, or for a call from the cluster, distribute_function sends nothing or the single b'dapi' request |
| Distribution.LocalTargetsRunHere | framework/wazuh/cluster/dapi/dapi.py:172-189 | a local target re-enters distribute_function. Because from_cluster is already True, the re-entry can only run locally, with agent_id already written |
| Distribution.SingleNodeIsNotMerged | framework/wazuh/cluster/dapi/dapi.py:188-195 | with one solver node, that node's answer is the answer and nothing is merged or paged: a remote node gets one forward with agent_id written and from_cluster True; a local one runs here through execute_local_request and nothing is sent |
| Distribution.SeveralNodesAreMerged | framework/wazuh/cluster/dapi/dapi.py:188-193 | with more than one solver node all answering, the answer is MergeAll of their answers, in the solver map's order, over an empty dict, and f_kwargs ends as the merge leaves it |
| Distribution.MergedReply | framework/wazuh/cluster/dapi/dapi.py:188-193 | with more than one solver node and a fan-out that returns, the answer is MergeAll of the fan-out's answers |
| Distribution.FirstFailingNodeDecides | framework/wazuh/cluster/dapi/dapi.py:188-193 | with more than one solver node, the first node that raises decides the answer |
| Distribution.NodeIdIsNotForwarded | framework/wazuh/cluster/dapi/dapi.py:232-235 | a hashable node_id call goes once to that node, and node_id is no longer in the forwarded f_kwargs |
| Distribution.UnhashableNodeIdIsRefused | framework/wazuh/cluster/dapi/dapi.py:233-235 | a list or dict node_id ends forward_request with `unhashable type` before anything is sent, with node_id already deleted from f_kwargs |
| Dapi.DistributedApi.constructor | framework/wazuh/cluster/dapi/dapi.py:22-46 | the attributes are the given call, debug flag, node info and collaborators, and nothing has been sent yet |
| Dapi.DistributedApi.Distribute | framework/wazuh/cluster/dapi/dapi.py:48-85 | the answer, the new f_kwargs and from_cluster, and the messages sent are those of DistributeSpec |
| Dapi.DistributedApi.ExecuteLocalRequest | framework/wazuh/cluster/dapi/dapi.py:98-137 | the answer is ExecuteLocal on the run of f with the call's f_kwargs |
| Dapi.DistributedApi.ExecuteRemoteRequest | framework/wazuh/cluster/dapi/dapi.py:148-155 | one b'dapi' request carrying to_dict is sent, and its answer is returned |
| Dapi.DistributedApi.ForwardRequest | framework/wazuh/cluster/dapi/dapi.py:157-196 | the result, the new state and the messages sent are those of ForwardSpec |
| Dapi.DistributedApi.FanOut | framework/wazuh/cluster/dapi/dapi.py:191 | the loop over the solver map does what ForwardAll says |
| Dapi.DistributedApi.Forward | framework/wazuh/cluster/dapi/dapi.py:165-185 | the result, the new state and the messages sent are those of ForwardOne |
| Dapi.DistributedApi.GetSolverNode | framework/wazuh/cluster/dapi/dapi.py:198-242 | the solver map returned and f_kwargs afterwards are those of Solve |
| Dapi.DistributedApi.MergeResults | framework/wazuh/cluster/dapi/dapi.py:244-301 | the nested loops and the recursive call compute MergeAll, including the offset and limit written into f_kwargs |
| Dapi.DistributedApi.MergeKey | framework/wazuh/cluster/dapi/dapi.py:263-285 | one pass of the inner loop, with the recursive call for a dict value: a raised pass is the outcome of the whole key loop, and a returned one leaves the loop to go on from the next key |
| Dapi.DistributedApi.PaginateFinal | framework/wazuh/cluster/dapi/dapi.py:287-301 | the pagination block computes Paginate, with the defaults written into f_kwargs |
| Dapi.DistributedApi.PageFinal | framework/wazuh/cluster/dapi/dapi.py:288-299 | the sort and slice of `data.items` compute Page, with offset and limit written into f_kwargs when absent |
| RequestQueue.IndexOf | framework/wazuh/cluster/dapi/dapi.py:321-322 | the position of the first occurrence of the character, or none exactly when it does not occur |
| RequestQueue.ParseEntry | framework/wazuh/cluster/dapi/dapi.py:321-323 | the split at the first space fails exactly when the entry has no space |
| RequestQueue.ParseFormatted | framework/wazuh/cluster/dapi/dapi.py:321-323 | an entry written with a peer free of spaces and `*`, and a suffix free of spaces, is read back as the same peer, suffix and request |
| RequestQueue.ParsedIsWellFormed | framework/wazuh/cluster/dapi/dapi.py:321-322 | a parsed peer has no space and no `*`, and a parsed suffix has no space |
| RequestQueue.FormatParsed | framework/wazuh/cluster/dapi/dapi.py:321-323 | writing a parsed entry back gives the original text |
| RequestQueue.CutAt | framework/wazuh/cluster/dapi/dapi.py:321-322 | a split at one position puts the text back together around the separator |
| RequestQueue.SelectPeer | framework/wazuh/cluster/dapi/dapi.py:324 | peer 'None' selects server.client; any other peer selects server.clients[peer], which fails exactly when the name is unknown |
| RequestQueue.FollowUpTag | framework/wazuh/cluster/dapi/dapi.py:330-334 | the tag is dapi_err exactly when the send_string answer starts with `Error`, dapi_res otherwise |
| RequestQueue.ServeSpec | framework/wazuh/cluster/dapi/dapi.py:321-336 | an entry without a space fails. A served entry sends everything to its peer: the answer, then one follow-up whose tag comes from `task_id` and whose data is the suffix and a space (or nothing) followed by `task_id` |
| RequestQueue.ServedAnswerIsDistributed | framework/wazuh/cluster/dapi/dapi.py:325-329 | the answer a served entry sends is what distribute_function answers for the call that json.loads and the constructor build from the entry |
| RequestQueue.DecodableEntryIsServed | framework/wazuh/cluster/dapi/dapi.py:321-336 | an entry that parses, names a known peer and decodes to a call with debug off is always served: no exception leaves it |
| RequestQueue.QueuedCallIsServed | framework/wazuh/cluster/dapi/dapi.py:321-336 | an entry that carries to_dict of a call is served, and its answer is the distribute_function answer of that same call |
| RequestQueue.RunSpec | framework/wazuh/cluster/dapi/dapi.py:316-336 | run stops with the queue empty or on an exception, and then the entries left are the ones after the failing one; what was sent before stays at the front |
| RequestQueue.ApiRequestQueue.constructor | framework/wazuh/cluster/dapi/dapi.py:309-314 | a new queue is empty and has sent nothing |
| RequestQueue.ApiRequestQueue.AddRequest | framework/wazuh/cluster/dapi/dapi.py:338-345 | the entry is put at the back of the queue |
| RequestQueue.ApiRequestQueue.ServeNext | framework/wazuh/cluster/dapi/dapi.py:321-336 | the oldest entry leaves the queue. On an exception nothing is sent; otherwise exactly what ServeSpec says is sent |
| RequestQueue.ApiRequestQueue.ServeEntry | framework/wazuh/cluster/dapi/dapi.py:321-336 | serving one entry (split, peer lookup, json.loads with as_callable, the DistributedAPI built from it, distribute_function, send_string and the follow-up) gives exactly ServeSpec's outcome, and the queue and outbox are untouched |
| RequestQueue.ApiRequestQueue.Run | framework/wazuh/cluster/dapi/dapi.py:316-336 | the loop does what RunSpec says: entries are served in order until one raises, which ends run since nothing catches it |
| RequestQueue.RunServesInOrder | framework/wazuh/cluster/dapi/dapi.py:316-336 | when no entry fails, every entry was served, the queue empties, and what is sent is each entry's answer and follow-up, entry by entry in queue order, after what was already sent |
| RequestQueue.EveryEntryServedRunsToTheEnd | framework/wazuh/cluster/dapi/dapi.py:316-336 | conversely, when every entry is served, run ends with the queue empty and no exception |
| RequestQueue.EachServedEntrySendsTwo | framework/wazuh/cluster/dapi/dapi.py:330-336 | each served entry sends exactly two messages |
| RequestQueue.RunSendsTwoPerEntry | framework/wazuh/cluster/dapi/dapi.py:316-336 | when run ends without exception, it sent two messages per entry |
| RequestQueue.RunStopsAtFirstError | framework/wazuh/cluster/dapi/dapi.py:316-336 | when run stops on an exception, it is the exception of entry k, every entry before k was served, what was sent is what those entries sent in order, and the entries after k stay queued |
| RequestQueue.MalformedEntryStopsRun | framework/wazuh/cluster/dapi/dapi.py:321 | an entry without a space ends run, leaves the later entries queued, and sends nothing |
| EventHandling.EventHandler.constructor | src/engine/source/base/eventHandler.hpp:24-29 | any event reference, an empty one included, is stored, and the handler starts not decoded |
| EventHandling.EventHandler.GetEvent | src/engine/source/base/eventHandler.hpp:36-39 | the stored event reference, with nothing changed |
| EventHandling.EventHandler.IsDecoded | src/engine/source/base/eventHandler.hpp:46-48 | the flag, with nothing changed |
| EventHandling.EventHandler.SetDecoded | src/engine/source/base/eventHandler.hpp:53-55 | the flag becomes true and the event is kept; only the flag may change |
| EventHandling.HandlerLifecycle | src/engine/source/base/eventHandler.hpp:24-55 | a new handler is not decoded, it is decoded after setDecoded and still decoded after a second call, and getEvent gives the constructor's event before and after |

## Left out

- Concurrency. The asyncio scheduling is sequential here: the executor,
  `wait_for`, `shield`, and the `is_async` task path. The effect of the
  deadline is kept, as the input `finishesInTime`.
- The fan-out of `gather` runs one node after another, and the first
  exception ends it. In the source the other forwards still run, and the
  exception raised is whichever comes first in time.
- The interleaving is not modelled. In the source a local run in the
  executor can read an `f_kwargs['agent_id']` that a later forward has
  already overwritten.
- The network. `node.execute`, `send_string`, `send_request` and
  `local_client` are inputs: the answers of the master and of the
  workers, and `task_id`. What `send_request` answers is only logged by
  the source, and it is not modelled.
- The JSON text layer. `json.dumps`, `json.loads` and the encoding of
  bytes are not modelled: the model works on JSON values, and bytes are
  strings. The object hook is applied to the top-level `f` record only;
  decoding `__callable__` records nested inside `f_kwargs` is left out.
- The database. `Agent.get_agents_overview` and `Agent.get_agent` are an
  input directory whose records always carry `id` and `node_name`. The
  directory's sort order on `node` is part of its input.
- `utils.sort_array` is not part of this model. It is an arbitrary
  function of the items and of the whole `sort` argument (`Merge.Paging`),
  so its own KeyErrors on `sort['fields']` and `sort['order']` are not
  modelled. `common.database_limit` is a parameter.
- The reads of the cluster configuration are parameters (`Env` fields):
  `cluster.get_cluster_items`, `check_cluster_status` and `get_node`.
  Their own exceptions are not modelled.
- Diagnostics: logging, `ClusterFilter`, the elapsed time, the random
  `request_id`, `pending_requests`, the `pretty` flag and `print_json`'s
  unused `encode_json`.
- `Marshal.FromWire`: the constructor's keyword binding is stated
  stricter than Python's. A keyword value of the wrong JSON kind, or an
  `f` that does not decode to a callable, is rejected here when the call
  is built. Python would fail later, or not at all.
- `Merge.MergeScalar`: when the kinds of the contributor and the
  accumulator clash, the TypeError or AttributeError Python raises is an
  error here too, but its exact text is not modelled.
- `Merge.MergeFields`: a dict value over an accumulated value that is not
  a dict is modelled as an error. Python would go on with whatever that
  value's `in` and item assignment do.
- List aliasing is not modelled. When a key is new, the source stores the
  contributor's own list object, and later merges extend that object in
  place; the model copies values. No answer differs unless the same list
  object reaches the merge twice.
- `Solver.DiffFrom`: the missing ids are listed in request order without
  repeats, while Python's set order is unspecified. The lemmas state
  membership only.
- `Solver.GroupFrom`: dict keys compare structurally. Python's dict would
  treat 1 and True as one key.
- `Marshal.AsCallable`: the TypeError text omits the record that Python
  formats into it. `importlib.import_module`, `getattr` and the Wazuh
  class are a registry lookup.
- `Marshal.UnknownModuleIsNotConverted`: a ModuleNotFoundError names the
  whole module path, where Python names its first missing package. A
  relative name (leading dot) is an unknown module here, where Python
  raises a TypeError asking for a package.
- `RequestQueue.ApiRequestQueue.Run`: the loop ends when the queue is
  empty, where the source waits for the next entry.
- `RequestQueue.SelectPeer`: the KeyError text is not modelled.
- Floats are not modelled: the JSON values have no float kind. In the
  source a float in an answer reaches the `type(field) == int` test of
  framework/wazuh/cluster/dapi/dapi.py:272, fails it, and takes the rule
  for strings.
- `f_kwargs={}`: the constructor's mutable default argument, shared by
  every call that omits `f_kwargs`, is not modelled.
- `json::Document`'s contents and the reference counting of `shared_ptr`
  are not modelled: the event is an opaque object reference.
