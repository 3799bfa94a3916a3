/** The API request queue of the master's server (APIRequestQueue): entries
    arrive with add_request, and run takes them one by one, builds a
    DistributedAPI call from each, answers through the peer the entry names
    and follows the answer up with b'dapi_res' or b'dapi_err'. */
module RequestQueue {
  import opened Base
  import opened JsonModel
  import opened Envelope
  import opened Marshal
  import opened Distribution
  import opened Dapi

  // ---------------------------------------------------------------- entries

  /** A queue entry `<peer>[*<suffix>] <request>`: the peer to answer, the
      optional text put before the `task_id` of the follow-up, and the call
      as text. */
  datatype Entry = Entry(peer: string, suffix: Option<string>, request: string)

  /** The position of the first `c` in `s`. */
  function IndexOf(s: string, c: char): (r: Option<nat>)
    ensures r.None? <==> c !in s
    ensures r.Some? ==> r.value < |s| && s[r.value] == c && c !in s[..r.value]
  {
    if s == [] then None
    else if s[0] == c then Some(0)
    else
      match IndexOf(s[1..], c)
      case None => None
      case Some(i) => assert s[..i + 1] == [s[0]] + s[1..][..i]; Some(i + 1)
  }

  /** `split(' ', 1)` with the unpacking into two names, then `split('*', 1)`
      on the first part.  Without a space the unpacking raises ValueError. */
  function ParseEntry(e: string): (r: Outcome<Entry>)
    ensures r.Raised? <==> ' ' !in e
  {
    match IndexOf(e, ' ')
    case None => Raised(OtherError("not enough values to unpack (expected 2, got 1)"))
    case Some(p) =>
      var names := e[..p];
      match IndexOf(names, '*')
      case None => Returned(Entry(names, None, e[p + 1..]))
      case Some(q) => Returned(Entry(names[..q], Some(names[q + 1..]), e[p + 1..]))
  }

  /** The entry as its producer writes it. */
  function FormatEntry(en: Entry): string
  {
    en.peer + (if en.suffix.Some? then "*" + en.suffix.value else "") + " " + en.request
  }

  /** The entries the two splits read back: no space and no `*` in the peer,
      no space in the suffix; the request may hold anything. */
  predicate WellFormed(en: Entry)
  {
    ' ' !in en.peer && '*' !in en.peer && (en.suffix.Some? ==> ' ' !in en.suffix.value)
  }

  /** The first occurrence of `c` in `a + [c] + b` when `a` has none. */
  lemma {:induction false} FirstAfter(a: string, c: char, b: string)
    requires c !in a
    ensures IndexOf(a + [c] + b, c) == Some(|a|)
    decreases |a|
  {
    if a != [] {
      assert (a + [c] + b)[1..] == a[1..] + [c] + b;
      FirstAfter(a[1..], c, b);
    }
  }

  lemma ParseFormatted(en: Entry)
    requires WellFormed(en)
    ensures ParseEntry(FormatEntry(en)) == Returned(en)
  {
    var names := en.peer + (if en.suffix.Some? then "*" + en.suffix.value else "");
    assert ' ' !in names;
    assert FormatEntry(en) == names + [' '] + en.request;
    FirstAfter(names, ' ', en.request);
    assert FormatEntry(en)[..|names|] == names;
    assert FormatEntry(en)[|names| + 1..] == en.request;
    if en.suffix.Some? {
      assert names == en.peer + ['*'] + en.suffix.value;
      FirstAfter(en.peer, '*', en.suffix.value);
      assert names[..|en.peer|] == en.peer;
      assert names[|en.peer| + 1..] == en.suffix.value;
    } else {
      assert names == en.peer;
    }
  }

  /** `s` cut at position i, around the character there. */
  lemma CutAt(s: string, i: nat, absent: char)
    requires i < |s|
    ensures s == s[..i] + [s[i]] + s[i + 1..]
    ensures absent !in s ==> absent !in s[..i] && absent !in s[i + 1..]
  {
    assert s == s[..i] + [s[i]] + s[i + 1..];
  }

  lemma ParsedIsWellFormed(e: string)
    requires ParseEntry(e).Returned?
    ensures WellFormed(ParseEntry(e).value)
  {
    var p := IndexOf(e, ' ').value;
    var names := e[..p];
    match IndexOf(names, '*')
    case None =>
    case Some(q) =>
      CutAt(names, q, ' ');
  }

  lemma FormatParsed(e: string)
    requires ParseEntry(e).Returned?
    ensures FormatEntry(ParseEntry(e).value) == e
  {
    var p := IndexOf(e, ' ').value;
    var names := e[..p];
    CutAt(e, p, ' ');
    match IndexOf(names, '*')
    case None =>
    case Some(q) =>
      CutAt(names, q, ' ');
  }

  // ---------------------------------------------------------------- replying

  /** The channel an entry is answered through: `server.client` (the entry
      came from a worker's own request) or `server.clients[name]`. */
  datatype Peer = Upstream | Client(name: string)

  function SelectPeer(peer: string, clients: set<string>): (r: Outcome<Peer>)
    ensures peer == "None" ==> r == Returned(Upstream)
    ensures peer != "None" ==> (r.Returned? <==> peer in clients)
    ensures peer != "None" && r.Returned? ==> r.value == Client(peer)
  {
    if peer == "None" then Returned(Upstream)
    else if peer in clients then Returned(Client(peer))
    else Raised(OtherError("KeyError: " + peer))
  }

  /** `name_2`: the suffix and a space, or nothing. */
  function ReplyPrefix(suffix: Option<string>): string
  {
    if suffix.Some? then suffix.value + " " else ""
  }

  predicate StartsWith(s: string, p: string)
  {
    |p| <= |s| && s[..|p|] == p
  }

  /** The follow-up command after send_string, chosen by its answer. */
  function FollowUpTag(taskId: string): (r: string)
    ensures r == "dapi_err" <==> StartsWith(taskId, "Error")
    ensures r == "dapi_res" <==> !StartsWith(taskId, "Error")
  {
    if StartsWith(taskId, "Error") then "dapi_err" else "dapi_res"
  }

  /** What the queue sends: the answer with send_string, then the
      follow-up with send_request. */
  datatype Outgoing = Answer(peer: Peer, body: Json) | FollowUp(peer: Peer, command: string, data: string)

  /** What the queue consults: the names in server.clients, this node, the
      call environment through each peer, json.loads, the registry of
      callables, and the `task_id` send_string answers with. */
  datatype Server = Server(
    clients: set<string>,
    node: NodeInfo,
    envFor: Peer -> Env,
    loads: string -> Outcome<Json>,
    registry: Registry,
    sendString: (Peer, Json) -> string)

  /** One pass of the body of run, on one entry. */
  function ServeSpec(e: string, srv: Server): (r: Outcome<seq<Outgoing>>)
    ensures ' ' !in e ==> r.Raised?
    ensures r.Returned? ==>
      ParseEntry(e).Returned? && var en := ParseEntry(e).value;
      SelectPeer(en.peer, srv.clients).Returned? && var peer := SelectPeer(en.peer, srv.clients).value;
      && |r.value| == 2 && r.value[0].Answer? && r.value[0].peer == peer
      && var taskId := srv.sendString(peer, r.value[0].body);
         r.value[1] == FollowUp(peer, FollowUpTag(taskId), ReplyPrefix(en.suffix) + taskId)
  {
    match ParseEntry(e)
    case Raised(x) => Raised(x)
    case Returned(en) =>
      match SelectPeer(en.peer, srv.clients)
      case Raised(x) => Raised(x)
      case Returned(peer) =>
        match srv.loads(en.request)
        case Raised(x) => Raised(x)
        case Returned(j) =>
          match FromWire(j, srv.registry)
          case Raised(x) => Raised(x)
          case Returned(cd) =>
            var reply := DistributeSpec(CallState(cd.0, cd.1, srv.node), srv.envFor(peer)).result;
            match reply
            case Escaped(x) => Raised(x)
            case Answered(body) =>
              var taskId := srv.sendString(peer, body);
              Returned([Answer(peer, body), FollowUp(peer, FollowUpTag(taskId), ReplyPrefix(en.suffix) + taskId)])
  }

  /** A served entry's answer is what distribute_function gives for the
      call the entry carries, built by json.loads and the constructor. */
  lemma ServedAnswerIsDistributed(e: string, srv: Server)
    requires ServeSpec(e, srv).Returned?
    ensures var en := ParseEntry(e).value;
      var peer := SelectPeer(en.peer, srv.clients).value;
      srv.loads(en.request).Returned? && FromWire(srv.loads(en.request).value, srv.registry).Returned?
      && var cd := FromWire(srv.loads(en.request).value, srv.registry).value;
         DistributeSpec(CallState(cd.0, cd.1, srv.node), srv.envFor(peer)).result == Answered(ServeSpec(e, srv).value[0].body)
  {
  }

  /** A call built and run with debug off always gets an answer: an entry
      that parses, names a known peer and carries a call the constructor
      accepts is served. */
  lemma DecodableEntryIsServed(e: string, srv: Server)
    requires ParseEntry(e).Returned?
    requires SelectPeer(ParseEntry(e).value.peer, srv.clients).Returned?
    requires srv.loads(ParseEntry(e).value.request).Returned?
    requires var cd := FromWire(srv.loads(ParseEntry(e).value.request).value, srv.registry);
      cd.Returned? && !cd.value.1
    ensures ServeSpec(e, srv).Returned?
  {
  }

  /** An entry written for a call that to_dict wrote, with a function the
      registry resolves, is served with the answer distribute_function
      gives that call. */
  lemma QueuedCallIsServed(en: Entry, c: CallRecord, srv: Server)
    requires WellFormed(en) && SelectPeer(en.peer, srv.clients).Returned?
    requires srv.loads(en.request) == Returned(ToWire(c)) && Resolves(srv.registry, c.f)
    ensures var r := ServeSpec(FormatEntry(en), srv);
      r.Returned? && r.value[0] == Answer(SelectPeer(en.peer, srv.clients).value,
        DistributeSpec(CallState(c, false, srv.node), srv.envFor(SelectPeer(en.peer, srv.clients).value)).result.body)
  {
    ParseFormatted(en);
    WireRoundTrip(c, srv.registry);
  }

  /** How run serves one entry: what it sends, or the exception that
      ends run. */
  type Serve = string -> Outcome<seq<Outgoing>>

  /** The queue's own way of serving, the body of run's loop. */
  function Serving(srv: Server): Serve
  {
    e => ServeSpec(e, srv)
  }

  /** What one entry sends when it is served, nothing when it raises. */
  function Sent(e: string, serve: Serve): seq<Outgoing>
  {
    if serve(e).Returned? then serve(e).value else []
  }

  /** What the entries of `q` send, one after another. */
  function Served(q: seq<string>, serve: Serve): seq<Outgoing>
    decreases |q|
  {
    if q == [] then [] else Sent(q[0], serve) + Served(q[1..], serve)
  }

  /** run over the entries in `q` with `out` already sent: the exception
      that ended it, if one did, the entries left and everything sent. */
  function RunSpec(q: seq<string>, out: seq<Outgoing>, serve: Serve): (r: (Option<Exc>, seq<string>, seq<Outgoing>))
    decreases |q|
    // the queue is emptied unless an exception ends run
    ensures r.0.None? ==> r.1 == []
    // the entries left are a proper suffix of the queue after an exception
    ensures r.0.Some? ==> |r.1| < |q| && r.1 == q[|q| - |r.1|..]
    // what was sent before stays sent, first
    ensures |out| <= |r.2| && r.2[..|out|] == out
  {
    if q == [] then (None, [], out)
    else
      match serve(q[0])
      case Raised(x) => (Some(x), q[1..], out)
      case Returned(o) =>
        var rest := RunSpec(q[1..], out + o, serve);
        assert rest.2[..|out|] == rest.2[..|out + o|][..|out|];
        assert q[1..][|q[1..]| - |rest.1|..] == q[|q| - |rest.1|..];
        rest
  }

  // ---------------------------------------------------------------- the queue

  class ApiRequestQueue {
    /** request_queue, oldest entry first. */
    var requestQueue: seq<string>
    const server: Server
    /** What the queue has sent, in order. */
    ghost var outbox: seq<Outgoing>

    constructor (server: Server)
      ensures requestQueue == [] && outbox == [] && this.server == server
    {
      requestQueue := [];
      this.server := server;
      outbox := [];
    }

    /** add_request: the entry goes at the back. */
    method AddRequest(request: string)
      modifies this`requestQueue
      ensures requestQueue == old(requestQueue) + [request]
    {
      requestQueue := requestQueue + [request];
    }

    /** The oldest entry is taken and served. */
    method ServeNext() returns (o: Outcome<()>)
      requires requestQueue != []
      modifies this`requestQueue, this`outbox
      ensures requestQueue == old(requestQueue)[1..]
      ensures match ServeSpec(old(requestQueue)[0], server)
        case Raised(x) => o == Raised(x) && outbox == old(outbox)
        case Returned(sent) => o == Returned(()) && outbox == old(outbox) + sent
    {
      var e := requestQueue[0];
      requestQueue := requestQueue[1..];
      var served := ServeEntry(e);
      if served.Raised? {
        return Raised(served.exc);
      }
      outbox := outbox + [served.value[0]];
      outbox := outbox + [served.value[1]];
      assert outbox == old(outbox) + served.value;
      o := Returned(());
    }

    /** One entry: parsed, its peer chosen, its request decoded and rebuilt
        into a DistributedAPI, and the answer turned into the two messages
        for the peer; the first exception on the way is the outcome. */
    method ServeEntry(e: string) returns (r: Outcome<seq<Outgoing>>)
      ensures r == ServeSpec(e, server)
    {
      var entry := ParseEntry(e);
      if entry.Raised? {
        return Raised(entry.exc);
      }
      var en := entry.value;
      var peer := SelectPeer(en.peer, server.clients);
      if peer.Raised? {
        return Raised(peer.exc);
      }
      var j := server.loads(en.request);
      if j.Raised? {
        return Raised(j.exc);
      }
      var call := FromWire(j.value, server.registry);
      if call.Raised? {
        return Raised(call.exc);
      }
      var api := new DistributedApi(call.value.0, call.value.1, server.node, server.envFor(peer.value));
      var result := api.Distribute();
      if result.Escaped? {
        return Raised(result.exc);
      }
      var taskId := server.sendString(peer.value, result.body);
      r := Returned([Answer(peer.value, result.body), FollowUp(peer.value, FollowUpTag(taskId), ReplyPrefix(en.suffix) + taskId)]);
    }

    /** run, over the entries queued so far: it ends when the queue is empty
        (where the source waits for more) or on the first exception, which
        leaves the loop since run catches nothing. */
    method Run() returns (stop: Option<Exc>)
      modifies this`requestQueue, this`outbox
      ensures (stop, requestQueue, outbox) == RunSpec(old(requestQueue), old(outbox), Serving(server))
    {
      stop := None;
      while requestQueue != []
        invariant RunSpec(old(requestQueue), old(outbox), Serving(server)) == RunSpec(requestQueue, outbox, Serving(server))
        decreases |requestQueue|
      {
        var o := ServeNext();
        if o.Raised? {
          return Some(o.exc);
        }
      }
    }
  }

  // ---------------------------------------------------------------- properties of run

  /** When no entry fails, the queue empties and what is sent is every
      entry's answer and follow-up, in queue order, after what was already
      sent. */
  lemma {:induction false} RunServesInOrder(q: seq<string>, out: seq<Outgoing>, serve: Serve)
    requires RunSpec(q, out, serve).0.None?
    ensures forall i :: 0 <= i < |q| ==> serve(q[i]).Returned?
    ensures var r := RunSpec(q, out, serve);
      r.1 == [] && r.2 == out + Served(q, serve)
    decreases |q|
  {
    if q != [] {
      var o := serve(q[0]).value;
      assert RunSpec(q, out, serve) == RunSpec(q[1..], out + o, serve);
      RunServesInOrder(q[1..], out + o, serve);
      forall i | 0 <= i < |q|
        ensures serve(q[i]).Returned?
      {
        if i > 0 {
          assert q[i] == q[1..][i - 1];
        }
      }
      assert Served(q, serve) == o + Served(q[1..], serve);
      assert out + o + Served(q[1..], serve) == out + Served(q, serve);
    }
  }

  /** The queue sends exactly two messages per served entry: when run
      empties the queue, it has sent an answer and a follow-up for each
      entry. */
  lemma {:induction false} EachServedEntrySendsTwo(q: seq<string>, srv: Server)
    requires forall i :: 0 <= i < |q| ==> ServeSpec(q[i], srv).Returned?
    ensures |Served(q, Serving(srv))| == 2 * |q|
    decreases |q|
  {
    if q != [] {
      assert ServeSpec(q[0], srv).Returned?;
      assert forall i :: 0 <= i < |q[1..]| ==> q[1..][i] == q[i + 1];
      EachServedEntrySendsTwo(q[1..], srv);
    }
  }

  lemma RunSendsTwoPerEntry(q: seq<string>, out: seq<Outgoing>, srv: Server)
    requires RunSpec(q, out, Serving(srv)).0.None?
    ensures |RunSpec(q, out, Serving(srv)).2| == |out| + 2 * |q|
  {
    RunServesInOrder(q, out, Serving(srv));
    EachServedEntrySendsTwo(q, srv);
  }

  /** The converse: when every entry is served, run ends with the queue
      empty. */
  lemma {:induction false} EveryEntryServedRunsToTheEnd(q: seq<string>, out: seq<Outgoing>, serve: Serve)
    requires forall i :: 0 <= i < |q| ==> serve(q[i]).Returned?
    ensures RunSpec(q, out, serve).0.None?
    decreases |q|
  {
    if q != [] {
      assert serve(q[0]).Returned?;
      assert forall i :: 0 <= i < |q[1..]| ==> q[1..][i] == q[i + 1];
      EveryEntryServedRunsToTheEnd(q[1..], out + serve(q[0]).value, serve);
    }
  }

  /** An exception ends run at the first entry whose service raises it:
      every entry before it was served and sent its answer and follow-up,
      nothing is sent for the failing one, and the entries after it stay
      queued. */
  lemma {:induction false} RunStopsAtFirstError(q: seq<string>, out: seq<Outgoing>, serve: Serve) returns (k: nat)
    requires RunSpec(q, out, serve).0.Some?
    ensures var r := RunSpec(q, out, serve);
      k < |q| && r.1 == q[k + 1..] && serve(q[k]) == Raised(r.0.value)
      && (forall i :: 0 <= i < k ==> serve(q[i]).Returned?)
      && r.2 == out + Served(q[..k], serve)
    decreases |q|
  {
    var r := RunSpec(q, out, serve);
    if serve(q[0]).Raised? {
      k := 0;
      assert q[..0] == [];
    } else {
      var o := serve(q[0]).value;
      assert r == RunSpec(q[1..], out + o, serve);
      var k' := RunStopsAtFirstError(q[1..], out + o, serve);
      k := k' + 1;
      assert q[1..][k' + 1..] == q[k + 1..] && q[1..][k'] == q[k];
      assert forall i :: 0 <= i < k ==> serve(q[i]).Returned? by {
        forall i | 0 < i < k
          ensures serve(q[i]).Returned?
        {
          assert q[i] == q[1..][i - 1];
        }
      }
      assert r.2 == out + Served(q[..k], serve) by {
        var p := q[..k];
        assert p[0] == q[0] && p[1..] == q[1..][..k'];
        assert Served(p, serve) == o + Served(q[1..][..k'], serve);
        assert r.2 == (out + o) + Served(q[1..][..k'], serve);
      }
    }
  }

  /** An entry without a space stops run with the entries after it queued. */
  lemma MalformedEntryStopsRun(e: string, rest: seq<string>, out: seq<Outgoing>, srv: Server)
    requires ' ' !in e
    ensures RunSpec([e] + rest, out, Serving(srv)) == (Some(ParseEntry(e).exc), rest, out)
  {
    assert ([e] + rest)[0] == e && ([e] + rest)[1..] == rest;
  }
}
