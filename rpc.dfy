/**
 * The outside world the script talks to: the Terragen project reached over
 * RPC (terragen_rpc's root(), children_filtered_by_class, get_param and
 * set_param) and the warning popups shown to the user.
 *
 * A node handle is an index into the project's node list. Any RPC call can
 * raise; which calls raise is an input: the fault schedule maps the number of
 * a call (its position in the log of all RPC calls) to the error it raises.
 * Quantifying over schedules covers every pattern of failures.
 */
module Rpc {
  import opened Wrappers

  type NodeId = nat

  /** The four exceptions the script catches around an RPC call. */
  datatype RpcError = ConnectionError | TimeoutError | ReplyError | ApiError

  datatype Call =
    | Fetch(cls: string)
    | Get(node: NodeId, param: string)
    | Set(node: NodeId, param: string, value: string)

  /** One popup_warning, naming the error and the call that raised it. */
  datatype Warning = Warning(kind: RpcError, call: Call)

  /** Everything observable outside the script. */
  datatype World = World(
    params: seq<map<string, string>>,  // parameter values of node i
    classes: seq<string>,              // class of node i
    faults: map<nat, RpcError>,        // call number k raises faults[k]
    calls: seq<Call>,                  // every RPC call made so far, in order
    warnings: seq<Warning>)            // every popup shown so far, in order

  /** The nodes of one class, in project order (children_filtered_by_class). */
  function NodesOfClass(classes: seq<string>, cls: string): (ns: seq<NodeId>)
    ensures forall i :: 0 <= i < |ns| ==> ns[i] < |classes| && classes[ns[i]] == cls
    ensures forall n :: 0 <= n < |classes| && classes[n] == cls ==> n in ns
    ensures forall i, j :: 0 <= i < j < |ns| ==> ns[i] < ns[j]
  {
    if classes == [] then []
    else
      var last := |classes| - 1;
      NodesOfClass(classes[..last], cls) + (if classes[last] == cls then [last] else [])
  }

  /**
   * The error that call number |w.calls| raises when it addresses node n:
   * the scheduled fault if there is one, else ApiError for a handle that
   * names no node of the project.
   */
  function CallError(w: World, n: NodeId): (e: Option<RpcError>)
    ensures e.None? <==> |w.calls| !in w.faults && n < |w.params|
  {
    var k := |w.calls|;
    if k in w.faults then Some(w.faults[k])
    else if n >= |w.params| then Some(ApiError)
    else None
  }

  /** Call number |w.calls| appended to the log. */
  function Log(w: World, c: Call): World {
    w.(calls := w.calls + [c])
  }

  function RemoteFetch(w: World, cls: string): (World, Result<seq<NodeId>, RpcError>) {
    var k := |w.calls|;
    if k in w.faults then (Log(w, Fetch(cls)), Failure(w.faults[k]))
    else (Log(w, Fetch(cls)), Success(NodesOfClass(w.classes, cls)))
  }

  /** Reading a parameter the node does not have is rejected by the remote API. */
  function RemoteGet(w: World, n: NodeId, param: string): (World, Result<string, RpcError>) {
    var e := CallError(w, n);
    if e.Some? then (Log(w, Get(n, param)), Failure(e.value))
    else if param in w.params[n] then (Log(w, Get(n, param)), Success(w.params[n][param]))
    else (Log(w, Get(n, param)), Failure(ApiError))
  }

  function RemoteSet(w: World, n: NodeId, param: string, value: string): (World, Option<RpcError>) {
    var e := CallError(w, n);
    var w' := Log(w, Set(n, param, value));
    if e.Some? then (w', e)
    else (w'.(params := w.params[n := w.params[n][param := value]]), None)
  }

  function Popup(w: World, kind: RpcError, c: Call): World {
    w.(warnings := w.warnings + [Warning(kind, c)])
  }

  /** The project and the screen, as the script sees them. */
  class Session {
    var params: seq<map<string, string>>
    const classes: seq<string>
    const faults: map<nat, RpcError>
    var calls: seq<Call>
    var warnings: seq<Warning>

    function State(): World
      reads this
    {
      World(params, classes, faults, calls, warnings)
    }

    constructor (params0: seq<map<string, string>>, classes0: seq<string>, faults0: map<nat, RpcError>)
      ensures State() == World(params0, classes0, faults0, [], [])
    {
      params, classes, faults := params0, classes0, faults0;
      calls, warnings := [], [];
    }

    /** tg.root().children_filtered_by_class(cls) */
    method ChildrenFilteredByClass(cls: string) returns (r: Result<seq<NodeId>, RpcError>)
      modifies this
      ensures (State(), r) == RemoteFetch(old(State()), cls)
    {
      var k := |calls|;
      calls := calls + [Fetch(cls)];
      if k in faults {
        r := Failure(faults[k]);
      } else {
        r := Success(NodesOfClass(classes, cls));
      }
    }

    /** node.get_param(param) */
    method GetParam(n: NodeId, param: string) returns (r: Result<string, RpcError>)
      modifies this
      ensures (State(), r) == RemoteGet(old(State()), n, param)
    {
      var k := |calls|;
      calls := calls + [Get(n, param)];
      if k in faults {
        r := Failure(faults[k]);
      } else if n >= |params| {
        r := Failure(ApiError);
      } else if param in params[n] {
        r := Success(params[n][param]);
      } else {
        r := Failure(ApiError);
      }
    }

    /** node.set_param(param, value); the error it raises, if any. */
    method SetParam(n: NodeId, param: string, value: string) returns (err: Option<RpcError>)
      modifies this
      ensures (State(), err) == RemoteSet(old(State()), n, param, value)
    {
      var k := |calls|;
      calls := calls + [Set(n, param, value)];
      if k in faults {
        err := Some(faults[k]);
      } else if n >= |params| {
        err := Some(ApiError);
      } else {
        params := params[n := params[n][param := value]];
        err := None;
      }
    }

    /** popup_warning: a modal warning naming the failed call. */
    method PopupWarning(kind: RpcError, c: Call)
      modifies this
      ensures State() == Popup(old(State()), kind, c)
    {
      warnings := warnings + [Warning(kind, c)];
    }
  }
}
