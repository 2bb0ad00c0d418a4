/**
 * What performing the operations does to the world: set_node_param's
 * catch-report-continue write, invert_param_value's unprotected read, and
 * the sequential run of a whole plan, which stops only when a read raises.
 */
module Exec {
  import opened Wrappers
  import opened Registry
  import opened Rpc
  import opened Actions

  /**
   * set_node_param: one set_param call; if it raises, one warning is shown
   * and the node keeps its value, otherwise the parameter takes the value.
   */
  function Write(w: World, n: NodeId, param: string, value: string): (r: World)
    ensures r.calls == w.calls + [Set(n, param, value)]
    ensures r.classes == w.classes && r.faults == w.faults && |r.params| == |w.params|
    ensures CallError(w, n).Some? ==>
      r.params == w.params && r.warnings == w.warnings + [Warning(CallError(w, n).value, Set(n, param, value))]
    ensures CallError(w, n).None? ==>
      r.params == w.params[n := w.params[n][param := value]] && r.warnings == w.warnings
  {
    var (w', err) := RemoteSet(w, n, param, value);
    if err.Some? then Popup(w', err.value, Set(n, param, value)) else w'
  }

  /**
   * invert_param_value: one get_param call and the complement of what it
   * returned. Its failure is not caught, so it is passed on.
   */
  function Invert(w: World, n: NodeId, param: string): (r: (World, Result<string, RpcError>))
    ensures r.0 == Log(w, Get(n, param))
    ensures r.1.Success? <==> CallError(w, n).None? && param in w.params[n]
    ensures r.1.Success? ==> r.1.value == Complement(w.params[n][param])
  {
    var (w', got) := RemoteGet(w, n, param);
    if got.Failure? then (w', got) else (w', Success(Complement(got.value)))
  }

  /** One operation; false when it raised out of the engine. */
  function Step(w: World, op: Op): (World, bool)
  {
    match op
    case Put(n, param, value) => (Write(w, n, param, value), true)
    case Flip(n, param) =>
      var (w', t) := Invert(w, n, param);
      if t.Failure? then (w', false) else (Write(w', n, param, t.value), true)
  }

  /**
   * A write never stops the engine; a flip stops it exactly when its read
   * raises, after logging that read, and otherwise writes the complement of
   * the value read.
   */
  lemma StepOutcome(w: World, op: Op)
    ensures var r := Step(w, op);
      && r.0.classes == w.classes && r.0.faults == w.faults && |r.0.params| == |w.params|
      && (r.1 <==> op.Put? || (CallError(w, op.node).None? && op.param in w.params[op.node]))
      && (!r.1 ==> r.0 == Log(w, Get(op.node, op.param)))
      && (op.Flip? && r.1 ==>
            r.0 == Write(Log(w, Get(op.node, op.param)), op.node, op.param, Complement(w.params[op.node][op.param])))
  {
  }

  /** The operations in order, until one raises out of the engine. */
  function Run(w: World, ops: seq<Op>): (r: (World, bool))
    ensures |r.0.params| == |w.params| && r.0.classes == w.classes && r.0.faults == w.faults
    ensures w.calls <= r.0.calls && w.warnings <= r.0.warnings
    decreases ops
  {
    if ops == [] then (w, true)
    else
      var (w', ok) := Step(w, ops[0]);
      if !ok then (w', false) else Run(w', ops[1..])
  }

  /**
   * get_nodes_in_class: one fetch; on failure a warning and None, otherwise
   * the nodes of the class in project order.
   */
  function FetchNodes(w: World, cls: string): (r: (World, Option<seq<NodeId>>))
    ensures r.0.calls == w.calls + [Fetch(cls)] && r.0.params == w.params
    ensures r.0.classes == w.classes && r.0.faults == w.faults
    ensures r.1.None? <==> |w.calls| in w.faults
    ensures r.1.None? ==> r.0.warnings == w.warnings + [Warning(w.faults[|w.calls|], Fetch(cls))]
    ensures r.1.Some? ==> r.0.warnings == w.warnings && r.1.value == NodesOfClass(w.classes, cls)
  {
    var (w', got) := RemoteFetch(w, cls);
    if got.Failure? then (Popup(w', got.error, Fetch(cls)), None) else (w', Some(got.value))
  }

  /** The class behind radio button number `selected`. */
  function SelectedClass(selected: nat): (cls: string)
    requires selected < |ClassList()|
    ensures ParamsFor(cls).Some?
  {
    ClassList()[selected]
  }

  /**
   * on_apply: look the class up, fetch its nodes, and run take_action only
   * when the fetch returned a non-empty list.
   */
  function Apply(w: World, selected: nat, action: string, cb: Checkboxes): (r: (World, bool))
    requires selected < |ClassList()|
    ensures w.calls + [Fetch(SelectedClass(selected))] <= r.0.calls
    ensures r.0.classes == w.classes && r.0.faults == w.faults && |r.0.params| == |w.params|
    ensures |w.calls| in w.faults ==> r == (FetchNodes(w, SelectedClass(selected)).0, true)
  {
    var cls := SelectedClass(selected);
    var params := ParamsFor(cls).value;
    var (w', nodes) := FetchNodes(w, cls);
    if nodes.Some? && |nodes.value| > 0 then
      Run(w', Plan(ParseAction(action), nodes.value, params, cb))
    else (w', true)
  }

  /** Running two lists one after the other is running their concatenation. */
  lemma {:induction false} RunAppend(w: World, a: seq<Op>, b: seq<Op>)
    ensures Run(w, a + b) == (var (w', ok) := Run(w, a); if ok then Run(w', b) else (w', false))
    decreases a
  {
    if a == [] {
      assert a + b == b;
    } else {
      assert (a + b)[0] == a[0];
      assert (a + b)[1..] == a[1..] + b;
      var (w', ok) := Step(w, a[0]);
      if ok {
        RunAppend(w', a[1..], b);
      }
    }
  }
}
