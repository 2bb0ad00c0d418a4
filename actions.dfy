/**
 * What the write engine decides to do, separated from doing it: for an
 * action, a node and a parameter, the list of operations action_on,
 * action_off and action_toggle perform, and for a whole apply the list
 * take_action performs (nodes outermost, parameters in registry order).
 */
module Actions {
  import opened Wrappers
  import opened Registry
  import opened Rpc

  /** The radio-button value read from action_var; anything else is Other. */
  datatype Action = On | Off | Toggle | Other

  function ParseAction(s: string): (a: Action)
    ensures a == On <==> s == "On"
    ensures a == Off <==> s == "Off"
    ensures a == Toggle <==> s == "Toggle"
  {
    if s == "On" then On
    else if s == "Off" then Off
    else if s == "Toggle" then Toggle
    else Other
  }

  /** One step of an apply: write a constant, or read a value and write its complement. */
  datatype Op =
    | Put(node: NodeId, param: string, value: string)
    | Flip(node: NodeId, param: string)

  /** invert_param_value's decision on the value read. */
  function Complement(v: string): (r: string)
    ensures r == "0" || r == "1"
    ensures r == "1" <==> v == "0"
  {
    if v == "0" then "1" else "0"
  }

  /**
   * The guard shared by the three actions: a class with one parameter always
   * acts; a class with several acts on a parameter only when its checkbox is 1.
   */
  predicate Selected(cb: Checkboxes, param: string, numParams: int) {
    numParams == 1 || (numParams > 1 && CheckboxStatus(cb, param) == Some(1))
  }

  /**
   * The only parameter of a class is always acted on; in a class with
   * several, exactly a parameter that has a checkbox reading 1.
   */
  lemma SelectedRule(cb: Checkboxes, param: string, numParams: int)
    ensures numParams == 1 ==> Selected(cb, param, numParams)
    ensures numParams < 1 ==> !Selected(cb, param, numParams)
    ensures numParams > 1 && Selected(cb, param, numParams) ==>
      param in {BodyParam, FrustumParam, PathParam, BBoxParam, EdgesParam} && CheckboxStatus(cb, param) == Some(1)
    ensures numParams > 1 && CheckboxStatus(cb, param) == Some(1) ==> Selected(cb, param, numParams)
    ensures numParams > 1 && param !in {BodyParam, FrustumParam, PathParam, BBoxParam, EdgesParam} ==>
      !Selected(cb, param, numParams)
  {
  }

  /** The value reset_other_preview_options writes to one sibling option. */
  function ResetValue(on: bool, option: string): (v: string)
    ensures v == "0" || v == "1"
    ensures v == "1" <==> on && option == Textured
  {
    if on && option == Textured then "1" else "0"
  }

  /** reset_other_preview_options: one write per sibling option, in list order. */
  function ResetOps(n: NodeId, on: bool): (ops: seq<Op>)
    ensures |ops| == |OtherPreviewOptions|
    ensures forall i :: 0 <= i < |ops| ==>
      ops[i] == Put(n, OtherPreviewOptions[i], ResetValue(on, OtherPreviewOptions[i]))
  {
    seq(|OtherPreviewOptions|, i requires 0 <= i < |OtherPreviewOptions| =>
      Put(n, OtherPreviewOptions[i], ResetValue(on, OtherPreviewOptions[i])))
  }

  /** action_on / action_off / action_toggle for one (node, parameter) pair. */
  function ParamOps(a: Action, n: NodeId, param: string, numParams: int, cb: Checkboxes): (ops: seq<Op>)
    ensures forall i :: 0 <= i < |ops| ==> ops[i].node == n
  {
    match a
    case On =>
      if param == MainHidden then ResetOps(n, true) + [Put(n, param, "0")]
      else if Selected(cb, param, numParams) then [Put(n, param, "1")]
      else []
    case Off =>
      if param == MainHidden then ResetOps(n, false) + [Put(n, param, "1")]
      else if Selected(cb, param, numParams) then [Put(n, param, "0")]
      else []
    case Toggle =>
      if Selected(cb, param, numParams) then [Flip(n, param)] else []
    case Other => []
  }

  /** The inner loop of take_action: every parameter of one node, in order. */
  function NodeOps(a: Action, n: NodeId, params: seq<string>, numParams: int, cb: Checkboxes): (ops: seq<Op>)
    ensures forall i :: 0 <= i < |ops| ==> ops[i].node == n
  {
    if params == [] then []
    else NodeOps(a, n, params[..|params| - 1], numParams, cb)
         + ParamOps(a, n, params[|params| - 1], numParams, cb)
  }

  /** take_action: every node in the order given, each with all its parameters. */
  function Plan(a: Action, nodes: seq<NodeId>, params: seq<string>, cb: Checkboxes): (ops: seq<Op>)
    ensures forall i :: 0 <= i < |ops| ==> ops[i].node in nodes
  {
    if nodes == [] then []
    else Plan(a, nodes[..|nodes| - 1], params, cb)
         + NodeOps(a, nodes[|nodes| - 1], params, |params|, cb)
  }

  lemma {:induction false} NodeOpsConcat(a: Action, n: NodeId, p1: seq<string>, p2: seq<string>, numParams: int, cb: Checkboxes)
    ensures NodeOps(a, n, p1 + p2, numParams, cb) == NodeOps(a, n, p1, numParams, cb) + NodeOps(a, n, p2, numParams, cb)
    decreases |p2|
  {
    if p2 == [] {
      assert p1 + p2 == p1;
    } else {
      var init := p2[..|p2| - 1];
      assert (p1 + p2)[..|p1 + p2| - 1] == p1 + init;
      assert (p1 + p2)[|p1 + p2| - 1] == p2[|p2| - 1];
      NodeOpsConcat(a, n, p1, init, numParams, cb);
    }
  }

  lemma {:induction false} PlanConcat(a: Action, ns1: seq<NodeId>, ns2: seq<NodeId>, params: seq<string>, cb: Checkboxes)
    ensures Plan(a, ns1 + ns2, params, cb) == Plan(a, ns1, params, cb) + Plan(a, ns2, params, cb)
    decreases |ns2|
  {
    if ns2 == [] {
      assert ns1 + ns2 == ns1;
    } else {
      var init := ns2[..|ns2| - 1];
      assert (ns1 + ns2)[..|ns1 + ns2| - 1] == ns1 + init;
      assert (ns1 + ns2)[|ns1 + ns2| - 1] == ns2[|ns2| - 1];
      PlanConcat(a, ns1, init, params, cb);
    }
  }
}
