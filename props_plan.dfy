/**
 * Properties of what the engine decides to write: the main-hidden write
 * sequences, the checkbox rule, the order of the writes, and the empty plan
 * of an unknown action.
 */
module PlanProperties {
  import opened Wrappers
  import opened Registry
  import opened Rpc
  import opened Actions

  /**
   * On shows a main-hidden node: the five siblings in list order, textured
   * "1" and the rest "0", then main-hidden "0". Off writes all five "0",
   * then main-hidden "1".
   */
  lemma MainHiddenWrites(n: NodeId, numParams: int, cb: Checkboxes)
    ensures ParamOps(On, n, MainHidden, numParams, cb) == [
      Put(n, "preview_options_main_bounding_box", "0"),
      Put(n, "preview_options_main_wireframe", "0"),
      Put(n, "preview_options_wf_bounding_box", "0"),
      Put(n, "preview_options_main_smooth_shaded", "0"),
      Put(n, "preview_options_main_textured", "1"),
      Put(n, "preview_options_main_hidden", "0")]
    ensures ParamOps(Off, n, MainHidden, numParams, cb) == [
      Put(n, "preview_options_main_bounding_box", "0"),
      Put(n, "preview_options_main_wireframe", "0"),
      Put(n, "preview_options_wf_bounding_box", "0"),
      Put(n, "preview_options_main_smooth_shaded", "0"),
      Put(n, "preview_options_main_textured", "0"),
      Put(n, "preview_options_main_hidden", "1")]
  {
  }

  /** Toggle treats main-hidden like any single parameter: one flip, no sibling writes. */
  lemma MainHiddenToggle(n: NodeId, cb: Checkboxes)
    ensures ParamOps(Toggle, n, MainHidden, 1, cb) == [Flip(n, MainHidden)]
  {
  }

  /** The single operation an ordinary selected parameter gets. */
  function SingleOp(a: Action, n: NodeId, param: string): Op
    requires a != Other
  {
    match a
    case On => Put(n, param, "1")
    case Off => Put(n, param, "0")
    case Toggle => Flip(n, param)
  }

  /**
   * An ordinary parameter is acted on exactly when it is the class's only
   * parameter or its checkbox reads 1; an unchecked or unrecognised one in a
   * multi-parameter class gets nothing, whatever the action.
   */
  lemma CheckboxRule(a: Action, n: NodeId, param: string, numParams: int, cb: Checkboxes)
    requires param != MainHidden && a != Other
    ensures numParams == 1 ==> ParamOps(a, n, param, numParams, cb) == [SingleOp(a, n, param)]
    ensures numParams > 1 && CheckboxStatus(cb, param) == Some(1) ==>
      ParamOps(a, n, param, numParams, cb) == [SingleOp(a, n, param)]
    ensures numParams > 1 && CheckboxStatus(cb, param) != Some(1) ==> ParamOps(a, n, param, numParams, cb) == []
  {
  }

  /** take_action's match has no default case: any other action string writes nothing. */
  lemma {:induction false} UnknownActionDoesNothing(nodes: seq<NodeId>, params: seq<string>, cb: Checkboxes)
    ensures Plan(Other, nodes, params, cb) == []
    decreases |nodes|
  {
    if nodes != [] {
      UnknownActionNodeDoesNothing(nodes[|nodes| - 1], params, |params|, cb);
      UnknownActionDoesNothing(nodes[..|nodes| - 1], params, cb);
    }
  }

  lemma {:induction false} UnknownActionNodeDoesNothing(n: NodeId, params: seq<string>, numParams: int, cb: Checkboxes)
    ensures NodeOps(Other, n, params, numParams, cb) == []
    decreases |params|
  {
    if params != [] {
      UnknownActionNodeDoesNothing(n, params[..|params| - 1], numParams, cb);
    }
  }

  /**
   * What an operation may address: a selected registered parameter of the
   * class (main-hidden always counts as selected), or, for On and Off only, a
   * sibling option of main-hidden.
   */
  predicate Addresses(a: Action, nodes: seq<NodeId>, params: seq<string>, cb: Checkboxes, op: Op) {
    && op.node in nodes
    && (op.Flip? <==> a == Toggle)
    && ((op.param in params && (op.param == MainHidden || Selected(cb, op.param, |params|)))
        || (op.param in OtherPreviewOptions && MainHidden in params && (a == On || a == Off)))
  }

  lemma {:induction false} NodeOpsAddress(a: Action, nodes: seq<NodeId>, n: NodeId, all: seq<string>, params: seq<string>, cb: Checkboxes)
    requires n in nodes
    requires forall q :: q in params ==> q in all
    ensures forall i :: 0 <= i < |NodeOps(a, n, params, |all|, cb)| ==>
      Addresses(a, nodes, all, cb, NodeOps(a, n, params, |all|, cb)[i])
    decreases |params|
  {
    if params != [] {
      var init := params[..|params| - 1];
      NodeOpsAddress(a, nodes, n, all, init, cb);
      assert params[|params| - 1] in all;
    }
  }

  /**
   * Nothing outside the selection is written: every operation of a plan is
   * on one of the given nodes and addresses a selected parameter of the
   * class or, for On and Off, a main-hidden sibling; flips occur under
   * Toggle only.
   */
  lemma {:induction false} PlanAddresses(a: Action, nodes: seq<NodeId>, params: seq<string>, cb: Checkboxes)
    ensures forall i :: 0 <= i < |Plan(a, nodes, params, cb)| ==> Addresses(a, nodes, params, cb, Plan(a, nodes, params, cb)[i])
    decreases |nodes|
  {
    if nodes != [] {
      var init := nodes[..|nodes| - 1];
      PlanAddresses(a, init, params, cb);
      forall i | 0 <= i < |Plan(a, init, params, cb)|
        ensures Addresses(a, nodes, params, cb, Plan(a, init, params, cb)[i])
      {
        assert Addresses(a, init, params, cb, Plan(a, init, params, cb)[i]);
      }
      NodeOpsAddress(a, nodes, nodes[|nodes| - 1], params, params, cb);
    }
  }

  /**
   * In a multi-parameter class an unchecked (or unrecognised) parameter is
   * never written, under any action, unless it is a main-hidden sibling.
   */
  lemma UncheckedNeverWritten(a: Action, nodes: seq<NodeId>, params: seq<string>, cb: Checkboxes, param: string)
    requires |params| > 1 && param != MainHidden && CheckboxStatus(cb, param) != Some(1)
    requires MainHidden in params ==> param !in OtherPreviewOptions
    ensures forall op :: op in Plan(a, nodes, params, cb) ==> op.param != param
  {
    PlanAddresses(a, nodes, params, cb);
  }

  /** Every node of a plan gets the same number of operations. */
  lemma {:induction false} NodeOpsLength(a: Action, n: NodeId, m: NodeId, params: seq<string>, numParams: int, cb: Checkboxes)
    ensures |NodeOps(a, n, params, numParams, cb)| == |NodeOps(a, m, params, numParams, cb)|
    decreases |params|
  {
    if params != [] {
      NodeOpsLength(a, n, m, params[..|params| - 1], numParams, cb);
    }
  }

  lemma MulSucc(m: nat, k: nat)
    ensures (m + 1) * k == m * k + k
  {
  }

  lemma ProductNat(x: nat, y: nat)
    ensures 0 <= x * y
  {
  }

  lemma {:induction false} PlanLength(a: Action, nodes: seq<NodeId>, params: seq<string>, cb: Checkboxes)
    ensures |Plan(a, nodes, params, cb)| == |nodes| * |NodeOps(a, 0, params, |params|, cb)|
    decreases |nodes|
  {
    if nodes != [] {
      var last := |nodes| - 1;
      var size := |NodeOps(a, 0, params, |params|, cb)|;
      PlanLength(a, nodes[..last], params, cb);
      NodeOpsLength(a, nodes[last], 0, params, |params|, cb);
      assert |Plan(a, nodes, params, cb)| == last * size + size;
      MulSucc(last, size);
    }
  }

  /**
   * Node-major order: the operations for the nodes before node i, then all
   * of node i's operations, then those for the nodes after it.
   */
  lemma PlanNodeMajor(a: Action, nodes: seq<NodeId>, params: seq<string>, cb: Checkboxes, i: nat)
    requires i < |nodes|
    ensures Plan(a, nodes, params, cb)
         == Plan(a, nodes[..i], params, cb) + NodeOps(a, nodes[i], params, |params|, cb) + Plan(a, nodes[i + 1..], params, cb)
  {
    var ns1, ns2 := nodes[..i + 1], nodes[i + 1..];
    assert ns1 + ns2 == nodes;
    PlanConcat(a, ns1, ns2, params, cb);
    assert ns1[..i] == nodes[..i];
  }

  /** Inside a node, registry order: the parameters before j, then j, then the rest. */
  lemma NodeOpsParamMajor(a: Action, n: NodeId, params: seq<string>, numParams: int, cb: Checkboxes, j: nat)
    requires j < |params|
    ensures NodeOps(a, n, params, numParams, cb)
         == NodeOps(a, n, params[..j], numParams, cb) + ParamOps(a, n, params[j], numParams, cb)
          + NodeOps(a, n, params[j + 1..], numParams, cb)
  {
    var ps1, ps2 := params[..j + 1], params[j + 1..];
    assert ps1 + ps2 == params;
    NodeOpsConcat(a, n, ps1, ps2, numParams, cb);
    assert ps1[..j] == params[..j];
  }

  /** Node i's block starts at i times the per-node count. */
  lemma {:induction false} PlanBlock(a: Action, nodes: seq<NodeId>, params: seq<string>, cb: Checkboxes, i: nat)
    requires i < |nodes|
    ensures var size := |NodeOps(a, 0, params, |params|, cb)|;
      && i * size + size <= |Plan(a, nodes, params, cb)|
      && Plan(a, nodes, params, cb)[i * size .. i * size + size] == NodeOps(a, nodes[i], params, |params|, cb)
  {
    var size := |NodeOps(a, 0, params, |params|, cb)|;
    var head, mid, tail := Plan(a, nodes[..i], params, cb), NodeOps(a, nodes[i], params, |params|, cb), Plan(a, nodes[i + 1..], params, cb);
    PlanNodeMajor(a, nodes, params, cb, i);
    PlanLength(a, nodes[..i], params, cb);
    NodeOpsLength(a, nodes[i], 0, params, |params|, cb);
    assert |head| == i * size && |mid| == size;
    assert (head + mid + tail)[|head| .. |head| + |mid|] == mid;
  }

  /** Every parameter is an ordinary one that the action applies to. */
  predicate AllSelected(cb: Checkboxes, params: seq<string>, numParams: int) {
    forall j :: 0 <= j < |params| ==> params[j] != MainHidden && Selected(cb, params[j], numParams)
  }

  /** The parameters of one node in registry order, one operation each when all are selected. */
  lemma {:induction false} NodeOpsOnePerParam(a: Action, n: NodeId, params: seq<string>, numParams: int, cb: Checkboxes)
    requires a != Other
    requires AllSelected(cb, params, numParams)
    ensures |NodeOps(a, n, params, numParams, cb)| == |params|
    ensures forall j :: 0 <= j < |params| ==> NodeOps(a, n, params, numParams, cb)[j] == SingleOp(a, n, params[j])
    decreases |params|
  {
    if params != [] {
      var last := |params| - 1;
      var init := params[..last];
      NodeOpsOnePerParam(a, n, init, numParams, cb);
      var head := NodeOps(a, n, init, numParams, cb);
      var one := ParamOps(a, n, params[last], numParams, cb);
      assert one == [SingleOp(a, n, params[last])];
      assert NodeOps(a, n, params, numParams, cb) == head + one;
      forall j | 0 <= j < |params|
        ensures (head + one)[j] == SingleOp(a, n, params[j])
      {
        if j < last {
          assert (head + one)[j] == head[j];
          assert init[j] == params[j];
        }
      }
    }
  }

  /**
   * The exact write order of an apply when every parameter is selected and
   * none is main-hidden: operation number i * |params| + j is the action on
   * parameter j of node i.
   */
  lemma PlanOrder(a: Action, nodes: seq<NodeId>, params: seq<string>, cb: Checkboxes)
    requires a != Other
    requires AllSelected(cb, params, |params|)
    ensures |Plan(a, nodes, params, cb)| == |nodes| * |params|
    ensures forall i, j :: 0 <= i < |nodes| && 0 <= j < |params| ==>
      OpAt(Plan(a, nodes, params, cb), i * |params| + j, SingleOp(a, nodes[i], params[j]))
  {
    NodeOpsOnePerParam(a, 0, params, |params|, cb);
    PlanLength(a, nodes, params, cb);
    forall i, j | 0 <= i < |nodes| && 0 <= j < |params|
      ensures OpAt(Plan(a, nodes, params, cb), i * |params| + j, SingleOp(a, nodes[i], params[j]))
    {
      PlanAt(a, nodes, params, cb, i, j);
    }
  }

  /** Operation number k of a list is op. */
  predicate OpAt(ops: seq<Op>, k: int, op: Op) {
    0 <= k < |ops| && ops[k] == op
  }

  lemma PlanAt(a: Action, nodes: seq<NodeId>, params: seq<string>, cb: Checkboxes, i: nat, j: nat)
    requires a != Other
    requires AllSelected(cb, params, |params|)
    requires i < |nodes| && j < |params|
    ensures OpAt(Plan(a, nodes, params, cb), i * |params| + j, SingleOp(a, nodes[i], params[j]))
  {
    var mine := NodeOps(a, nodes[i], params, |params|, cb);
    SelectedBlock(a, nodes, params, cb, i);
    ProductNat(i, |params|);
    BlockAt(Plan(a, nodes, params, cb), mine, i * |params|, j, SingleOp(a, nodes[i], params[j]));
  }

  /** With every parameter selected, node i's block has one operation per parameter. */
  lemma SelectedBlock(a: Action, nodes: seq<NodeId>, params: seq<string>, cb: Checkboxes, i: nat)
    requires a != Other
    requires AllSelected(cb, params, |params|)
    requires i < |nodes|
    ensures i * |params| + |params| <= |Plan(a, nodes, params, cb)|
    ensures Plan(a, nodes, params, cb)[i * |params| .. i * |params| + |params|] == NodeOps(a, nodes[i], params, |params|, cb)
    ensures |NodeOps(a, nodes[i], params, |params|, cb)| == |params|
    ensures forall j :: 0 <= j < |params| ==> NodeOps(a, nodes[i], params, |params|, cb)[j] == SingleOp(a, nodes[i], params[j])
  {
    NodeOpsOnePerParam(a, 0, params, |params|, cb);
    NodeOpsOnePerParam(a, nodes[i], params, |params|, cb);
    PlanBlock(a, nodes, params, cb, i);
  }

  /** An element of a block that is a slice of a list sits at the block's offset. */
  lemma BlockAt(all: seq<Op>, block: seq<Op>, base: nat, j: nat, op: Op)
    requires base + |block| <= |all| && all[base .. base + |block|] == block
    requires j < |block| && block[j] == op
    ensures OpAt(all, base + j, op)
  {
    assert all[base .. base + |block|][j] == all[base + j];
  }

  /**
   * Two cameras, body and path checked, frustum unchecked, Toggle: four
   * flips, body then path on the first camera, then on the second.
   */
  lemma CameraToggleExample(cam1: NodeId, cam2: NodeId, boundingBox: int, profileEdge: int)
    ensures var cb := Checkboxes(boundingBox, profileEdge, 1, 0, 1);
      Plan(Toggle, [cam1, cam2], [BodyParam, FrustumParam, PathParam], cb)
        == [Flip(cam1, BodyParam), Flip(cam1, PathParam), Flip(cam2, BodyParam), Flip(cam2, PathParam)]
  {
    var cb := Checkboxes(boundingBox, profileEdge, 1, 0, 1);
    var params := [BodyParam, FrustumParam, PathParam];
    forall n: NodeId ensures NodeOps(Toggle, n, params, 3, cb) == [Flip(n, BodyParam), Flip(n, PathParam)] {
      assert params[..2] == [BodyParam, FrustumParam];
      assert params[..2][..1] == [BodyParam];
      assert [BodyParam][..0] == [];
      assert NodeOps(Toggle, n, [BodyParam], 3, cb) == [Flip(n, BodyParam)];
      assert ParamOps(Toggle, n, FrustumParam, 3, cb) == [];
      assert NodeOps(Toggle, n, params[..2], 3, cb) == [Flip(n, BodyParam)];
    }
    assert [cam1, cam2][..1] == [cam1];
    assert [cam1][..0] == [];
    assert Plan(Toggle, [cam1], params, cb) == NodeOps(Toggle, cam1, params, 3, cb);
    assert Plan(Toggle, [cam1, cam2], params, cb)
        == Plan(Toggle, [cam1], params, cb) + NodeOps(Toggle, cam2, params, 3, cb);
  }
}
