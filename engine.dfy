/**
 * The functions of tg_node_display_options.py that talk to the project, as
 * methods over a Session. Each is proved to leave the world exactly as the
 * corresponding specification in Exec and Actions says.
 */
module Engine {
  import opened Wrappers
  import opened Registry
  import opened Rpc
  import opened Actions
  import opened Exec

  /** A single write, stepped over by a run. */
  lemma RunOne(w: World, op: Op)
    ensures Run(w, [op]) == Step(w, op)
  {
    assert [op][1..] == [];
  }

  /** set_node_param: write, and on an RPC error show a warning and carry on. */
  method SetNodeParam(s: Session, n: NodeId, param: string, value: string)
    modifies s
    ensures s.State() == Write(old(s.State()), n, param, value)
  {
    var err := s.SetParam(n, param, value);
    if err.Some? {
      s.PopupWarning(err.value, Set(n, param, value));
    }
  }

  /** reset_other_preview_options: write the five sibling options in list order. */
  method ResetOtherPreviewOptions(s: Session, n: NodeId, flag: string)
    modifies s
    ensures Run(old(s.State()), ResetOps(n, flag == "on")) == (s.State(), true)
  {
    ghost var w0 := s.State();
    ghost var ops := ResetOps(n, flag == "on");
    var options := OtherPreviewOptions;
    for i := 0 to |options|
      invariant Run(w0, ops[..i]) == (s.State(), true)
    {
      ghost var before := s.State();
      var option := options[i];
      if flag == "on" && option == Textured {
        SetNodeParam(s, n, option, "1");
      } else {
        SetNodeParam(s, n, option, "0");
      }
      assert ops[..i + 1] == ops[..i] + [ops[i]];
      RunAppend(w0, ops[..i], [ops[i]]);
      RunOne(before, ops[i]);
    }
    assert ops[..|options|] == ops;
  }

  /** invert_param_value: read the parameter (an error escapes) and return its complement. */
  method InvertParamValue(s: Session, n: NodeId, param: string) returns (r: Result<string, RpcError>)
    modifies s
    ensures (s.State(), r) == Invert(old(s.State()), n, param)
  {
    var current := s.GetParam(n, param);
    if current.Failure? {
      return current;
    }
    if current.value == "0" {
      r := Success("1");
    } else {
      r := Success("0");
    }
  }

  /** action_on: show the node, or tick on one checked parameter. */
  method ActionOn(s: Session, n: NodeId, param: string, numParams: int, cb: Checkboxes)
    modifies s
    ensures Run(old(s.State()), ParamOps(On, n, param, numParams, cb)) == (s.State(), true)
  {
    ghost var w0 := s.State();
    if param == MainHidden {
      ResetOtherPreviewOptions(s, n, "on");
      ghost var mid := s.State();
      SetNodeParam(s, n, param, "0");
      RunAppend(w0, ResetOps(n, true), [Put(n, param, "0")]);
      RunOne(mid, Put(n, param, "0"));
    } else if (numParams == 1) || (numParams > 1 && CheckboxStatus(cb, param) == Some(1)) {
      SetNodeParam(s, n, param, "1");
      RunOne(w0, Put(n, param, "1"));
    }
  }

  /** action_off: hide the node, or tick off one checked parameter. */
  method ActionOff(s: Session, n: NodeId, param: string, numParams: int, cb: Checkboxes)
    modifies s
    ensures Run(old(s.State()), ParamOps(Off, n, param, numParams, cb)) == (s.State(), true)
  {
    ghost var w0 := s.State();
    if param == MainHidden {
      ResetOtherPreviewOptions(s, n, "off");
      ghost var mid := s.State();
      SetNodeParam(s, n, param, "1");
      RunAppend(w0, ResetOps(n, false), [Put(n, param, "1")]);
      RunOne(mid, Put(n, param, "1"));
    } else if (numParams == 1) || (numParams > 1 && CheckboxStatus(cb, param) == Some(1)) {
      SetNodeParam(s, n, param, "0");
      RunOne(w0, Put(n, param, "0"));
    }
  }

  /** action_toggle: flip one selected parameter; false when the read raised. */
  method ActionToggle(s: Session, n: NodeId, param: string, numParams: int, cb: Checkboxes) returns (ok: bool)
    modifies s
    ensures Run(old(s.State()), ParamOps(Toggle, n, param, numParams, cb)) == (s.State(), ok)
  {
    ghost var w0 := s.State();
    ok := true;
    if (numParams == 1) || (numParams > 1 && CheckboxStatus(cb, param) == Some(1)) {
      RunOne(w0, Flip(n, param));
      var toggled := InvertParamValue(s, n, param);
      if toggled.Failure? {
        return false;
      }
      SetNodeParam(s, n, param, toggled.value);
    }
  }

  /** The plan for the first i+1 nodes extends the plan for the first i. */
  lemma PlanPrefix(a: Action, nodes: seq<NodeId>, i: nat, params: seq<string>, cb: Checkboxes)
    requires i < |nodes|
    ensures Plan(a, nodes[..i + 1], params, cb) == Plan(a, nodes[..i], params, cb) + NodeOps(a, nodes[i], params, |params|, cb)
  {
    assert nodes[..i + 1][..i] == nodes[..i];
  }

  /** The operations of the first j+1 parameters extend those of the first j. */
  lemma NodeOpsPrefix(a: Action, n: NodeId, params: seq<string>, j: nat, cb: Checkboxes)
    requires j < |params|
    ensures NodeOps(a, n, params[..j + 1], |params|, cb)
         == NodeOps(a, n, params[..j], |params|, cb) + ParamOps(a, n, params[j], |params|, cb)
  {
    assert params[..j + 1][..j] == params[..j];
  }

  /** The plan, cut inside node i after parameter j. */
  lemma PlanSplit(a: Action, nodes: seq<NodeId>, i: nat, params: seq<string>, j: nat, cb: Checkboxes)
    requires i < |nodes| && j < |params|
    ensures Plan(a, nodes, params, cb)
         == (Plan(a, nodes[..i], params, cb) + NodeOps(a, nodes[i], params[..j + 1], |params|, cb))
          + (NodeOps(a, nodes[i], params[j + 1..], |params|, cb) + Plan(a, nodes[i + 1..], params, cb))
  {
    var k := |params|;
    var before, first, second, after :=
      Plan(a, nodes[..i], params, cb), NodeOps(a, nodes[i], params[..j + 1], k, cb),
      NodeOps(a, nodes[i], params[j + 1..], k, cb), Plan(a, nodes[i + 1..], params, cb);
    var ps1, ps2 := params[..j + 1], params[j + 1..];
    assert ps1 + ps2 == params;
    NodeOpsConcat(a, nodes[i], ps1, ps2, k, cb);
    assert NodeOps(a, nodes[i], params, k, cb) == first + second;
    var ns1, ns2 := nodes[..i + 1], nodes[i + 1..];
    assert ns1 + ns2 == nodes;
    PlanConcat(a, ns1, ns2, params, cb);
    assert Plan(a, nodes, params, cb) == Plan(a, ns1, params, cb) + after;
    PlanPrefix(a, nodes, i, params, cb);
    assert Plan(a, ns1, params, cb) == before + (first + second);
    Regroup(before, first, second, after);
  }

  lemma Assoc(p: seq<Op>, q: seq<Op>, r: seq<Op>)
    ensures (p + q) + r == p + (q + r)
  {
  }

  lemma Regroup(p: seq<Op>, q: seq<Op>, r: seq<Op>, t: seq<Op>)
    ensures (p + (q + r)) + t == (p + q) + (r + t)
  {
  }

  /** Once a run has stopped inside node i, the rest of the plan changes nothing. */
  lemma StoppedRun(w: World, a: Action, nodes: seq<NodeId>, i: nat, params: seq<string>, j: nat, cb: Checkboxes)
    requires i < |nodes| && j < |params|
    requires !Run(w, Plan(a, nodes[..i], params, cb) + NodeOps(a, nodes[i], params[..j + 1], |params|, cb)).1
    ensures Run(w, Plan(a, nodes, params, cb))
         == Run(w, Plan(a, nodes[..i], params, cb) + NodeOps(a, nodes[i], params[..j + 1], |params|, cb))
  {
    var head := Plan(a, nodes[..i], params, cb) + NodeOps(a, nodes[i], params[..j + 1], |params|, cb);
    var tail := NodeOps(a, nodes[i], params[j + 1..], |params|, cb) + Plan(a, nodes[i + 1..], params, cb);
    PlanSplit(a, nodes, i, params, j, cb);
    RunAppend(w, head, tail);
  }

  /** One step of take_action's inner loop, stated on runs. */
  lemma RunExtend(w: World, prefix: seq<Op>, ops: seq<Op>, mid: World, post: World, ok: bool)
    requires Run(w, prefix) == (mid, true)
    requires Run(mid, ops) == (post, ok)
    ensures Run(w, prefix + ops) == (post, ok)
  {
    RunAppend(w, prefix, ops);
  }

  /**
   * take_action: for each node, for each parameter, the selected action.
   * An action string other than the three names does nothing; a read that
   * raises ends the whole apply (ok is false).
   */
  method TakeAction(s: Session, nodes: seq<NodeId>, params: seq<string>, action: string, cb: Checkboxes)
    returns (ok: bool)
    modifies s
    ensures Run(old(s.State()), Plan(ParseAction(action), nodes, params, cb)) == (s.State(), ok)
  {
    ghost var w0 := s.State();
    ghost var a := ParseAction(action);
    for i := 0 to |nodes|
      invariant Run(w0, Plan(a, nodes[..i], params, cb)) == (s.State(), true)
    {
      var node := nodes[i];
      ghost var done := Plan(a, nodes[..i], params, cb);
      assert Run(w0, done + NodeOps(a, node, params[..0], |params|, cb)) == (s.State(), true) by {
        assert params[..0] == [];
        assert done + NodeOps(a, node, params[..0], |params|, cb) == done;
      }
      for j := 0 to |params|
          invariant Run(w0, done + NodeOps(a, node, params[..j], |params|, cb)) == (s.State(), true)
      {
        var param := params[j];
        ghost var before := s.State();
        var flipped := true;
        if action == "On" {
          ActionOn(s, node, param, |params|, cb);
        } else if action == "Off" {
          ActionOff(s, node, param, |params|, cb);
        } else if action == "Toggle" {
          flipped := ActionToggle(s, node, param, |params|, cb);
        }
        assert Run(w0, done + NodeOps(a, node, params[..j + 1], |params|, cb)) == (s.State(), flipped) by {
          var prefix := done + NodeOps(a, node, params[..j], |params|, cb);
          NodeOpsPrefix(a, node, params, j, cb);
          Assoc(done, NodeOps(a, node, params[..j], |params|, cb), ParamOps(a, node, param, |params|, cb));
          RunExtend(w0, prefix, ParamOps(a, node, param, |params|, cb), before, s.State(), flipped);
        }
        if !flipped {
          assert Run(w0, Plan(a, nodes, params, cb)) == (s.State(), false) by {
            StoppedRun(w0, a, nodes, i, params, j, cb);
          }
          return false;
        }
      }
      assert Run(w0, Plan(a, nodes[..i + 1], params, cb)) == (s.State(), true) by {
        assert params[..|params|] == params;
        PlanPrefix(a, nodes, i, params, cb);
      }
    }
    assert nodes[..|nodes|] == nodes;
    ok := true;
  }

  /** get_nodes_in_class: fetch the class's nodes; on an RPC error, warn and return None. */
  method GetNodesInClass(s: Session, cls: string) returns (r: Option<seq<NodeId>>)
    modifies s
    ensures (s.State(), r) == FetchNodes(old(s.State()), cls)
  {
    var got := s.ChildrenFilteredByClass(cls);
    if got.Failure? {
      s.PopupWarning(got.error, Fetch(cls));
      return None;
    }
    r := Some(got.value);
  }

  /** on_apply: the handler of the Apply button. */
  method OnApply(s: Session, selected: nat, action: string, cb: Checkboxes) returns (ok: bool)
    requires selected < |ClassList()|
    modifies s
    ensures (s.State(), ok) == Apply(old(s.State()), selected, action, cb)
  {
    var selectedClass := ClassList()[selected];
    var params := ParamsFor(selectedClass).value;
    var nodeIds := GetNodesInClass(s, selectedClass);
    if nodeIds.Some? && |nodeIds.value| > 0 {
      ok := TakeAction(s, nodeIds.value, params, action, cb);
    } else {
      ok := true;
    }
  }
}
