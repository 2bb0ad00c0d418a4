/**
 * Properties of on_apply: the fetch guard, and which parameters of which
 * nodes one press of Apply can change.
 */
module ApplyProperties {
  import opened Wrappers
  import opened Registry
  import opened Rpc
  import opened Actions
  import opened Exec
  import opened PlanProperties
  import opened ExecProperties

  /** A failed fetch is reported by one popup; nothing is read or written. */
  lemma FetchFailureWritesNothing(w: World, selected: nat, action: string, cb: Checkboxes)
    requires selected < |ClassList()|
    requires |w.calls| in w.faults
    ensures var cls := ClassList()[selected]; var r := Apply(w, selected, action, cb);
      && r.1 && r.0.params == w.params
      && r.0.calls == w.calls + [Fetch(cls)]
      && r.0.warnings == w.warnings + [Warning(w.faults[|w.calls|], Fetch(cls))]
  {
  }

  /**
   * After a successful fetch, on_apply runs take_action over every node of
   * the class, in project order; for a class with no nodes the guard skips
   * take_action, which would have done nothing anyway.
   */
  lemma ApplyRunsPlan(w: World, selected: nat, action: string, cb: Checkboxes)
    requires selected < |ClassList()|
    requires |w.calls| !in w.faults
    ensures var cls := ClassList()[selected];
      Apply(w, selected, action, cb)
        == Run(Log(w, Fetch(cls)), Plan(ParseAction(action), NodesOfClass(w.classes, cls), ParamsFor(cls).value, cb))
  {
    var cls := ClassList()[selected];
    if NodesOfClass(w.classes, cls) == [] {
      assert Plan(ParseAction(action), [], ParamsFor(cls).value, cb) == [];
    }
  }

  /** A class with no nodes in the project: one fetch, no write, no popup. */
  lemma EmptyClassWritesNothing(w: World, selected: nat, action: string, cb: Checkboxes)
    requires selected < |ClassList()|
    requires |w.calls| !in w.faults
    requires forall n :: 0 <= n < |w.classes| ==> w.classes[n] != ClassList()[selected]
    ensures var r := Apply(w, selected, action, cb);
      r.1 && r.0.params == w.params && r.0.warnings == w.warnings
      && r.0.calls == w.calls + [Fetch(ClassList()[selected])]
  {
  }

  /**
   * on_apply changes only nodes of the selected class, and on them only a
   * parameter the class registers that is main-hidden or ticked (or the only
   * one), or, for On and Off on a main-hidden class, one of the five other
   * preview options.
   */
  lemma ApplyChangesOnlyAddressed(w: World, selected: nat, action: string, cb: Checkboxes, n: NodeId, q: string)
    requires selected < |ClassList()|
    requires n < |w.params|
    requires !SameAt(Apply(w, selected, action, cb).0.params[n], w.params[n], q)
    ensures var cls := ClassList()[selected]; var params := ParamsFor(cls).value;
      && n < |w.classes| && w.classes[n] == cls
      && ((q in params && (q == MainHidden || Selected(cb, q, |params|)))
          || (q in OtherPreviewOptions && MainHidden in params && ParseAction(action) in {On, Off}))
  {
    var cls := ClassList()[selected];
    var params := ParamsFor(cls).value;
    var a := ParseAction(action);
    if |w.calls| in w.faults {
      FetchFailureWritesNothing(w, selected, action, cb);
    } else {
      var nodes := NodesOfClass(w.classes, cls);
      var plan := Plan(a, nodes, params, cb);
      var w' := Log(w, Fetch(cls));
      ApplyRunsPlan(w, selected, action, cb);
      RunFrame(w', plan);
      assert (n, q) in Targets(plan);
      var i :| 0 <= i < |plan| && (n, q) == (plan[i].node, plan[i].param);
      PlanAddresses(a, nodes, params, cb);
      assert Addresses(a, nodes, params, cb, plan[i]);
    }
  }

  /**
   * Pressing Apply twice with On (or Off): when no RPC call of the first
   * press raises, the second press changes no parameter, whichever of its
   * own calls raise.
   */
  lemma ApplyOnOffIdempotent(w: World, selected: nat, action: string, cb: Checkboxes)
    requires selected < |ClassList()|
    requires ParseAction(action) == On || ParseAction(action) == Off
    requires forall k :: |w.calls| <= k < |Apply(w, selected, action, cb).0.calls| ==> k !in w.faults
    ensures var once := Apply(w, selected, action, cb).0;
      Apply(once, selected, action, cb).0.params == once.params
  {
    var cls := ClassList()[selected];
    var a := ParseAction(action);
    var params := ParamsFor(cls).value;
    var plan := Plan(a, NodesOfClass(w.classes, cls), params, cb);
    var w1 := Log(w, Fetch(cls));
    ConstantPlans(a, NodesOfClass(w.classes, cls), params, cb);
    assert |w.calls| !in w.faults by {
      assert |Apply(w, selected, action, cb).0.calls| >= |w1.calls|;
    }
    ApplyRunsPlan(w, selected, action, cb);
    WritesNeverStop(w1, plan);
    var once := Run(w1, plan).0;
    assert Quiet(w1, |plan|);
    OnOffSettles(w1, a, NodesOfClass(w.classes, cls), params, cb);
    if |once.calls| !in once.faults {
      ApplyRunsPlan(once, selected, action, cb);
      RunPutsNoOp(Log(once, Fetch(cls)), plan);
    } else {
      FetchFailureWritesNothing(once, selected, action, cb);
    }
  }
}
