/**
 * Properties of performing a plan: failed writes are reported and skipped
 * without stopping the loop, only the addressed parameters change, and,
 * when no RPC call fails, On and Off are idempotent and Toggle is its own
 * inverse.
 */
module ExecProperties {
  import opened Wrappers
  import opened Registry
  import opened Rpc
  import opened Actions
  import opened Exec
  import opened PlanProperties

  type Params = seq<map<string, string>>

  predicate PutsOnly(ops: seq<Op>) {
    forall i :: 0 <= i < |ops| ==> ops[i].Put?
  }

  /** The set_param call a Put makes. */
  function SetOf(op: Op): Call
    requires op.Put?
  {
    Set(op.node, op.param, op.value)
  }

  /**
   * The warnings a list of writes produces from call number |w.calls| on:
   * one per write whose call raises, naming that call.
   */
  function Reports(w: World, ops: seq<Op>): seq<Warning>
    requires PutsOnly(ops)
    decreases |ops|
  {
    if ops == [] then []
    else
      var e := CallError(w, ops[0].node);
      (if e.Some? then [Warning(e.value, SetOf(ops[0]))] else []) + Reports(Log(w, SetOf(ops[0])), ops[1..])
  }

  /** Reports depends on the world only through its faults, call count and node count. */
  lemma {:induction false} ReportsDependOnShape(w1: World, w2: World, ops: seq<Op>)
    requires PutsOnly(ops)
    requires w1.faults == w2.faults && |w1.calls| == |w2.calls| && |w1.params| == |w2.params|
    ensures Reports(w1, ops) == Reports(w2, ops)
    decreases |ops|
  {
    if ops != [] {
      ReportsDependOnShape(Log(w1, SetOf(ops[0])), Log(w2, SetOf(ops[0])), ops[1..]);
    }
  }

  /**
   * A run of writes never stops: every write is attempted, in order; each
   * one that raises is reported by exactly one warning and skipped.
   */
  lemma {:induction false} WritesNeverStop(w: World, ops: seq<Op>)
    requires PutsOnly(ops)
    ensures Run(w, ops).1
    ensures Run(w, ops).0.calls == w.calls + seq(|ops|, i requires 0 <= i < |ops| => SetOf(ops[i]))
    ensures Run(w, ops).0.warnings == w.warnings + Reports(w, ops)
    decreases |ops|
  {
    if ops != [] {
      var w' := Write(w, ops[0].node, ops[0].param, ops[0].value);
      assert Step(w, ops[0]) == (w', true);
      WritesNeverStop(w', ops[1..]);
      ReportsDependOnShape(w', Log(w, SetOf(ops[0])), ops[1..]);
      var sets := seq(|ops|, i requires 0 <= i < |ops| => SetOf(ops[i]));
      var rest := seq(|ops| - 1, i requires 0 <= i < |ops| - 1 => SetOf(ops[1..][i]));
      assert sets == [SetOf(ops[0])] + rest;
    }
  }

  /** The pairs (node, parameter) a list of operations addresses. */
  function Targets(ops: seq<Op>): set<(NodeId, string)> {
    set i | 0 <= i < |ops| :: (ops[i].node, ops[i].param)
  }

  lemma TargetsCons(ops: seq<Op>)
    requires ops != []
    ensures Targets(ops) == {(ops[0].node, ops[0].param)} + Targets(ops[1..])
  {
    forall t | t in Targets(ops) ensures t in {(ops[0].node, ops[0].param)} + Targets(ops[1..]) {
      var i :| 0 <= i < |ops| && t == (ops[i].node, ops[i].param);
      if i > 0 {
        assert ops[1..][i - 1] == ops[i];
      }
    }
    forall t | t in Targets(ops[1..]) ensures t in Targets(ops) {
      var i :| 0 <= i < |ops[1..]| && t == (ops[1..][i].node, ops[1..][i].param);
      assert ops[i + 1] == ops[1..][i];
    }
  }

  /** Two maps agree on one key: both lack it, or both hold the same value. */
  ghost predicate SameAt(m1: map<string, string>, m2: map<string, string>, q: string) {
    (q in m1 <==> q in m2) && (q in m1 ==> m1[q] == m2[q])
  }

  /** Two projects agree on every (node, parameter) outside t. */
  ghost predicate Agree(p1: Params, p2: Params, t: set<(NodeId, string)>) {
    |p1| == |p2| && forall n, q :: 0 <= n < |p1| && (n, q) !in t ==> SameAt(p1[n], p2[n], q)
  }

  lemma MapsEqual(m1: map<string, string>, m2: map<string, string>)
    requires forall q :: SameAt(m1, m2, q)
    ensures m1 == m2
  {
    assert m1.Keys == m2.Keys by {
      forall q | q in m1.Keys ensures q in m2.Keys { assert SameAt(m1, m2, q); }
      forall q | q in m2.Keys ensures q in m1.Keys { assert SameAt(m1, m2, q); }
    }
    forall q | q in m1 ensures m1[q] == m2[q] { assert SameAt(m1, m2, q); }
  }

  lemma AgreeEverywhere(p1: Params, p2: Params)
    requires Agree(p1, p2, {})
    ensures p1 == p2
  {
    forall n | 0 <= n < |p1| ensures p1[n] == p2[n] {
      forall q ensures SameAt(p1[n], p2[n], q) {
        assert (n, q) !in {};
      }
      MapsEqual(p1[n], p2[n]);
    }
  }

  /**
   * Nothing else changes: after a run, every (node, parameter) that no
   * operation of the list addresses holds what it held before.
   */
  lemma {:induction false} RunFrame(w: World, ops: seq<Op>)
    ensures Agree(Run(w, ops).0.params, w.params, Targets(ops))
    decreases |ops|
  {
    if ops != [] {
      var (w', ok) := Step(w, ops[0]);
      var t0 := (ops[0].node, ops[0].param);
      TargetsCons(ops);
      assert Agree(w'.params, w.params, {t0});
      if ok {
        RunFrame(w', ops[1..]);
      }
    }
  }

  /** A node no operation names keeps all its parameters. */
  lemma {:induction false} RunKeepsOtherNodes(w: World, ops: seq<Op>, n: NodeId)
    requires n < |w.params|
    requires forall i :: 0 <= i < |ops| ==> ops[i].node != n
    ensures Run(w, ops).0.params[n] == w.params[n]
    decreases |ops|
  {
    if ops != [] {
      var (w', ok) := Step(w, ops[0]);
      if ok {
        RunKeepsOtherNodes(w', ops[1..], n);
      }
    }
  }

  /** No RPC call numbered |w.calls| .. |w.calls| + count - 1 raises. */
  predicate Quiet(w: World, count: nat) {
    forall k :: |w.calls| <= k < |w.calls| + count ==> k !in w.faults
  }

  /** The RPC calls a list makes when nothing raises: one per write, two per flip. */
  function CallCount(ops: seq<Op>): nat {
    if ops == [] then 0 else (if ops[0].Flip? then 2 else 1) + CallCount(ops[1..])
  }

  /**
   * The reference semantics when no RPC call raises: a write to a live node
   * sets the value (one to a stale handle is skipped), a flip of a present
   * parameter stores its complement, and a flip that cannot read stops.
   */
  function IdealStep(p: Params, op: Op): (Params, bool) {
    if op.node >= |p| then (p, op.Put?)
    else match op
      case Put(n, q, v) => (p[n := p[n][q := v]], true)
      case Flip(n, q) =>
        if q in p[n] then (p[n := p[n][q := Complement(p[n][q])]], true) else (p, false)
  }

  function Ideal(p: Params, ops: seq<Op>): (r: (Params, bool))
    ensures |r.0| == |p|
    decreases |ops|
  {
    if ops == [] then (p, true)
    else
      var (p', ok) := IdealStep(p, ops[0]);
      if !ok then (p', false) else Ideal(p', ops[1..])
  }

  lemma QuietStep(w: World, op: Op)
    requires Quiet(w, if op.Flip? then 2 else 1)
    ensures Step(w, op).0.params == IdealStep(w.params, op).0
    ensures Step(w, op).1 == IdealStep(w.params, op).1
    ensures Step(w, op).0.faults == w.faults
    ensures Step(w, op).1 ==> |Step(w, op).0.calls| == |w.calls| + (if op.Flip? then 2 else 1)
    ensures |Step(w, op).0.calls| <= |w.calls| + 2
  {
    assert |w.calls| !in w.faults;
    if op.Flip? {
      assert |w.calls| + 1 !in w.faults;
    }
  }

  /**
   * With no failing RPC call, a run does to the project exactly what the
   * reference semantics says, and makes CallCount calls when it completes.
   */
  lemma {:induction false} QuietRun(w: World, ops: seq<Op>)
    requires Quiet(w, CallCount(ops))
    ensures Run(w, ops).0.params == Ideal(w.params, ops).0
    ensures Run(w, ops).1 == Ideal(w.params, ops).1
    ensures Run(w, ops).1 ==> |Run(w, ops).0.calls| == |w.calls| + CallCount(ops)
    decreases |ops|
  {
    if ops != [] {
      QuietStep(w, ops[0]);
      var (w', ok) := Step(w, ops[0]);
      if ok {
        QuietRun(w', ops[1..]);
      }
    }
  }

  lemma {:induction false} PutsCallCount(ops: seq<Op>)
    requires PutsOnly(ops)
    ensures CallCount(ops) == |ops|
    decreases |ops|
  {
    if ops != [] {
      PutsCallCount(ops[1..]);
    }
  }

  /** Writes change only what they address. */
  lemma {:induction false} IdealPutsFrame(p: Params, ops: seq<Op>)
    requires PutsOnly(ops)
    ensures Agree(Ideal(p, ops).0, p, Targets(ops))
    decreases |ops|
  {
    if ops != [] {
      TargetsCons(ops);
      var p' := IdealStep(p, ops[0]).0;
      IdealPutsFrame(p', ops[1..]);
    }
  }

  /**
   * Writes forget what they overwrite: two projects that differ only where
   * the writes land end up identical.
   */
  lemma {:induction false} IdealPutsForget(p1: Params, p2: Params, ops: seq<Op>)
    requires PutsOnly(ops)
    requires Agree(p1, p2, Targets(ops))
    ensures Ideal(p1, ops).0 == Ideal(p2, ops).0
    decreases |ops|
  {
    if ops == [] {
      AgreeEverywhere(p1, p2);
    } else {
      TargetsCons(ops);
      var p1', p2' := IdealStep(p1, ops[0]).0, IdealStep(p2, ops[0]).0;
      assert Agree(p1', p2', Targets(ops[1..])) by {
        forall n, q | 0 <= n < |p1'| && (n, q) !in Targets(ops[1..])
          ensures SameAt(p1'[n], p2'[n], q)
        {
          if (n, q) != (ops[0].node, ops[0].param) {
            assert SameAt(p1[n], p2[n], q);
          }
        }
      }
      IdealPutsForget(p1', p2', ops[1..]);
    }
  }

  lemma AgreeSymmetric(p1: Params, p2: Params, t: set<(NodeId, string)>)
    requires Agree(p1, p2, t)
    ensures Agree(p2, p1, t)
  {
    forall n, q | 0 <= n < |p2| && (n, q) !in t ensures SameAt(p2[n], p1[n], q) {
      assert SameAt(p1[n], p2[n], q);
    }
  }

  /** Applying the same writes twice leaves what applying them once leaves. */
  lemma IdealPutsIdempotent(p: Params, ops: seq<Op>)
    requires PutsOnly(ops)
    ensures Ideal(Ideal(p, ops).0, ops).0 == Ideal(p, ops).0
  {
    IdealPutsFrame(p, ops);
    AgreeSymmetric(Ideal(p, ops).0, p, Targets(ops));
    IdealPutsForget(Ideal(p, ops).0, p, ops);
  }

  /** On and Off plans only write constants; only Toggle reads. */
  lemma ConstantPlans(a: Action, nodes: seq<NodeId>, params: seq<string>, cb: Checkboxes)
    requires a != Toggle
    ensures PutsOnly(Plan(a, nodes, params, cb))
  {
    PlanAddresses(a, nodes, params, cb);
    var plan := Plan(a, nodes, params, cb);
    forall i | 0 <= i < |plan| ensures plan[i].Put? {
      assert Addresses(a, nodes, params, cb, plan[i]);
    }
  }

  /**
   * The one value an On or Off plan ever writes to a parameter: main-hidden
   * gets "0" for On and "1" for Off, a sibling of a main-hidden class gets
   * its reset value, and any other parameter "1" for On and "0" for Off.
   */
  function PlanValue(a: Action, params: seq<string>, q: string): string {
    if q == MainHidden then (if a == On then "0" else "1")
    else if q in OtherPreviewOptions && MainHidden in params then ResetValue(a == On, q)
    else if a == On then "1" else "0"
  }

  ghost predicate ValuedBy(a: Action, params: seq<string>, ops: seq<Op>) {
    forall i :: 0 <= i < |ops| ==> ops[i].Put? && ops[i].value == PlanValue(a, params, ops[i].param)
  }

  /**
   * A sibling option is never also written as an ordinary parameter: in a
   * one-parameter class it is not beside main-hidden, and in a larger class
   * it has no checkbox, so it is never selected.
   */
  lemma ParamOpsValues(a: Action, n: NodeId, param: string, all: seq<string>, cb: Checkboxes)
    requires a == On || a == Off
    requires param in all
    ensures ValuedBy(a, all, ParamOps(a, n, param, |all|, cb))
  {
    var ops := ParamOps(a, n, param, |all|, cb);
    if param == MainHidden {
      var resets := ResetOps(n, a == On);
      assert ops == resets + [Put(n, MainHidden, if a == On then "0" else "1")];
      forall i | 0 <= i < |ops| ensures ops[i].Put? && ops[i].value == PlanValue(a, all, ops[i].param) {
        if i < |resets| {
          assert ops[i] == resets[i];
          assert OtherPreviewOptions[i] != MainHidden && OtherPreviewOptions[i] in OtherPreviewOptions;
        }
      }
    } else {
      assert param in OtherPreviewOptions ==> CheckboxStatus(cb, param).None?;
      assert |all| == 1 ==> all == [all[0]];
    }
  }

  lemma {:induction false} NodeOpsValues(a: Action, n: NodeId, all: seq<string>, ps: seq<string>, cb: Checkboxes)
    requires a == On || a == Off
    requires forall q :: q in ps ==> q in all
    ensures ValuedBy(a, all, NodeOps(a, n, ps, |all|, cb))
    decreases |ps|
  {
    if ps != [] {
      var init, last := ps[..|ps| - 1], ps[|ps| - 1];
      NodeOpsValues(a, n, all, init, cb);
      ParamOpsValues(a, n, last, all, cb);
      var xs, ys := NodeOps(a, n, init, |all|, cb), ParamOps(a, n, last, |all|, cb);
      var ops := xs + ys;
      forall i | 0 <= i < |ops| ensures ops[i].Put? && ops[i].value == PlanValue(a, all, ops[i].param) {
        if i < |xs| {
          assert ops[i] == xs[i];
        } else {
          assert ops[i] == ys[i - |xs|];
        }
      }
    }
  }

  /** Every write of an On or Off plan puts PlanValue at its parameter. */
  lemma {:induction false} PlanValues(a: Action, nodes: seq<NodeId>, params: seq<string>, cb: Checkboxes)
    requires a == On || a == Off
    ensures ValuedBy(a, params, Plan(a, nodes, params, cb))
    decreases |nodes|
  {
    if nodes != [] {
      var init, last := nodes[..|nodes| - 1], nodes[|nodes| - 1];
      PlanValues(a, init, params, cb);
      NodeOpsValues(a, last, params, params, cb);
      var xs, ys := Plan(a, init, params, cb), NodeOps(a, last, params, |params|, cb);
      var ops := xs + ys;
      forall i | 0 <= i < |ops| ensures ops[i].Put? && ops[i].value == PlanValue(a, params, ops[i].param) {
        if i < |xs| {
          assert ops[i] == xs[i];
        } else {
          assert ops[i] == ys[i - |xs|];
        }
      }
    }
  }

  /** Writes that agree: two writes to the same pair write the same value. */
  ghost predicate Consistent(ops: seq<Op>) {
    forall i, j :: 0 <= i < |ops| && 0 <= j < |ops| && ops[i].Put? && ops[j].Put? && Key(ops[i]) == Key(ops[j])
      ==> ops[i].value == ops[j].value
  }

  /** p already holds what the write op stores, when op names a live node. */
  ghost predicate HoldsAt(p: Params, op: Op)
    requires op.Put?
  {
    op.node < |p| ==> op.param in p[op.node] && p[op.node][op.param] == op.value
  }

  ghost predicate Holds(p: Params, ops: seq<Op>)
    requires PutsOnly(ops)
  {
    forall i :: 0 <= i < |ops| ==> HoldsAt(p, ops[i])
  }

  /** After consistent writes that all succeed, each written pair holds its value. */
  lemma {:induction false} IdealPutsHold(p: Params, ops: seq<Op>)
    requires PutsOnly(ops) && Consistent(ops)
    ensures Holds(Ideal(p, ops).0, ops)
    decreases |ops|
  {
    if ops != [] {
      var p' := IdealStep(p, ops[0]).0;
      var rest := ops[1..];
      assert Consistent(rest) by {
        forall i, j | 0 <= i < |rest| && 0 <= j < |rest| && rest[i].Put? && rest[j].Put? && Key(rest[i]) == Key(rest[j])
          ensures rest[i].value == rest[j].value
        {
          assert rest[i] == ops[i + 1] && rest[j] == ops[j + 1];
        }
      }
      IdealPutsHold(p', rest);
      IdealPutsFrame(p', rest);
      var r := Ideal(p', rest).0;
      assert Ideal(p, ops).0 == r;
      forall i | 0 <= i < |ops| ensures HoldsAt(r, ops[i]) {
        if i > 0 {
          assert ops[i] == rest[i - 1];
        } else if Key(ops[0]) in Targets(rest) {
          var j :| 0 <= j < |rest| && Key(ops[0]) == (rest[j].node, rest[j].param);
          assert rest[j] == ops[j + 1];
          assert HoldsAt(r, rest[j]);
        } else {
          var n, q := ops[0].node, ops[0].param;
          if n < |r| {
            assert SameAt(r[n], p'[n], q);
          }
        }
      }
    }
  }

  /**
   * Writes of values the project already holds change nothing, whichever
   * of their RPC calls raise.
   */
  lemma {:induction false} RunPutsNoOp(w: World, ops: seq<Op>)
    requires PutsOnly(ops) && Holds(w.params, ops)
    ensures Run(w, ops).0.params == w.params
    decreases |ops|
  {
    if ops != [] {
      var n, q, v := ops[0].node, ops[0].param, ops[0].value;
      var w' := Write(w, n, q, v);
      assert Step(w, ops[0]) == (w', true);
      if CallError(w, n).None? {
        assert HoldsAt(w.params, ops[0]);
        assert w.params[n][q := v] == w.params[n];
      }
      assert w'.params == w.params;
      assert Holds(w'.params, ops[1..]) by {
        forall i | 0 <= i < |ops[1..]| ensures HoldsAt(w'.params, ops[1..][i]) {
          assert ops[1..][i] == ops[i + 1];
        }
      }
      RunPutsNoOp(w', ops[1..]);
    }
  }

  /**
   * After an On or Off whose RPC calls all succeed, every parameter the
   * plan writes already holds the value the plan writes there.
   */
  lemma OnOffSettles(w: World, a: Action, nodes: seq<NodeId>, params: seq<string>, cb: Checkboxes)
    requires a == On || a == Off
    requires Quiet(w, |Plan(a, nodes, params, cb)|)
    ensures PutsOnly(Plan(a, nodes, params, cb))
    ensures Holds(Run(w, Plan(a, nodes, params, cb)).0.params, Plan(a, nodes, params, cb))
  {
    var plan := Plan(a, nodes, params, cb);
    ConstantPlans(a, nodes, params, cb);
    PutsCallCount(plan);
    QuietRun(w, plan);
    PlanValues(a, nodes, params, cb);
    IdealPutsHold(w.params, plan);
  }

  /**
   * Idempotence of On and Off: after an apply none of whose RPC calls
   * raises, a second apply of the same action leaves the parameters as they
   * are, whichever of its own calls raise.
   */
  lemma OnOffIdempotent(w: World, a: Action, nodes: seq<NodeId>, params: seq<string>, cb: Checkboxes)
    requires a == On || a == Off
    requires Quiet(w, |Plan(a, nodes, params, cb)|)
    ensures var once := Run(w, Plan(a, nodes, params, cb)).0;
      Run(once, Plan(a, nodes, params, cb)).0.params == once.params
  {
    OnOffSettles(w, a, nodes, params, cb);
    RunPutsNoOp(Run(w, Plan(a, nodes, params, cb)).0, Plan(a, nodes, params, cb));
  }

  /** The (node, parameter) pair an operation addresses. */
  function Key(op: Op): (NodeId, string) {
    (op.node, op.param)
  }

  /** No two operations address the same (node, parameter). */
  ghost predicate Distinct(ops: seq<Op>) {
    forall i, j :: 0 <= i < j < |ops| ==> Key(ops[i]) != Key(ops[j])
  }

  lemma DistinctConcat(xs: seq<Op>, ys: seq<Op>)
    requires Distinct(xs) && Distinct(ys)
    requires forall i, j :: 0 <= i < |xs| && 0 <= j < |ys| ==> Key(xs[i]) != Key(ys[j])
    ensures Distinct(xs + ys)
  {
    var zs := xs + ys;
    forall i, j | 0 <= i < j < |zs| ensures Key(zs[i]) != Key(zs[j]) {
      if j < |xs| {
        assert zs[i] == xs[i] && zs[j] == xs[j];
      } else if i < |xs| {
        assert zs[i] == xs[i] && zs[j] == ys[j - |xs|];
      } else {
        assert zs[i] == ys[i - |xs|] && zs[j] == ys[j - |xs|];
      }
    }
  }

  /** The toggle pass over one node flips distinct parameters of that node. */
  lemma {:induction false} ToggleNodeOps(n: NodeId, params: seq<string>, k: int, cb: Checkboxes)
    requires NoRepeats(params)
    ensures var ops := NodeOps(Toggle, n, params, k, cb);
      Distinct(ops) && forall i :: 0 <= i < |ops| ==> ops[i].Flip? && ops[i].param in params
    decreases |params|
  {
    if params != [] {
      var init := params[..|params| - 1];
      var last := params[|params| - 1];
      ToggleNodeOps(n, init, k, cb);
      var xs := NodeOps(Toggle, n, init, k, cb);
      var ys := ParamOps(Toggle, n, last, k, cb);
      assert last !in init by {
        forall i | 0 <= i < |init| ensures init[i] != last {
          assert init[i] == params[i];
        }
      }
      DistinctConcat(xs, ys);
    }
  }

  /** With distinct nodes and parameters, the toggle plan flips distinct pairs. */
  lemma {:induction false} TogglePlanDistinct(nodes: seq<NodeId>, params: seq<string>, cb: Checkboxes)
    requires NoRepeats(nodes) && NoRepeats(params)
    ensures var ops := Plan(Toggle, nodes, params, cb);
      Distinct(ops) && forall i :: 0 <= i < |ops| ==> ops[i].Flip? && ops[i].param in params
    decreases |nodes|
  {
    if nodes != [] {
      var init := nodes[..|nodes| - 1];
      var last := nodes[|nodes| - 1];
      TogglePlanDistinct(init, params, cb);
      ToggleNodeOps(last, params, |params|, cb);
      var xs := Plan(Toggle, init, params, cb);
      var ys := NodeOps(Toggle, last, params, |params|, cb);
      assert last !in init by {
        forall i | 0 <= i < |init| ensures init[i] != last {
          assert init[i] == nodes[i];
        }
      }
      DistinctConcat(xs, ys);
    }
  }

  /** Every flip of the list names a live node and a parameter it has. */
  ghost predicate Readable(p: Params, ops: seq<Op>) {
    forall i :: 0 <= i < |ops| ==> ops[i].node < |p| && ops[i].param in p[ops[i].node]
  }

  /** r holds, at the pair op addresses, the complement of what p holds. */
  ghost predicate Flipped(r: Params, p: Params, op: Op) {
    && op.node < |p| == |r| && op.param in p[op.node] && op.param in r[op.node]
    && r[op.node][op.param] == Complement(p[op.node][op.param])
  }

  /**
   * Flipping distinct readable pairs completes, stores the complement of
   * every one of them and changes nothing else.
   */
  lemma {:induction false} IdealFlips(p: Params, ops: seq<Op>)
    requires forall i :: 0 <= i < |ops| ==> ops[i].Flip?
    requires Distinct(ops) && Readable(p, ops)
    ensures Ideal(p, ops).1
    ensures Agree(Ideal(p, ops).0, p, Targets(ops))
    ensures forall i :: 0 <= i < |ops| ==> Flipped(Ideal(p, ops).0, p, ops[i])
    decreases |ops|
  {
    if ops != [] {
      var n, q := ops[0].node, ops[0].param;
      var p' := p[n := p[n][q := Complement(p[n][q])]];
      assert IdealStep(p, ops[0]) == (p', true);
      var rest := ops[1..];
      assert Distinct(rest) by {
        forall i, j | 0 <= i < j < |rest| ensures Key(rest[i]) != Key(rest[j]) {
          assert rest[i] == ops[i + 1] && rest[j] == ops[j + 1];
        }
      }
      assert Readable(p', rest) by {
        forall i | 0 <= i < |rest| ensures rest[i].node < |p'| && rest[i].param in p'[rest[i].node] {
          assert rest[i] == ops[i + 1];
        }
      }
      IdealFlips(p', rest);
      var r := Ideal(p', rest).0;
      assert Ideal(p, ops).0 == r;
      TargetsCons(ops);
      assert (n, q) !in Targets(rest) by {
        forall i | 0 <= i < |rest| ensures (rest[i].node, rest[i].param) != (n, q) {
          assert rest[i] == ops[i + 1];
          assert Key(ops[0]) != Key(ops[i + 1]);
        }
      }
      forall i | 0 <= i < |ops| ensures Flipped(r, p, ops[i]) {
        if i == 0 {
          assert SameAt(r[n], p'[n], q);
        } else {
          assert ops[i] == rest[i - 1];
          assert Key(ops[0]) != Key(ops[i]);
        }
      }
      forall m, q' | 0 <= m < |r| && (m, q') !in Targets(ops) ensures SameAt(r[m], p[m], q') {
        assert SameAt(r[m], p'[m], q');
      }
    }
  }

  /**
   * Flipping the same distinct pairs twice restores every "0"/"1" value
   * and changes nothing else.
   */
  lemma IdealFlipTwice(p: Params, ops: seq<Op>)
    requires forall i :: 0 <= i < |ops| ==> ops[i].Flip?
    requires Distinct(ops)
    requires forall i :: 0 <= i < |ops| ==> Binary(p, ops[i])
    ensures Ideal(p, ops).1 && Ideal(Ideal(p, ops).0, ops).1
    ensures Ideal(Ideal(p, ops).0, ops).0 == p
  {
    var p1 := Ideal(p, ops).0;
    IdealFlips(p, ops);
    assert Readable(p1, ops) by {
      forall i | 0 <= i < |ops| ensures ops[i].node < |p1| && ops[i].param in p1[ops[i].node] {
        assert Flipped(p1, p, ops[i]);
      }
    }
    IdealFlips(p1, ops);
    var p2 := Ideal(p1, ops).0;
    assert Agree(p2, p, {}) by {
      forall m, q | 0 <= m < |p2| ensures SameAt(p2[m], p[m], q) {
        if (m, q) in Targets(ops) {
          var i :| 0 <= i < |ops| && (m, q) == (ops[i].node, ops[i].param);
          assert Flipped(p2, p1, ops[i]) && Flipped(p1, p, ops[i]) && Binary(p, ops[i]);
        } else {
          assert SameAt(p2[m], p1[m], q) && SameAt(p1[m], p[m], q);
        }
      }
    }
    AgreeEverywhere(p2, p);
  }

  lemma PlanTargetsBinary(p: Params, nodes: seq<NodeId>, params: seq<string>, cb: Checkboxes)
    requires forall i, j :: 0 <= i < |nodes| && 0 <= j < |params| ==>
      nodes[i] < |p| && params[j] in p[nodes[i]] && p[nodes[i]][params[j]] in {"0", "1"}
    ensures var ops := Plan(Toggle, nodes, params, cb);
      forall i :: 0 <= i < |ops| ==> Binary(p, ops[i])
  {
    var ops := Plan(Toggle, nodes, params, cb);
    PlanAddresses(Toggle, nodes, params, cb);
    forall i | 0 <= i < |ops| ensures Binary(p, ops[i]) {
      assert Addresses(Toggle, nodes, params, cb, ops[i]);
      var k :| 0 <= k < |nodes| && nodes[k] == ops[i].node;
      var j :| 0 <= j < |params| && params[j] == ops[i].param;
    }
  }

  /**
   * Toggle is its own inverse: when none of the RPC calls of two toggles
   * raises, the nodes and the class's parameters are listed without
   * repeats, and every (node, parameter) the plan flips is present and
   * holds "0" or "1", both toggles complete and the second restores what
   * the first changed.
   */
  lemma ToggleTwiceRestores(w: World, nodes: seq<NodeId>, params: seq<string>, cb: Checkboxes)
    requires NoRepeats(nodes) && NoRepeats(params)
    requires forall i :: 0 <= i < |Plan(Toggle, nodes, params, cb)| ==> Binary(w.params, Plan(Toggle, nodes, params, cb)[i])
    requires Quiet(w, 4 * |Plan(Toggle, nodes, params, cb)|)
    ensures Run(w, Plan(Toggle, nodes, params, cb)).1
    ensures var once := Run(w, Plan(Toggle, nodes, params, cb)).0;
      Run(once, Plan(Toggle, nodes, params, cb)).1 && Run(once, Plan(Toggle, nodes, params, cb)).0.params == w.params
  {
    var plan := Plan(Toggle, nodes, params, cb);
    TogglePlanDistinct(nodes, params, cb);
    FlipsCallCount(plan);
    IdealFlipTwice(w.params, plan);
    QuietRun(w, plan);
    var once := Run(w, plan).0;
    assert Quiet(once, CallCount(plan));
    QuietRun(once, plan);
  }

  /** The value at the pair op addresses is a checkbox value, "0" or "1". */
  ghost predicate Binary(p: Params, op: Op) {
    op.node < |p| && op.param in p[op.node] && p[op.node][op.param] in {"0", "1"}
  }

  lemma {:induction false} FlipsCallCount(ops: seq<Op>)
    requires forall i :: 0 <= i < |ops| ==> ops[i].Flip?
    ensures CallCount(ops) == 2 * |ops|
    decreases |ops|
  {
    if ops != [] {
      FlipsCallCount(ops[1..]);
    }
  }
}
