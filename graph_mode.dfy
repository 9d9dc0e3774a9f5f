/**
 * The execution-mode state of zfit as `test_modes` (tests/test_graph.py) exercises it:
 * the `graph` and `autograd` flags, the cache of compiled functions keyed by the
 * function's tag and its argument, and when the wrapped body actually runs.
 * Tracing and compilation themselves are not modelled; only whether the body executes.
 */
module GraphMode {
  import opened Wrappers

  /** A compiled-function cache key: the `wraps` tag and the call's argument. */
  datatype Key = Key(tag: string, arg: int)

  /**
   * The process-wide mode flags, the `numerical_grad` option that the mode switches
   * keep in step with `autograd`, and the compiled-function cache.
   */
  datatype Mode = Mode(graph: bool, autograd: bool, numericalGrad: bool, cache: set<Key>)

  /** Graph mode and automatic gradients, nothing compiled yet. */
  const StartupMode := Mode(true, true, false, {})

  /** The mode after an operation, and whether the wrapped body ran. */
  datatype Dispatch = Dispatch(mode: Mode, executed: bool)

  /** A call of a wrapped function: eagerly every time, or through the cache in graph mode. */
  function CallWrapped(m: Mode, key: Key): (d: Dispatch)
    ensures d.mode.graph == m.graph && d.mode.autograd == m.autograd && d.mode.numericalGrad == m.numericalGrad
    // the body runs on every eager call and on a cache miss in graph mode, never on a hit
    ensures d.executed <==> !m.graph || key !in m.cache
    // only a graph-mode call fills the cache, and no call removes an entry
    ensures d.mode.cache == if m.graph then m.cache + {key} else m.cache
  {
    if !m.graph then Dispatch(m, true)
    else if key in m.cache then Dispatch(m, false)
    else Dispatch(m.(cache := m.cache + {key}), true)
  }

  /** The operations of the execution-mode layer. */
  datatype Op =
    | Call(key: Key)
    | SetMode(graph: Option<bool>, autograd: Option<bool>)
    | SetModeDefault
    | ClearGraphCache

  function Apply(m: Mode, op: Op): (d: Dispatch)
    // only a call runs the body
    ensures d.executed ==> op.Call?
    // only a flush empties the cache; the mode switches leave it alone
    ensures !op.ClearGraphCache? ==> m.cache <= d.mode.cache
    ensures op.ClearGraphCache? ==> d.mode.cache == {}
    ensures op.SetMode? || op.SetModeDefault? ==> d.mode.cache == m.cache
    // `set_mode` sets exactly the flags it is given, `set_mode_default` restores graph
    // mode with automatic gradients, and calls and the flush keep both flags
    ensures op.SetMode? ==>
      && d.mode.graph == (if op.graph.Some? then op.graph.value else m.graph)
      && d.mode.autograd == (if op.autograd.Some? then op.autograd.value else m.autograd)
    ensures op.SetModeDefault? ==> d.mode.graph && d.mode.autograd
    ensures op.Call? || op.ClearGraphCache? ==> d.mode.graph == m.graph && d.mode.autograd == m.autograd
    // `numerical_grad` is set by a given `autograd` and by the default mode, and left alone otherwise
    ensures op.SetMode? && op.autograd.Some? ==> d.mode.numericalGrad == !op.autograd.value
    ensures op.SetModeDefault? ==> !d.mode.numericalGrad
    ensures (op.Call? || op.ClearGraphCache? || (op.SetMode? && op.autograd.None?)) ==>
      d.mode.numericalGrad == m.numericalGrad
  {
    match op
    case Call(key) => CallWrapped(m, key)
    case SetMode(g, a) =>
      Dispatch(m.(graph := if g.Some? then g.value else m.graph,
                  autograd := if a.Some? then a.value else m.autograd,
                  numericalGrad := if a.Some? then !a.value else m.numericalGrad), false)
    case SetModeDefault =>
      Dispatch(m.(graph := StartupMode.graph, autograd := StartupMode.autograd,
                  numericalGrad := StartupMode.numericalGrad), false)
    case ClearGraphCache => Dispatch(m.(cache := {}), false)
  }

  /** The mode after a sequence of operations, and how many times a wrapped body ran. */
  datatype Trace = Trace(mode: Mode, executions: nat)

  function RunOps(m: Mode, ops: seq<Op>): Trace
    decreases |ops|
  {
    if ops == [] then Trace(m, 0)
    else
      var d := Apply(m, ops[0]);
      var t := RunOps(d.mode, ops[1..]);
      Trace(t.mode, t.executions + if d.executed then 1 else 0)
  }

  function Repeat(op: Op, n: nat): (ops: seq<Op>)
    ensures |ops| == n && forall i :: 0 <= i < n ==> ops[i] == op
  {
    seq(n, _ => op)
  }

  /** In graph mode, n >= 1 identical calls run the body once, or not at all if it was already compiled. */
  lemma {:induction false} GraphCallsRunOnce(m: Mode, key: Key, n: nat)
    requires m.graph && n >= 1
    ensures RunOps(m, Repeat(Call(key), n))
         == Trace(m.(cache := m.cache + {key}), if key in m.cache then 0 else 1)
    decreases n
  {
    var ops := Repeat(Call(key), n);
    assert ops[1..] == Repeat(Call(key), n - 1);
    if n > 1 {
      GraphCallsRunOnce(m.(cache := m.cache + {key}), key, n - 1);
    }
  }

  /** In eager mode, every call runs the body and the cache is left as it was. */
  lemma {:induction false} EagerCallsAlwaysRun(m: Mode, key: Key, n: nat)
    requires !m.graph
    ensures RunOps(m, Repeat(Call(key), n)) == Trace(m, n)
    decreases n
  {
    if n > 0 {
      var ops := Repeat(Call(key), n);
      assert ops[1..] == Repeat(Call(key), n - 1);
      EagerCallsAlwaysRun(m, key, n - 1);
    }
  }

  /**
   * Whatever the operations, `numerical_grad` stays the negation of `autograd` once
   * it is: the startup mode has it so, and every mode switch sets both together.
   */
  lemma {:induction false} NumericalGradFollowsAutograd(m: Mode, ops: seq<Op>)
    requires m.numericalGrad == !m.autograd
    ensures RunOps(m, ops).mode.numericalGrad == !RunOps(m, ops).mode.autograd
    decreases |ops|
  {
    if ops != [] {
      NumericalGradFollowsAutograd(Apply(m, ops[0]).mode, ops[1..]);
    }
  }

  /** The keys of the calls among `ops`. */
  function CalledKeys(ops: seq<Op>): set<Key>
    decreases |ops|
  {
    if ops == [] then {} else (if ops[0].Call? then {ops[0].key} else {}) + CalledKeys(ops[1..])
  }

  predicate OnlyCalls(ops: seq<Op>)
  {
    forall i :: 0 <= i < |ops| ==> ops[i].Call?
  }

  /**
   * In graph mode, any sequence of calls runs each body once per key not yet
   * compiled, however often and in whatever order the keys are called.
   */
  lemma {:induction false} GraphRunCompilesEachKeyOnce(m: Mode, ops: seq<Op>)
    requires m.graph && OnlyCalls(ops)
    ensures RunOps(m, ops).executions == |CalledKeys(ops) - m.cache|
    ensures RunOps(m, ops).mode == m.(cache := m.cache + CalledKeys(ops))
    decreases |ops|
  {
    if ops != [] {
      var key := ops[0].key;
      var m' := m.(cache := m.cache + {key});
      assert OnlyCalls(ops[1..]) by {
        forall i | 0 <= i < |ops[1..]| ensures ops[1..][i].Call? { assert ops[1..][i] == ops[i + 1]; }
      }
      GraphRunCompilesEachKeyOnce(m', ops[1..]);
      var rest := CalledKeys(ops[1..]);
      assert CalledKeys(ops) - m.cache == ({key} - m.cache) + (rest - m'.cache);
      assert ({key} - m.cache) * (rest - m'.cache) == {};
    }
  }

  /** The number of calls among `ops`. */
  function CallCount(ops: seq<Op>): nat
    decreases |ops|
  {
    if ops == [] then 0 else (if ops[0].Call? then 1 else 0) + CallCount(ops[1..])
  }

  /**
   * Whatever the operations, the body runs at most once per call, and without a
   * flush no cache entry is ever lost.
   */
  lemma {:induction false} ExecutionsBoundedByCalls(m: Mode, ops: seq<Op>)
    ensures RunOps(m, ops).executions <= CallCount(ops)
    ensures (forall i :: 0 <= i < |ops| ==> !ops[i].ClearGraphCache?) ==> m.cache <= RunOps(m, ops).mode.cache
    decreases |ops|
  {
    if ops != [] {
      ExecutionsBoundedByCalls(Apply(m, ops[0]).mode, ops[1..]);
      if forall i :: 0 <= i < |ops| ==> !ops[i].ClearGraphCache? {
        assert forall i :: 0 <= i < |ops[1..]| ==> ops[1..][i] == ops[i + 1];
      }
    }
  }

  // ---------------------------------------------------------------------------
  // The process-wide state as an object, and the test replayed against it
  // ---------------------------------------------------------------------------

  /** `zfit.run`: the mode flags and the compiled-function cache. */
  class RunManager {
    var graph: bool
    var autograd: bool
    var numericalGrad: bool   // `settings.options.numerical_grad`
    var cache: set<Key>

    ghost function State(): Mode
      reads this
    {
      Mode(graph, autograd, numericalGrad, cache)
    }

    constructor ()
      ensures State() == StartupMode
      ensures numericalGrad == !autograd
    {
      graph, autograd, numericalGrad, cache := true, true, false, {};
    }

    /** A call of the function wrapped under `key.tag`; `executed` tells whether its body ran. */
    method Call(key: Key) returns (executed: bool)
      modifies this
      ensures Dispatch(State(), executed) == CallWrapped(old(State()), key)
    {
      if !graph {
        executed := true;
      } else if key in cache {
        executed := false;
      } else {
        cache := cache + {key};
        executed := true;
      }
    }

    /** `set_mode(graph=None, autograd=None)`: an argument left out keeps its flag. */
    method SetMode(graph: Option<bool>, autograd: Option<bool>)
      modifies this
      ensures State() == Apply(old(State()), Op.SetMode(graph, autograd)).mode
    {
      if graph.Some? {
        this.graph := graph.value;
      }
      if autograd.Some? {
        this.autograd := autograd.value;
        numericalGrad := !autograd.value;
      }
    }

    method SetModeDefault()
      modifies this
      ensures State() == Apply(old(State()), Op.SetModeDefault).mode
    {
      graph, autograd, numericalGrad := StartupMode.graph, StartupMode.autograd, StartupMode.numericalGrad;
    }

    method ClearGraphCache()
      modifies this
      ensures State() == Apply(old(State()), Op.ClearGraphCache).mode
    {
      cache := {};
    }
  }

  /** One call of the test's wrapped `func`, which increments `counts` whenever its body runs. */
  method CountedCall(run: RunManager, key: Key, counts: nat) returns (counts': nat)
    modifies run
    ensures Dispatch(run.State(), counts' == counts + 1) == CallWrapped(old(run.State()), key)
    ensures counts' == counts || counts' == counts + 1
  {
    var executed := run.Call(key);
    counts' := if executed then counts + 1 else counts;
  }

  /** `test_modes`, replayed: the counter is 1, 2, 2 and finally 3. */
  method TestModes() returns (counts: nat, numericalGradWhenOff: bool, numericalGradAfterDefault: bool)
    ensures counts == 3
    ensures numericalGradWhenOff && !numericalGradAfterDefault
  {
    var run := new RunManager();
    var func := Key("42", 5);
    counts := 0;
    counts := CountedCall(run, func, counts);
    counts := CountedCall(run, func, counts);
    counts := CountedCall(run, func, counts);
    counts := CountedCall(run, func, counts);
    assert counts == 1;
    run.SetMode(Some(false), None);
    counts := CountedCall(run, func, counts);
    assert counts == 2;
    run.SetModeDefault();
    counts := CountedCall(run, func, counts);
    counts := CountedCall(run, func, counts);
    counts := CountedCall(run, func, counts);
    assert counts == 2;
    run.ClearGraphCache();
    counts := CountedCall(run, func, counts);
    counts := CountedCall(run, func, counts);
    counts := CountedCall(run, func, counts);
    assert counts == 3;

    run.SetMode(None, Some(false));
    numericalGradWhenOff := run.numericalGrad;
    run.SetModeDefault();
    numericalGradAfterDefault := run.numericalGrad;
  }
}
