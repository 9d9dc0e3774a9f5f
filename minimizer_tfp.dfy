/**
 * The BFGS minimizer of zfit (zfit/minimizers/minimizer_tfp.py): the closure that the
 * quasi-Newton routine calls once per candidate position, with its NaN counter and
 * NaN strategy; the keyword arguments handed to that routine; and the packaging of
 * the routine's result into a fit result. The routine itself is foreign: here it is
 * a given list of candidate positions and a given final result.
 */
module MinimizerTfp {
  import opened Wrappers

  // ---------------------------------------------------------------------------
  // Values seen by the closure
  // ---------------------------------------------------------------------------

  /** A float64 loss or gradient value; NaN is the only special value that matters here. */
  datatype Float = Num(x: real) | NaN

  /** A slot of the closure: a value, or the placeholder text written by the `finally` block. */
  datatype Entry = Value(f: Float) | Placeholder(text: string)

  /** The placeholder `f"invalid, {err}"` with `err == 'NaNs'`. */
  const InvalidNaNs: string := "invalid, NaNs"

  /** What one call of `loss.value_gradients(params)` does. */
  datatype Evaluation =
    | Evaluated(value: Float, gradients: seq<Float>)
    | InvalidArgument   // raises tf.errors.InvalidArgumentError
    | OtherException    // raises any other exception

  /** Both NaN triggers: the numerical-invalidity error and a NaN loss value. */
  predicate IsNaN(e: Evaluation)
  {
    e.InvalidArgument? || (e.Evaluated? && e.value.NaN?)
  }

  predicate IsGood(e: Evaluation)
  {
    e.Evaluated? && e.value.Num?
  }

  /** Exceptions that leave the closure. */
  datatype Error =
    | Propagated        // raised by the loss and re-raised by the bare `except`
    | StrategyRaised    // raised by the NaN strategy
    | AttributeError    // `.numpy()` called on the placeholder string

  /** The `values` mapping handed to `strategy.minimize_nan`. */
  datatype NanInfo = NanInfo(loss: Entry, oldLoss: Option<Float>, nanCounter: nat)

  /** What `strategy.minimize_nan` does: return a replacement loss value, or raise. */
  datatype StrategyReply = Replace(value: Float) | Raise

  type Strategy = NanInfo -> StrategyReply

  // ---------------------------------------------------------------------------
  // One call of `to_minimize_func`, as a function of the closure state
  // ---------------------------------------------------------------------------

  /** The two `nonlocal` variables the closure keeps across calls. */
  datatype ClosureState = ClosureState(nanCounter: nat, currentLoss: Option<Float>)

  /** `current_loss = None` and `nan_counter = 0` at the start of `_minimize`. */
  const InitialState := ClosureState(0, None)

  /** What the closure gives back to the routine: `(value, gradients)`, or an exception. */
  datatype Reply = Return(value: Float, gradients: seq<Entry>) | Raised(error: Error)

  /** The new closure state, the reply, and the call made to the strategy, if any. */
  datatype Step = Step(state: ClosureState, reply: Reply, strategyCall: Option<NanInfo>)

  function Lift(g: seq<Float>): (r: seq<Entry>)
    ensures |r| == |g| && forall i :: 0 <= i < |g| ==> r[i] == Value(g[i])
  {
    seq(|g|, i requires 0 <= i < |g| => Value(g[i]))
  }

  /** The gradients the evaluation leaves behind: the loss's own, or one placeholder per parameter. */
  function RawGradients(e: Evaluation, n: nat): seq<Entry>
  {
    if e.Evaluated? then Lift(e.gradients) else seq(n, _ => Placeholder(InvalidNaNs))
  }

  function NanStep(s: ClosureState, loss: Entry, gradients: seq<Entry>, strategy: Strategy): Step
  {
    var info := NanInfo(loss, s.currentLoss, s.nanCounter + 1);
    var s' := s.(nanCounter := s.nanCounter + 1);
    match strategy(info)
    case Replace(v) => Step(s', Return(v, gradients), Some(info))
    case Raise => Step(s', Raised(StrategyRaised), Some(info))
  }

  /**
   * One call of the closure on `n` parameters whose loss evaluation was `e`, on the
   * intended path: the numerical-invalidity error is handled like a NaN loss value.
   */
  function EvaluateStep(s: ClosureState, e: Evaluation, strategy: Strategy, n: nat): (r: Step)
    // any other exception is re-raised: nothing changes and the strategy is not called
    ensures e.OtherException? ==> r == Step(s, Raised(Propagated), None)
    // a good value resets the counter, becomes the last good loss and is returned as it is
    ensures IsGood(e) ==>
      && r.state == ClosureState(0, Some(e.value))
      && r.strategyCall == None
      && r.reply == Return(e.value, Lift(e.gradients))
    // a NaN raises the counter by one, keeps the last good loss, and returns what the
    // strategy returns, the strategy having seen the updated count
    ensures IsNaN(e) ==>
      && r.state == ClosureState(s.nanCounter + 1, s.currentLoss)
      && r.strategyCall == Some(NanInfo(if e.InvalidArgument? then Placeholder(InvalidNaNs) else Value(NaN),
                                        s.currentLoss, s.nanCounter + 1))
      && (r.reply.Return? <==> strategy(r.strategyCall.value).Replace?)
      && (r.reply.Return? ==> r.reply.value == strategy(r.strategyCall.value).value)
      && (r.reply.Raised? ==> r.reply.error == StrategyRaised)
    // the gradients are never substituted, and a failed evaluation gives one per parameter
    ensures r.reply.Return? ==> r.reply.gradients == RawGradients(e, n)
    ensures r.reply.Return? ==> |r.reply.gradients| == if e.Evaluated? then |e.gradients| else n
  {
    match e
    case OtherException => Step(s, Raised(Propagated), None)
    case InvalidArgument => NanStep(s, Placeholder(InvalidNaNs), RawGradients(e, n), strategy)
    case Evaluated(v, g) =>
      if v.NaN? then NanStep(s, Value(v), Lift(g), strategy)
      else Step(ClosureState(0, Some(v)), Return(v, Lift(g)), None)
  }

  /**
   * The closure as written: on the numerical-invalidity error `value` holds the
   * placeholder string, and `value.numpy()` raises before the NaN check is reached.
   */
  function EvaluateStepAsWritten(s: ClosureState, e: Evaluation, strategy: Strategy, n: nat): (r: Step)
    // the error path ends in AttributeError: no count, no strategy call, no gradients returned
    ensures e.InvalidArgument? ==> r.reply == Raised(AttributeError) && r.state == s && r.strategyCall == None
    // every other evaluation is handled as on the intended path
    ensures !e.InvalidArgument? ==> r == EvaluateStep(s, e, strategy, n)
  {
    if e.InvalidArgument? then Step(s, Raised(AttributeError), None)
    else EvaluateStep(s, e, strategy, n)
  }

  /** As written, the numerical-invalidity error never reaches the strategy; as intended, it does. */
  lemma InvalidArgumentAsWrittenSkipsStrategy(s: ClosureState, strategy: Strategy, n: nat)
    ensures EvaluateStepAsWritten(s, InvalidArgument, strategy, n) == Step(s, Raised(AttributeError), None)
    ensures EvaluateStep(s, InvalidArgument, strategy, n).strategyCall.Some?
    ensures EvaluateStep(s, InvalidArgument, strategy, n).state.nanCounter == s.nanCounter + 1
  {
  }

  // ---------------------------------------------------------------------------
  // Runs: the closure called on a sequence of evaluations
  // ---------------------------------------------------------------------------

  /** The closure state after the evaluations `es`, in order. */
  function Run(s: ClosureState, es: seq<Evaluation>, strategy: Strategy, n: nat): ClosureState
    decreases |es|
  {
    if es == [] then s
    else EvaluateStep(Run(s, es[..|es| - 1], strategy, n), es[|es| - 1], strategy, n).state
  }

  /** One past the index of the last good evaluation of `es`, or 0 when there is none. */
  function LastGoodEnd(es: seq<Evaluation>): (k: nat)
    ensures k <= |es|
    ensures k > 0 ==> IsGood(es[k - 1])
    ensures forall i :: k <= i < |es| ==> !IsGood(es[i])
    decreases |es|
  {
    if es == [] then 0
    else if IsGood(es[|es| - 1]) then |es|
    else LastGoodEnd(es[..|es| - 1])
  }

  /** The number of NaN evaluations in `es`. */
  function NanCount(es: seq<Evaluation>): nat
    decreases |es|
  {
    if es == [] then 0 else (if IsNaN(es[0]) then 1 else 0) + NanCount(es[1..])
  }

  lemma {:induction false} NanCountAppend(es: seq<Evaluation>, e: Evaluation)
    ensures NanCount(es + [e]) == NanCount(es) + if IsNaN(e) then 1 else 0
    decreases |es|
  {
    if es == [] {
      assert [] + [e] == [e];
    } else {
      assert (es + [e])[1..] == es[1..] + [e];
      NanCountAppend(es[1..], e);
    }
  }

  /**
   * After any run, the counter is the number of NaN evaluations since the last good
   * one (added to the starting count when there was none), and the remembered loss
   * is the value of the last good evaluation.
   */
  lemma {:induction false} RunCountsTrailingNaNs(s: ClosureState, es: seq<Evaluation>, strategy: Strategy, n: nat)
    ensures var k := LastGoodEnd(es);
      && Run(s, es, strategy, n).nanCounter == (if k == 0 then s.nanCounter else 0) + NanCount(es[k..])
      && Run(s, es, strategy, n).currentLoss == (if k == 0 then s.currentLoss else Some(es[k - 1].value))
    decreases |es|
  {
    if es != [] {
      var init, e := es[..|es| - 1], es[|es| - 1];
      assert es == init + [e];
      RunCountsTrailingNaNs(s, init, strategy, n);
      if !IsGood(e) {
        var k := LastGoodEnd(init);
        assert es[k..] == init[k..] + [e];
        NanCountAppend(init[k..], e);
      }
    }
  }

  /** After k consecutive NaN evaluations the counter has grown by exactly k. */
  lemma {:induction false} ConsecutiveNaNs(s: ClosureState, es: seq<Evaluation>, strategy: Strategy, n: nat)
    requires forall i :: 0 <= i < |es| ==> IsNaN(es[i])
    ensures Run(s, es, strategy, n) == ClosureState(s.nanCounter + |es|, s.currentLoss)
    decreases |es|
  {
    if es != [] {
      ConsecutiveNaNs(s, es[..|es| - 1], strategy, n);
    }
  }

  /**
   * In a run from the start of `_minimize`, a NaN evaluation hands the strategy the
   * value of the last good evaluation (None if there was none) and the length of the
   * NaN run it ends.
   */
  lemma StrategySeesLastGoodLoss(es: seq<Evaluation>, e: Evaluation, strategy: Strategy, n: nat)
    requires IsNaN(e)
    ensures var k := LastGoodEnd(es);
      EvaluateStep(Run(InitialState, es, strategy, n), e, strategy, n).strategyCall.Some? &&
      EvaluateStep(Run(InitialState, es, strategy, n), e, strategy, n).strategyCall.value.oldLoss
        == (if k == 0 then None else Some(es[k - 1].value)) &&
      EvaluateStep(Run(InitialState, es, strategy, n), e, strategy, n).strategyCall.value.nanCounter
        == NanCount(es[k..]) + 1
  {
    RunCountsTrailingNaNs(InitialState, es, strategy, n);
  }

  /** How the routine's sequence of closure calls ends: all answered, or aborted by an exception. */
  datatype Drive = Finished(state: ClosureState) | Aborted(state: ClosureState, error: Error)

  /** The closure called on `es` in order, stopping at the first exception. */
  function DriveClosure(s: ClosureState, es: seq<Evaluation>, strategy: Strategy, n: nat): (d: Drive)
    // any evaluation that raises something other than a numerical-invalidity error aborts the run
    ensures (exists i :: 0 <= i < |es| && es[i].OtherException?) ==> d.Aborted?
    // an aborted run ends in the loss's own exception or the strategy's, never in another
    ensures d.Aborted? ==> d.error == Propagated || d.error == StrategyRaised
    // the counter never falls below its start without a good evaluation
    ensures (forall i :: 0 <= i < |es| ==> !IsGood(es[i])) ==> d.state.nanCounter >= s.nanCounter
    decreases |es|
  {
    if es == [] then Finished(s)
    else
      var st := EvaluateStep(s, es[0], strategy, n);
      if st.reply.Raised? then Aborted(st.state, st.reply.error)
      else
        assert forall i :: 0 <= i < |es[1..]| ==> es[1..][i] == es[i + 1];
        DriveClosure(st.state, es[1..], strategy, n)
  }

  lemma {:induction false} RunFirst(s: ClosureState, e: Evaluation, es: seq<Evaluation>, strategy: Strategy, n: nat)
    ensures Run(s, [e] + es, strategy, n) == Run(EvaluateStep(s, e, strategy, n).state, es, strategy, n)
    decreases |es|
  {
    if es == [] {
      assert ([e] + es)[..0] == [];
    } else {
      var init := es[..|es| - 1];
      assert ([e] + es)[..|es|] == [e] + init;
      RunFirst(s, e, init, strategy, n);
    }
  }

  /**
   * The routine stops at the first closure call that raises: when every earlier call
   * returned and call `i` raises, the run is aborted with that call's state and error,
   * and the evaluations after it are never made.
   */
  lemma {:induction false} DriveStopsAtFirstRaise(s: ClosureState, es: seq<Evaluation>, strategy: Strategy, n: nat, i: nat)
    requires i < |es|
    requires forall j :: 0 <= j < i ==> EvaluateStep(Run(s, es[..j], strategy, n), es[j], strategy, n).reply.Return?
    requires EvaluateStep(Run(s, es[..i], strategy, n), es[i], strategy, n).reply.Raised?
    ensures var st := EvaluateStep(Run(s, es[..i], strategy, n), es[i], strategy, n);
      DriveClosure(s, es, strategy, n) == Aborted(st.state, st.reply.error)
    decreases i
  {
    assert es[..0] == [];
    if i > 0 {
      var s' := EvaluateStep(s, es[0], strategy, n).state;
      var tail := es[1..];
      forall j | 0 <= j < i - 1
        ensures EvaluateStep(Run(s', tail[..j], strategy, n), tail[j], strategy, n).reply.Return?
      {
        RunAfterFirst(s, es, strategy, n, j);
      }
      RunAfterFirst(s, es, strategy, n, i - 1);
      DriveStopsAtFirstRaise(s', tail, strategy, n, i - 1);
      assert Run(s, es[..0], strategy, n) == s;
      DriveAfterReturn(s, es, strategy, n);
    }
  }

  /**
   * Conversely, when every closure call returns (a good value, or a NaN the strategy
   * replaced), the routine makes every evaluation and finishes in the state of `Run`.
   */
  lemma {:induction false} DriveFinishesWhenAllReturn(s: ClosureState, es: seq<Evaluation>, strategy: Strategy, n: nat)
    requires forall j :: 0 <= j < |es| ==> EvaluateStep(Run(s, es[..j], strategy, n), es[j], strategy, n).reply.Return?
    ensures DriveClosure(s, es, strategy, n) == Finished(Run(s, es, strategy, n))
    decreases |es|
  {
    if es != [] {
      assert es[..0] == [];
      var s' := EvaluateStep(s, es[0], strategy, n).state;
      var tail := es[1..];
      forall j | 0 <= j < |tail|
        ensures EvaluateStep(Run(s', tail[..j], strategy, n), tail[j], strategy, n).reply.Return?
      {
        RunAfterFirst(s, es, strategy, n, j);
      }
      DriveFinishesWhenAllReturn(s', tail, strategy, n);
      DriveAfterReturn(s, es, strategy, n);
      RunFirstOf(s, es, strategy, n);
    }
  }

  /** A first call that returns hands the rest of the run the state after it. */
  lemma DriveAfterReturn(s: ClosureState, es: seq<Evaluation>, strategy: Strategy, n: nat)
    requires es != [] && EvaluateStep(s, es[0], strategy, n).reply.Return?
    ensures DriveClosure(s, es, strategy, n) == DriveClosure(EvaluateStep(s, es[0], strategy, n).state, es[1..], strategy, n)
  {
  }

  lemma RunFirstOf(s: ClosureState, es: seq<Evaluation>, strategy: Strategy, n: nat)
    requires es != []
    ensures Run(s, es, strategy, n) == Run(EvaluateStep(s, es[0], strategy, n).state, es[1..], strategy, n)
  {
    assert es == [es[0]] + es[1..];
    RunFirst(s, es[0], es[1..], strategy, n);
  }

  /** The run over `es[..j + 1]` is the run over the rest of the prefix from the state after `es[0]`. */
  lemma RunAfterFirst(s: ClosureState, es: seq<Evaluation>, strategy: Strategy, n: nat, j: nat)
    requires j + 1 < |es|
    ensures Run(EvaluateStep(s, es[0], strategy, n).state, es[1..][..j], strategy, n) == Run(s, es[..j + 1], strategy, n)
    ensures es[1..][j] == es[j + 1]
  {
    assert es[..j + 1] == [es[0]] + es[1..][..j];
    RunFirst(s, es[0], es[1..][..j], strategy, n);
  }

  /**
   * A run that no exception aborted ends in the state of `Run`: so the counter and
   * last-good-loss lemmas above hold of every completed minimization, and no
   * evaluation of it raised anything other than a numerical-invalidity error.
   */
  lemma {:induction false} FinishedDriveIsRun(s: ClosureState, es: seq<Evaluation>, strategy: Strategy, n: nat)
    requires DriveClosure(s, es, strategy, n).Finished?
    ensures DriveClosure(s, es, strategy, n).state == Run(s, es, strategy, n)
    ensures forall i :: 0 <= i < |es| ==> !es[i].OtherException?
    decreases |es|
  {
    if es != [] {
      var st := EvaluateStep(s, es[0], strategy, n);
      FinishedDriveIsRun(st.state, es[1..], strategy, n);
      assert es == [es[0]] + es[1..];
      RunFirst(s, es[0], es[1..], strategy, n);
      forall i | 0 <= i < |es| ensures !es[i].OtherException? {
        if i > 0 { assert es[i] == es[1..][i - 1]; }
      }
    }
  }

  // ---------------------------------------------------------------------------
  // Parameters and the closure object
  // ---------------------------------------------------------------------------

  /** A parameter: a mutable value and the step size that seeds the inverse Hessian. */
  class Param {
    var value: real
    const stepSize: real

    constructor (value: real, stepSize: real)
      ensures this.value == value && this.stepSize == stepSize
    {
      this.value := value;
      this.stepSize := stepSize;
    }
  }

  /** The parameter tuple holds each parameter once. */
  predicate Distinct(params: seq<Param>)
  {
    forall i, j :: 0 <= i < j < |params| ==> params[i] != params[j]
  }

  /** The current values of `params`, in order (`tf.stack(params)`). */
  function Values(params: seq<Param>): (vs: seq<real>)
    reads set p | p in params
    ensures |vs| == |params| && forall i :: 0 <= i < |params| ==> vs[i] == params[i].value
    decreases |params|
  {
    if params == [] then [] else [params[0].value] + Values(params[1..])
  }

  function StepSizes(params: seq<Param>): (ss: seq<real>)
    ensures |ss| == |params| && forall i :: 0 <= i < |params| ==> ss[i] == params[i].stepSize
  {
    seq(|params|, i requires 0 <= i < |params| => params[i].stepSize)
  }

  /**
   * The loop of `update_params_value_grad` (and the final write-back): element i of
   * `values` goes to `params[i]`, as far as `zip` reaches; later parameters keep their value.
   */
  method SetValues(params: seq<Param>, values: seq<real>)
    requires Distinct(params)
    modifies set p | p in params
    ensures forall i :: 0 <= i < |params| && i < |values| ==> params[i].value == values[i]
    ensures forall i :: |values| <= i < |params| ==> params[i].value == old(params[i].value)
  {
    var i := 0;
    while i < |params| && i < |values|
      invariant 0 <= i <= |params| && i <= |values|
      invariant forall j :: 0 <= j < i ==> params[j].value == values[j]
      invariant forall j :: i <= j < |params| ==> params[j].value == old(params[j].value)
    {
      params[i].value := values[i];
      i := i + 1;
    }
  }

  /** `to_minimize_func` with the variables it closes over. */
  class Closure {
    const params: seq<Param>
    const loss: seq<real> -> Evaluation
    const strategy: Strategy
    var nanCounter: nat
    var currentLoss: Option<Float>

    ghost function State(): ClosureState
      reads this
    {
      ClosureState(nanCounter, currentLoss)
    }

    constructor (params: seq<Param>, loss: seq<real> -> Evaluation, strategy: Strategy)
      ensures this.params == params && this.loss == loss && this.strategy == strategy
      ensures State() == InitialState
    {
      this.params := params;
      this.loss := loss;
      this.strategy := strategy;
      nanCounter := 0;
      currentLoss := None;
    }

    /**
     * One call: write `values` into the parameters, evaluate the loss on them, and
     * answer as `EvaluateStep` says.
     */
    method ToMinimize(values: seq<real>) returns (reply: Reply)
      requires Distinct(params)
      modifies this, set p | p in params
      ensures forall i :: 0 <= i < |params| && i < |values| ==> params[i].value == values[i]
      ensures forall i :: |values| <= i < |params| ==> params[i].value == old(params[i].value)
      ensures var st := EvaluateStep(old(State()), loss(Values(params)), strategy, |params|);
        State() == st.state && reply == st.reply
    {
      SetValues(params, values);
      var evaluation := loss(Values(params));
      var isNan := false;
      var value: Entry;
      var gradients: seq<Entry>;
      match evaluation {
        case OtherException =>
          return Raised(Propagated);
        case InvalidArgument =>
          isNan := true;
          value := Placeholder(InvalidNaNs);
          gradients := seq(|params|, _ => Placeholder(InvalidNaNs));
        case Evaluated(v, g) =>
          value := Value(v);
          gradients := Lift(g);
      }
      isNan := isNan || value == Value(NaN);
      if isNan {
        nanCounter := nanCounter + 1;
        var info := NanInfo(value, currentLoss, nanCounter);
        match strategy(info) {
          case Replace(v) => reply := Return(v, gradients);
          case Raise => reply := Raised(StrategyRaised);
        }
      } else {
        nanCounter := 0;
        currentLoss := Some(value.f);
        reply := Return(value.f, gradients);
      }
    }
  }

  // ---------------------------------------------------------------------------
  // Configuration and the keyword arguments of the routine
  // ---------------------------------------------------------------------------

  /** A keyword argument of the routine, or a user option. */
  datatype Kwarg = KReal(r: real) | KInt(i: int) | KVector(v: seq<real>) | KMatrix(m: seq<seq<real>>) | KText(s: string)

  /** The configuration of a `BFGS` minimizer; a value, so a copy is independent of the original. */
  datatype Bfgs = Bfgs(strategy: Strategy, tolerance: real, verbosity: int, maxCalls: int,
                       name: string, options: map<string, Kwarg>)

  const DefaultTolerance: real := 0.00001
  const DefaultVerbosity: int := 5
  const DefaultMaxCalls: int := 3000
  const DefaultName: string := "BFGS_TFP"

  /** `BFGS(strategy)` with every other argument left at its default. */
  function DefaultBfgs(strategy: Strategy): (b: Bfgs)
    ensures b.strategy == strategy && b.options == map[]
    ensures b.tolerance == 0.00001 && b.verbosity == 5 && b.maxCalls == 3000 && b.name == "BFGS_TFP"
  {
    NewBfgs(strategy, DefaultTolerance, DefaultVerbosity, DefaultMaxCalls, DefaultName, None)
  }

  /** `BFGS.__init__`: absent options become the empty mapping. */
  function NewBfgs(strategy: Strategy, tolerance: real, verbosity: int, maxCalls: int, name: string,
                   options: Option<map<string, Kwarg>>): (b: Bfgs)
    ensures b.options == if options.Some? then options.value else map[]
    ensures b.strategy == strategy
    ensures b.tolerance == tolerance && b.verbosity == verbosity && b.maxCalls == maxCalls && b.name == name
  {
    Bfgs(strategy, tolerance, verbosity, maxCalls, name, if options.None? then map[] else options.value)
  }

  /** `tensor_diag(step sizes)`: the initial inverse-Hessian estimate. */
  function InitialInverseHessian(stepSizes: seq<real>): (m: seq<seq<real>>)
    ensures |m| == |stepSizes|
    ensures forall i :: 0 <= i < |m| ==> |m[i]| == |stepSizes| && m[i][i] == stepSizes[i]
    ensures forall i, j :: 0 <= i < |m| && 0 <= j < |m[i]| && i != j ==> m[i][j] == 0.0
  {
    seq(|stepSizes|, i requires 0 <= i < |stepSizes| =>
      seq(|stepSizes|, j requires 0 <= j < |stepSizes| => if i == j then stepSizes[i] else 0.0))
  }

  /** The keyword arguments `_minimize` builds before applying the user options. */
  function DefaultKwargs(b: Bfgs, initialPosition: seq<real>, stepSizes: seq<real>): (kw: map<string, Kwarg>)
    ensures kw.Keys == {"initial_position", "x_tolerance", "initial_inverse_hessian_estimate",
                        "parallel_iterations", "max_iterations"}
    ensures kw["initial_position"] == KVector(initialPosition)
    ensures kw["x_tolerance"] == KReal(b.tolerance)
    ensures kw["initial_inverse_hessian_estimate"] == KMatrix(InitialInverseHessian(stepSizes))
    ensures kw["parallel_iterations"] == KInt(1)
    ensures kw["max_iterations"] == KInt(b.maxCalls)
  {
    map[
      "initial_position" := KVector(initialPosition),
      "x_tolerance" := KReal(b.tolerance),
      "initial_inverse_hessian_estimate" := KMatrix(InitialInverseHessian(stepSizes)),
      "parallel_iterations" := KInt(1),
      "max_iterations" := KInt(b.maxCalls)
    ]
  }

  /** `dict.update`: the options win key by key, every other default stays. */
  function Update(defaults: map<string, Kwarg>, options: map<string, Kwarg>): (merged: map<string, Kwarg>)
    ensures merged.Keys == defaults.Keys + options.Keys
    ensures forall k :: k in options ==> merged[k] == options[k]
    ensures forall k :: k in defaults && k !in options ==> merged[k] == defaults[k]
  {
    defaults + options
  }

  /** The routine's keyword arguments hold each default unless an option of the same name replaces it. */
  lemma KwargsDefaults(b: Bfgs, params: seq<real>, stepSizes: seq<real>)
    ensures var kw := Update(DefaultKwargs(b, params, stepSizes), b.options);
      && ("x_tolerance" !in b.options ==> kw["x_tolerance"] == KReal(b.tolerance))
      && ("max_iterations" !in b.options ==> kw["max_iterations"] == KInt(b.maxCalls))
      && ("parallel_iterations" !in b.options ==> kw["parallel_iterations"] == KInt(1))
      && ("initial_position" !in b.options ==> kw["initial_position"] == KVector(params))
      && ("initial_inverse_hessian_estimate" !in b.options ==>
            kw["initial_inverse_hessian_estimate"] == KMatrix(InitialInverseHessian(stepSizes)))
      && (forall k :: k in b.options ==> k in kw && kw[k] == b.options[k])
  {
  }

  /** Without options the routine receives exactly the defaults. */
  lemma NoOptionsKeepsDefaults(strategy: Strategy, tolerance: real, verbosity: int, maxCalls: int, name: string,
                               initialPosition: seq<real>, stepSizes: seq<real>)
    ensures var b := NewBfgs(strategy, tolerance, verbosity, maxCalls, name, None);
      Update(DefaultKwargs(b, initialPosition, stepSizes), b.options) == DefaultKwargs(b, initialPosition, stepSizes)
  {
  }

  /** A minimizer built with the default arguments stops at 1e-5 and allows 3000 iterations. */
  lemma DefaultBfgsKwargs(strategy: Strategy, initialPosition: seq<real>, stepSizes: seq<real>)
    ensures var kw := Update(DefaultKwargs(DefaultBfgs(strategy), initialPosition, stepSizes), DefaultBfgs(strategy).options);
      && kw["x_tolerance"] == KReal(0.00001)
      && kw["max_iterations"] == KInt(3000)
      && kw["parallel_iterations"] == KInt(1)
      && DefaultBfgs(strategy).verbosity == 5 && DefaultBfgs(strategy).name == "BFGS_TFP"
  {
  }

  // ---------------------------------------------------------------------------
  // The fit result
  // ---------------------------------------------------------------------------

  /** The routine's result bundle (`result.position`, `result.num_iterations`, ...). */
  datatype BackendResult = BackendResult(position: seq<real>, numObjectiveEvaluations: nat, numIterations: nat,
                                         objectiveGradient: seq<real>, objectiveValue: Float, converged: bool)

  datatype InfoValue = Count(n: nat) | Gradient(g: seq<real>) | Original(result: BackendResult)

  datatype FitResult = FitResult(params: seq<(Param, real)>, edm: int, fmin: Float, info: map<string, InfoValue>,
                                 loss: seq<real> -> Evaluation, status: int, converged: bool, minimizer: Bfgs)

  /** The sentinel for `edm` and `status`, which this minimizer does not compute. */
  const NotComputed: int := -999

  /** `zip(params, values)`: pairs in parameter order, as long as the shorter of the two. */
  function Zip(params: seq<Param>, values: seq<real>): (r: seq<(Param, real)>)
    ensures |r| == if |params| < |values| then |params| else |values|
    ensures forall i :: 0 <= i < |r| ==> r[i] == (params[i], values[i])
    decreases |params|
  {
    if params == [] || values == [] then []
    else [(params[0], values[0])] + Zip(params[1..], values[1..])
  }

  /** The keys of an ordered mapping held as a sequence of pairs. */
  function Keys(d: seq<(Param, real)>): set<Param>
  {
    set i | 0 <= i < |d| :: d[i].0
  }

  predicate DistinctKeys(d: seq<(Param, real)>)
  {
    forall i, j :: 0 <= i < j < |d| ==> d[i].0 != d[j].0
  }

  /** `d[k] = v` on an `OrderedDict`: an existing key keeps its place and takes the new value, a new one goes last. */
  function Insert(d: seq<(Param, real)>, k: Param, v: real): seq<(Param, real)>
    decreases |d|
  {
    if d == [] then [(k, v)]
    else if d[0].0 == k then [(k, v)] + d[1..]
    else [d[0]] + Insert(d[1..], k, v)
  }

  lemma KeysCons(x: (Param, real), d: seq<(Param, real)>)
    ensures Keys([x] + d) == {x.0} + Keys(d)
    ensures DistinctKeys([x] + d) <==> x.0 !in Keys(d) && DistinctKeys(d)
  {
    var c := [x] + d;
    forall y | y in Keys(c) ensures y in {x.0} + Keys(d) {
      var i :| 0 <= i < |c| && c[i].0 == y;
      if i > 0 { assert d[i - 1].0 == y; }
    }
    forall y | y in Keys(d) ensures y in Keys(c) {
      var i :| 0 <= i < |d| && d[i].0 == y;
      assert c[i + 1].0 == y;
    }
    assert c[0].0 == x.0;
    if DistinctKeys(c) {
      forall i | 0 <= i < |d| ensures d[i].0 != x.0 { assert c[i + 1] == d[i]; }
      forall i, j | 0 <= i < j < |d| ensures d[i].0 != d[j].0 { assert c[i + 1] == d[i] && c[j + 1] == d[j]; }
    }
    if x.0 !in Keys(d) && DistinctKeys(d) {
      forall i, j | 0 <= i < j < |c| ensures c[i].0 != c[j].0 {
        assert c[j] == d[j - 1];
        if i > 0 { assert c[i] == d[i - 1]; }
      }
    }
  }

  lemma KeysSnoc(d: seq<(Param, real)>, x: (Param, real))
    ensures Keys(d + [x]) == Keys(d) + {x.0}
  {
    var c := d + [x];
    forall y | y in Keys(c) ensures y in Keys(d) + {x.0} {
      var i :| 0 <= i < |c| && c[i].0 == y;
      if i < |d| { assert d[i].0 == y; }
    }
    forall y | y in Keys(d) ensures y in Keys(c) {
      var i :| 0 <= i < |d| && d[i].0 == y;
      assert c[i].0 == y;
    }
    assert c[|d|].0 == x.0;
  }

  /** An existing key keeps the place of its first pair and takes the new value. */
  lemma {:induction false} InsertInPlace(d: seq<(Param, real)>, k: Param, v: real, i: nat)
    requires i < |d| && d[i].0 == k
    requires forall j :: 0 <= j < i ==> d[j].0 != k
    ensures Insert(d, k, v) == d[i := (k, v)]
    decreases i
  {
    if i > 0 {
      var tail := d[1..];
      forall j | 0 <= j < i - 1 ensures tail[j].0 != k { assert tail[j] == d[j + 1]; }
      InsertInPlace(tail, k, v, i - 1);
      assert [d[0]] + tail[i - 1 := (k, v)] == d[i := (k, v)];
    }
  }

  /** Storing a key adds exactly that key, and a new key goes last. */
  lemma {:induction false} InsertKeySet(d: seq<(Param, real)>, k: Param, v: real)
    ensures Keys(Insert(d, k, v)) == Keys(d) + {k}
    ensures k !in Keys(d) ==> Insert(d, k, v) == d + [(k, v)]
    decreases |d|
  {
    if d == [] {
      assert [] + [(k, v)] == [(k, v)];
      KeysSnoc([], (k, v));
    } else {
      var tail := d[1..];
      assert d == [d[0]] + tail;
      KeysCons(d[0], tail);
      if d[0].0 == k {
        KeysCons((k, v), tail);
      } else {
        InsertKeySet(tail, k, v);
        KeysCons(d[0], Insert(tail, k, v));
      }
    }
  }

  /** Storing a key keeps the keys distinct. */
  lemma {:induction false} InsertDistinct(d: seq<(Param, real)>, k: Param, v: real)
    requires DistinctKeys(d)
    ensures DistinctKeys(Insert(d, k, v))
    decreases |d|
  {
    if d != [] {
      var tail := d[1..];
      assert d == [d[0]] + tail;
      KeysCons(d[0], tail);
      if d[0].0 == k {
        KeysCons((k, v), tail);
      } else {
        InsertDistinct(tail, k, v);
        InsertKeySet(tail, k, v);
        KeysCons(d[0], Insert(tail, k, v));
      }
    }
  }

  /** After storing, the new pair is present and every other entry was there before. */
  lemma {:induction false} InsertEntries(d: seq<(Param, real)>, k: Param, v: real)
    ensures (k, v) in Insert(d, k, v)
    ensures forall x :: x in Insert(d, k, v) ==> x in d || x == (k, v)
    decreases |d|
  {
    if d != [] && d[0].0 != k {
      InsertEntries(d[1..], k, v);
    }
  }

  lemma InsertProperties(d: seq<(Param, real)>, k: Param, v: real)
    ensures Keys(Insert(d, k, v)) == Keys(d) + {k}
    ensures DistinctKeys(d) ==> DistinctKeys(Insert(d, k, v))
    // an existing key keeps the place of its first pair and takes the new value
    ensures forall i :: 0 <= i < |d| && d[i].0 == k && (forall j :: 0 <= j < i ==> d[j].0 != k) ==>
      Insert(d, k, v) == d[i := (k, v)]
    // a new key goes last
    ensures k !in Keys(d) ==> Insert(d, k, v) == d + [(k, v)]
    ensures (k, v) in Insert(d, k, v)
    ensures forall x :: x in Insert(d, k, v) ==> x in d || x == (k, v)
  {
    forall i | 0 <= i < |d| && d[i].0 == k && (forall j :: 0 <= j < i ==> d[j].0 != k)
      ensures Insert(d, k, v) == d[i := (k, v)]
    {
      InsertInPlace(d, k, v, i);
    }
    InsertKeySet(d, k, v);
    if DistinctKeys(d) {
      InsertDistinct(d, k, v);
    }
    InsertEntries(d, k, v);
  }

  /** The index of the first pair with key `k` (see `FirstIndexIsFirst`). */
  function FirstIndex(pairs: seq<(Param, real)>, k: Param): (i: nat)
    requires k in Keys(pairs)
    ensures i < |pairs|
    decreases |pairs|
  {
    var init := pairs[..|pairs| - 1];
    assert pairs == init + [pairs[|pairs| - 1]];
    KeysSnoc(init, pairs[|pairs| - 1]);
    if k in Keys(init) then FirstIndex(init, k) else |pairs| - 1
  }

  /** The index of the last pair with key `k` (see `LastIndexIsLast`). */
  function LastIndex(pairs: seq<(Param, real)>, k: Param): (i: nat)
    requires k in Keys(pairs)
    ensures i < |pairs|
    decreases |pairs|
  {
    var init := pairs[..|pairs| - 1];
    assert pairs == init + [pairs[|pairs| - 1]];
    KeysSnoc(init, pairs[|pairs| - 1]);
    if pairs[|pairs| - 1].0 == k then |pairs| - 1 else LastIndex(init, k)
  }

  lemma {:induction false} FirstIndexIsFirst(pairs: seq<(Param, real)>, k: Param)
    requires k in Keys(pairs)
    ensures pairs[FirstIndex(pairs, k)].0 == k
    ensures forall j :: 0 <= j < FirstIndex(pairs, k) ==> pairs[j].0 != k
    decreases |pairs|
  {
    var init := pairs[..|pairs| - 1];
    assert pairs == init + [pairs[|pairs| - 1]];
    KeysSnoc(init, pairs[|pairs| - 1]);
    if k in Keys(init) {
      FirstIndexIsFirst(init, k);
      assert pairs[FirstIndex(init, k)] == init[FirstIndex(init, k)];
      forall j | 0 <= j < FirstIndex(init, k) ensures pairs[j].0 != k { assert pairs[j] == init[j]; }
    } else {
      forall j | 0 <= j < |init| ensures pairs[j].0 != k { assert init[j].0 in Keys(init); }
    }
  }

  lemma {:induction false} LastIndexIsLast(pairs: seq<(Param, real)>, k: Param)
    requires k in Keys(pairs)
    ensures pairs[LastIndex(pairs, k)].0 == k
    ensures forall j :: LastIndex(pairs, k) < j < |pairs| ==> pairs[j].0 != k
    decreases |pairs|
  {
    var init := pairs[..|pairs| - 1];
    assert pairs == init + [pairs[|pairs| - 1]];
    KeysSnoc(init, pairs[|pairs| - 1]);
    if pairs[|pairs| - 1].0 != k {
      LastIndexIsLast(init, k);
      assert pairs[LastIndex(init, k)] == init[LastIndex(init, k)];
      forall j | LastIndex(init, k) < j < |init| ensures pairs[j].0 != k { assert pairs[j] == init[j]; }
    }
  }

  /** Every key of `r` is a key of the pairs. */
  predicate KeysWithin(r: seq<(Param, real)>, pairs: seq<(Param, real)>)
  {
    forall i :: 0 <= i < |r| ==> r[i].0 in Keys(pairs)
  }

  /** Every key of the pairs is a key of `r`. */
  predicate KeysCovered(r: seq<(Param, real)>, pairs: seq<(Param, real)>)
  {
    forall x :: x in Keys(pairs) ==> x in Keys(r)
  }

  /** The keys of `r` come in the order of their first pairs. */
  predicate InFirstOrder(r: seq<(Param, real)>, pairs: seq<(Param, real)>)
    requires KeysWithin(r, pairs)
  {
    forall i, j :: 0 <= i < j < |r| ==> FirstIndex(pairs, r[i].0) < FirstIndex(pairs, r[j].0)
  }

  /** Each key of `r` holds the value of its last pair. */
  predicate LastValues(r: seq<(Param, real)>, pairs: seq<(Param, real)>)
    requires KeysWithin(r, pairs)
  {
    forall i :: 0 <= i < |r| ==> r[i].1 == pairs[LastIndex(pairs, r[i].0)].1
  }

  /**
   * What `OrderedDict(pairs)` holds: every key of the pairs exactly once, in the order
   * of the key's first pair, and with the value of the key's last pair.
   */
  predicate IsOrderedDictOf(r: seq<(Param, real)>, pairs: seq<(Param, real)>)
  {
    DistinctKeys(r) && KeysWithin(r, pairs) && KeysCovered(r, pairs) && InFirstOrder(r, pairs) && LastValues(r, pairs)
  }

  /** A pair added last leaves the first and (for other keys) the last index of an earlier key alone. */
  lemma IndicesSnoc(init: seq<(Param, real)>, last: (Param, real), x: Param)
    requires x in Keys(init)
    ensures x in Keys(init + [last])
    ensures FirstIndex(init + [last], x) == FirstIndex(init, x)
    ensures x != last.0 ==> LastIndex(init + [last], x) == LastIndex(init, x)
    ensures x != last.0 ==> (init + [last])[LastIndex(init + [last], x)] == init[LastIndex(init, x)]
  {
    KeysSnoc(init, last);
    assert (init + [last])[..|init|] == init;
  }

  /** The pair added last is its key's last pair, and its first one when the key is new. */
  lemma IndicesSnocLast(init: seq<(Param, real)>, last: (Param, real))
    ensures last.0 in Keys(init + [last])
    ensures LastIndex(init + [last], last.0) == |init|
    ensures last.0 !in Keys(init) ==> FirstIndex(init + [last], last.0) == |init|
  {
    KeysSnoc(init, last);
    assert (init + [last])[..|init|] == init;
  }

  lemma KeysOfOrderedDictOf(d: seq<(Param, real)>, pairs: seq<(Param, real)>)
    requires KeysWithin(d, pairs) && KeysCovered(d, pairs)
    ensures Keys(d) == Keys(pairs)
  {
    forall x | x in Keys(d) ensures x in Keys(pairs) {
      var i :| 0 <= i < |d| && d[i].0 == x;
    }
  }

  lemma ReplaceKeepsKeys(init: seq<(Param, real)>, last: (Param, real), d: seq<(Param, real)>, i: nat)
    requires KeysWithin(d, init) && KeysCovered(d, init) && DistinctKeys(d)
    requires i < |d| && d[i].0 == last.0
    ensures KeysWithin(d[i := last], init + [last]) && KeysCovered(d[i := last], init + [last])
    ensures DistinctKeys(d[i := last])
  {
    var r := d[i := last];
    KeysSnoc(init, last);
    forall a | 0 <= a < |r| ensures r[a].0 == d[a].0 { }
    forall x | x in Keys(init + [last]) ensures x in Keys(r) {
      if x != last.0 {
        var a :| 0 <= a < |d| && d[a].0 == x;
        assert r[a].0 == x;
      } else {
        assert r[i].0 == x;
      }
    }
  }

  lemma ReplaceKeepsOrder(init: seq<(Param, real)>, last: (Param, real), d: seq<(Param, real)>, i: nat)
    requires KeysWithin(d, init) && InFirstOrder(d, init)
    requires i < |d| && d[i].0 == last.0
    requires KeysWithin(d[i := last], init + [last])
    ensures InFirstOrder(d[i := last], init + [last])
  {
    var r := d[i := last];
    forall a | 0 <= a < |r| ensures FirstIndex(init + [last], r[a].0) == FirstIndex(init, d[a].0) {
      IndicesSnoc(init, last, d[a].0);
    }
  }

  lemma ReplaceTakesLastValues(init: seq<(Param, real)>, last: (Param, real), d: seq<(Param, real)>, i: nat)
    requires KeysWithin(d, init) && LastValues(d, init) && DistinctKeys(d)
    requires i < |d| && d[i].0 == last.0
    requires KeysWithin(d[i := last], init + [last])
    ensures LastValues(d[i := last], init + [last])
  {
    var r := d[i := last];
    IndicesSnocLast(init, last);
    forall a | 0 <= a < |r| && a != i ensures r[a].1 == (init + [last])[LastIndex(init + [last], r[a].0)].1 {
      IndicesSnoc(init, last, d[a].0);
    }
  }

  lemma AppendKeepsKeys(init: seq<(Param, real)>, last: (Param, real), d: seq<(Param, real)>)
    requires KeysWithin(d, init) && KeysCovered(d, init) && DistinctKeys(d)
    requires last.0 !in Keys(init)
    ensures KeysWithin(d + [last], init + [last]) && KeysCovered(d + [last], init + [last])
    ensures DistinctKeys(d + [last])
  {
    KeysSnoc(init, last);
    KeysSnoc(d, last);
    KeysOfOrderedDictOf(d, init);
    forall a | 0 <= a < |d| ensures (d + [last])[a] == d[a] { }
  }

  lemma AppendKeepsOrder(init: seq<(Param, real)>, last: (Param, real), d: seq<(Param, real)>)
    requires KeysWithin(d, init) && InFirstOrder(d, init)
    requires last.0 !in Keys(init)
    requires KeysWithin(d + [last], init + [last])
    ensures InFirstOrder(d + [last], init + [last])
  {
    var r := d + [last];
    IndicesSnocLast(init, last);
    forall a | 0 <= a < |d| ensures r[a] == d[a] && FirstIndex(init + [last], d[a].0) == FirstIndex(init, d[a].0) {
      IndicesSnoc(init, last, d[a].0);
    }
  }

  lemma AppendTakesLastValues(init: seq<(Param, real)>, last: (Param, real), d: seq<(Param, real)>)
    requires KeysWithin(d, init) && LastValues(d, init)
    requires last.0 !in Keys(init)
    requires KeysWithin(d + [last], init + [last])
    ensures LastValues(d + [last], init + [last])
  {
    var r := d + [last];
    IndicesSnocLast(init, last);
    forall a | 0 <= a < |d| ensures r[a] == d[a] && r[a].1 == (init + [last])[LastIndex(init + [last], r[a].0)].1 {
      assert d[a].0 != last.0;
      IndicesSnoc(init, last, d[a].0);
    }
  }

  /** Storing the next pair into the mapping of the earlier ones gives the mapping of them all. */
  lemma OrderedDictStep(init: seq<(Param, real)>, last: (Param, real), d: seq<(Param, real)>)
    requires IsOrderedDictOf(d, init)
    ensures IsOrderedDictOf(Insert(d, last.0, last.1), init + [last])
  {
    KeysOfOrderedDictOf(d, init);
    if last.0 in Keys(d) {
      var i :| 0 <= i < |d| && d[i].0 == last.0;
      InsertInPlace(d, last.0, last.1, i);
      ReplaceKeepsKeys(init, last, d, i);
      ReplaceKeepsOrder(init, last, d, i);
      ReplaceTakesLastValues(init, last, d, i);
    } else {
      InsertProperties(d, last.0, last.1);
      AppendKeepsKeys(init, last, d);
      AppendKeepsOrder(init, last, d);
      AppendTakesLastValues(init, last, d);
    }
  }

  /** `OrderedDict(pairs)`: each key once, in order of first appearance, with the last value given for it. */
  function OrderedDict(pairs: seq<(Param, real)>): (r: seq<(Param, real)>)
    ensures DistinctKeys(r)
    ensures Keys(r) == Keys(pairs)
    ensures forall x :: x in r ==> x in pairs
    decreases |pairs|
  {
    if pairs == [] then []
    else
      var init := pairs[..|pairs| - 1];
      var last := pairs[|pairs| - 1];
      assert pairs == init + [last];
      KeysSnoc(init, last);
      InsertProperties(OrderedDict(init), last.0, last.1);
      Insert(OrderedDict(init), last.0, last.1)
  }

  /**
   * `OrderedDict(pairs)` meets its specification: each key of the pairs once, in the
   * order of its first pair, with the value of its last pair.
   */
  lemma {:induction false} OrderedDictMeetsSpec(pairs: seq<(Param, real)>)
    ensures IsOrderedDictOf(OrderedDict(pairs), pairs)
    decreases |pairs|
  {
    if pairs == [] {
      assert Keys(pairs) == {};
    } else {
      var init := pairs[..|pairs| - 1];
      var last := pairs[|pairs| - 1];
      assert pairs == init + [last];
      OrderedDictMeetsSpec(init);
      OrderedDictStep(init, last, OrderedDict(init));
    }
  }

  lemma KeysEmpty(d: seq<(Param, real)>)
    ensures Keys(d) == {} <==> d == []
  {
    if d != [] {
      assert d[0].0 in Keys(d);
    }
  }

  /** Dropping the first key of a sequence in first-appearance order. */
  lemma FirstOrderTail(r: seq<(Param, real)>, pairs: seq<(Param, real)>)
    requires r != [] && KeysWithin(r, pairs) && InFirstOrder(r, pairs)
    ensures KeysWithin(r[1..], pairs) && InFirstOrder(r[1..], pairs)
    ensures Keys(r[1..]) == Keys(r) - {r[0].0}
  {
    var t := r[1..];
    assert r == [r[0]] + t;
    KeysCons(r[0], t);
    forall j | 0 <= j < |t| ensures t[j] == r[j + 1] && t[j].0 != r[0].0 { }
  }

  /** Two sequences over the same keys, both in first-appearance order, start with the same key. */
  lemma SameFirstKey(r1: seq<(Param, real)>, r2: seq<(Param, real)>, pairs: seq<(Param, real)>)
    requires r1 != [] && r2 != []
    requires KeysWithin(r1, pairs) && InFirstOrder(r1, pairs)
    requires KeysWithin(r2, pairs) && InFirstOrder(r2, pairs)
    requires Keys(r1) == Keys(r2)
    ensures r1[0].0 == r2[0].0
  {
    var k1, k2 := r1[0].0, r2[0].0;
    assert k2 in Keys(r2);
    var a :| 0 <= a < |r1| && r1[a].0 == k2;
    assert FirstIndex(pairs, k1) <= FirstIndex(pairs, k2);
    assert k1 in Keys(r1);
    var b :| 0 <= b < |r2| && r2[b].0 == k1;
    assert FirstIndex(pairs, k2) <= FirstIndex(pairs, k1);
    FirstIndexIsFirst(pairs, k1);
    FirstIndexIsFirst(pairs, k2);
  }

  /** Two sequences over the same keys, both in first-appearance order, list the same keys. */
  lemma {:induction false} SameKeyOrder(r1: seq<(Param, real)>, r2: seq<(Param, real)>, pairs: seq<(Param, real)>)
    requires KeysWithin(r1, pairs) && InFirstOrder(r1, pairs)
    requires KeysWithin(r2, pairs) && InFirstOrder(r2, pairs)
    requires Keys(r1) == Keys(r2)
    ensures |r1| == |r2| && forall i :: 0 <= i < |r1| ==> r1[i].0 == r2[i].0
    decreases |r1|
  {
    KeysEmpty(r1);
    KeysEmpty(r2);
    if r1 != [] && r2 != [] {
      SameFirstKey(r1, r2, pairs);
      FirstOrderTail(r1, pairs);
      FirstOrderTail(r2, pairs);
      SameKeyOrder(r1[1..], r2[1..], pairs);
      forall i | 1 <= i < |r1| ensures r1[i].0 == r2[i].0 {
        assert r1[1..][i - 1] == r1[i] && r2[1..][i - 1] == r2[i];
      }
    }
  }

  /**
   * The specification determines the mapping: whatever meets it is `OrderedDict(pairs)`,
   * so keeping a repeated key's first value, or reordering the keys, does not meet it.
   */
  lemma OrderedDictSpecUnique(r: seq<(Param, real)>, pairs: seq<(Param, real)>)
    requires IsOrderedDictOf(r, pairs)
    ensures r == OrderedDict(pairs)
  {
    var o := OrderedDict(pairs);
    OrderedDictMeetsSpec(pairs);
    KeysOfOrderedDictOf(r, pairs);
    KeysOfOrderedDictOf(o, pairs);
    SameKeyOrder(r, o, pairs);
    forall i | 0 <= i < |r| ensures r[i] == o[i] { }
  }

  /** With distinct keys, `OrderedDict` keeps the pairs exactly as given. */
  lemma {:induction false} OrderedDictOfDistinct(pairs: seq<(Param, real)>)
    requires DistinctKeys(pairs)
    ensures OrderedDict(pairs) == pairs
    decreases |pairs|
  {
    if pairs != [] {
      var init := pairs[..|pairs| - 1];
      var last := pairs[|pairs| - 1];
      assert DistinctKeys(init) by {
        forall i, j | 0 <= i < j < |init| ensures init[i].0 != init[j].0 {
          assert init[i] == pairs[i] && init[j] == pairs[j];
        }
      }
      OrderedDictOfDistinct(init);
      InsertProperties(init, last.0, last.1);
      assert last.0 !in Keys(init) by {
        forall i | 0 <= i < |init| ensures init[i].0 != last.0 { assert init[i] == pairs[i]; }
      }
      assert init + [last] == pairs;
    }
  }

  lemma ZipDistinct(params: seq<Param>, position: seq<real>)
    ensures Distinct(params) ==> OrderedDict(Zip(params, position)) == Zip(params, position)
  {
    var pairs := Zip(params, position);
    if Distinct(params) {
      forall i, j | 0 <= i < j < |pairs| ensures pairs[i].0 != pairs[j].0 {
        assert pairs[i].0 == params[i] && pairs[j].0 == params[j];
      }
      OrderedDictOfDistinct(pairs);
    }
  }

  function PackFitResult(b: Bfgs, loss: seq<real> -> Evaluation, params: seq<Param>, result: BackendResult): (r: FitResult)
    // each parameter appears once, and the parameters listed are those `zip` reaches
    ensures DistinctKeys(r.params)
    ensures Keys(r.params) == Keys(Zip(params, result.position))
    // with distinct parameters: input order, each with the final position's value at its index
    ensures Distinct(params) ==>
      |r.params| == (if |params| < |result.position| then |params| else |result.position|)
    ensures Distinct(params) ==>
      forall i :: 0 <= i < |r.params| ==> r.params[i] == (params[i], result.position[i])
    ensures r.loss == loss && r.minimizer == b
    ensures r.edm == NotComputed && r.status == NotComputed
    ensures r.fmin == result.objectiveValue && r.converged == result.converged
    ensures r.info.Keys == {"n_eval", "n_iter", "grad", "original"}
    ensures r.info["n_eval"] == Count(result.numObjectiveEvaluations)
    ensures r.info["n_iter"] == Count(result.numIterations)
    ensures r.info["grad"] == Gradient(result.objectiveGradient)
    ensures r.info["original"] == Original(result)
  {
    var info := map["n_eval" := Count(result.numObjectiveEvaluations),
                    "n_iter" := Count(result.numIterations),
                    "grad" := Gradient(result.objectiveGradient),
                    "original" := Original(result)];
    var pairs := Zip(params, result.position);
    ZipDistinct(params, result.position);
    FitResult(OrderedDict(pairs), NotComputed, result.objectiveValue, info, loss,
              NotComputed, result.converged, b)
  }

  /**
   * The result's params are the `OrderedDict` of the zipped pairs: a repeated parameter
   * keeps the place of its first occurrence and takes the value at its last one.
   */
  lemma PackedParamsMeetSpec(b: Bfgs, loss: seq<real> -> Evaluation, params: seq<Param>, result: BackendResult)
    ensures IsOrderedDictOf(PackFitResult(b, loss, params, result).params, Zip(params, result.position))
  {
    OrderedDictMeetsSpec(Zip(params, result.position));
  }

  /** A parameter listed twice appears once in the result, with the final value of its second place. */
  lemma RepeatedParameterKeepsLastValue(b: Bfgs, loss: seq<real> -> Evaluation, p: Param, result: BackendResult)
    requires |result.position| == 2
    ensures PackFitResult(b, loss, [p, p], result).params == [(p, result.position[1])]
  {
    var x, y := result.position[0], result.position[1];
    var pairs := Zip([p, p], result.position);
    assert pairs == [(p, x), (p, y)];
    assert pairs[..1] == [(p, x)] && [(p, x)][..0] == [];
    assert OrderedDict([(p, x)]) == [(p, x)];
  }

  // ---------------------------------------------------------------------------
  // `_minimize`
  // ---------------------------------------------------------------------------

  /** The foreign routine: the candidate positions it proposes, in order, and its result. */
  datatype Routine = Routine(proposals: seq<seq<real>>, result: BackendResult)

  datatype Outcome = Fitted(result: FitResult) | Failed(error: Error)

  function Evaluations(loss: seq<real> -> Evaluation, proposals: seq<seq<real>>): (es: seq<Evaluation>)
    ensures |es| == |proposals| && forall j :: 0 <= j < |proposals| ==> es[j] == loss(proposals[j])
  {
    seq(|proposals|, j requires 0 <= j < |proposals| => loss(proposals[j]))
  }

  /**
   * `_minimize`: build the keyword arguments, let the routine call the closure on each
   * proposal, then write the final position back and package the result.
   */
  method Minimize(b: Bfgs, loss: seq<real> -> Evaluation, params: seq<Param>, routine: Routine)
    returns (kwargs: map<string, Kwarg>, outcome: Outcome)
    requires Distinct(params)
    requires forall j :: 0 <= j < |routine.proposals| ==> |routine.proposals[j]| == |params|
    modifies set p | p in params
    ensures kwargs == Update(DefaultKwargs(b, old(Values(params)), StepSizes(params)), b.options)
    ensures var d := DriveClosure(InitialState, Evaluations(loss, routine.proposals), b.strategy, |params|);
      && (outcome.Failed? <==> d.Aborted?)
      && (outcome.Failed? ==> outcome.error == d.error)
    ensures outcome.Fitted? ==> outcome.result == PackFitResult(b, loss, params, routine.result)
    ensures outcome.Fitted? ==>
      forall i :: 0 <= i < |params| && i < |routine.result.position| ==> params[i].value == routine.result.position[i]
  {
    kwargs := DefaultKwargs(b, Values(params), StepSizes(params));
    kwargs := Update(kwargs, b.options);
    ghost var es := Evaluations(loss, routine.proposals);
    var closure := new Closure(params, loss, b.strategy);
    var i := 0;
    while i < |routine.proposals|
      invariant 0 <= i <= |routine.proposals|
      invariant DriveClosure(InitialState, es, b.strategy, |params|)
             == DriveClosure(closure.State(), es[i..], b.strategy, |params|)
    {
      ghost var before := closure.State();
      var reply := closure.ToMinimize(routine.proposals[i]);
      assert Values(params) == routine.proposals[i];
      assert es[i..][1..] == es[i + 1..];
      if reply.Raised? {
        return kwargs, Failed(reply.error);
      }
      i := i + 1;
    }
    SetValues(params, routine.result.position);
    outcome := Fitted(PackFitResult(b, loss, params, routine.result));
  }
}
