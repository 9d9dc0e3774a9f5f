# zfit minimizer closure, warn-once helpers and graph-mode cache, in Dafny

This project models three small stateful parts of zfit, a statistical model-fitting toolkit.

- **The BFGS minimizer** (`MinimizerTfp`, in `minimizer_tfp.dfy`). The quasi-Newton routine calls a closure once per candidate position. The closure does four things:
  - it writes the candidate into the parameters in the order fixed at the start of `_minimize`;
  - it evaluates the loss;
  - it classifies the outcome as a good value, a NaN (a NaN value or a numerical-invalidity error), or another exception;
  - it keeps a consecutive-NaN counter and the last good loss, and hands every NaN to the NaN strategy.

  The module also covers the routine's keyword arguments (defaults merged with user options, and the step-size diagonal) and the packaging of the fit result. One call of the closure is the pure function `EvaluateStep` over a `ClosureState`. `Closure.ToMinimize` is the imperative closure, proved to follow it. `Run` folds steps over a run, and lemmas give the counter and the remembered loss in closed form.
- **Warn-once helpers** (`Warnings`, in `warnings.dfy`). `warn_experimental_feature` wraps a function with a per-wrapper `warned` flag. `warn_advanced_feature` and `warn_changed_feature` each keep their own set of identifiers already warned, and they warn only when the identifier's switch and `all` are both on. An emitted warning is an entry appended to a log.
- **Graph-mode cache** (`GraphMode`, in `graph_mode.dfy`). This part has the `graph` and `autograd` flags, the `numerical_grad` option that the mode switches keep equal to the negation of `autograd`, and a cache of compiled functions keyed by tag and argument. It also records whether the wrapped body runs on a call. `test_modes` is replayed as the verified method `TestModes`.

`wrappers.dfy` holds `Option`, which stands for Python's `None`.

Loss and gradient values are `Float = Num(real) | NaN`. The loss, the NaN strategy and the BFGS routine are external collaborators:
- the loss is a function from the parameter values to an `Evaluation`;
- the strategy is a function from the diagnostics it receives to a `StrategyReply`;
- the routine is a given list of proposed positions plus its final result bundle.

Two points of behaviour come from the code and the test:
- On a numerical-invalidity error the code, as written, raises before reaching the strategy (see Findings).
- `set_mode` and `set_mode_default` both keep cache entries. After `set_mode_default`, three calls leave the counter at 2, so the entry compiled before the switch is still used (tests/test_graph.py:28-32).

## Model

| member | source | states |
|---|---|---|
| `MinimizerTfp.EvaluateStep` | zfit/minimizers/minimizer_tfp.py:49-87 | Another exception propagates with no state change and no strategy call. A good value resets the counter to 0, becomes the last good loss and is returned unchanged. A NaN (error or NaN value) raises the counter by one and keeps the last good loss. On a NaN the strategy receives {loss, old_loss, updated count}, and the returned value is exactly the strategy's replacement (or its exception). Gradients are never substituted, and a failed evaluation gives one placeholder per parameter. |
| `MinimizerTfp.EvaluateStepAsWritten` | zfit/minimizers/minimizer_tfp.py:49-87 | The closure as written: a numerical-invalidity error ends in an AttributeError, with the state unchanged and no strategy call. Every other evaluation is handled exactly as `EvaluateStep` handles it. |
| `MinimizerTfp.InvalidArgumentAsWrittenSkipsStrategy` | zfit/minimizers/minimizer_tfp.py:59-75 | As written, the numerical-invalidity error ends in an AttributeError, with no counter change and no strategy call. The intended step calls the strategy and counts the NaN. |
| `MinimizerTfp.RunCountsTrailingNaNs` | zfit/minimizers/minimizer_tfp.py:73-84 | After any sequence of evaluations, the counter equals the number of NaN evaluations since the last good one, and the remembered loss is that last good value. |
| `MinimizerTfp.ConsecutiveNaNs` | zfit/minimizers/minimizer_tfp.py:74-78 | k consecutive NaN evaluations raise the counter by exactly k and leave the last good loss untouched. |
| `MinimizerTfp.StrategySeesLastGoodLoss` | zfit/minimizers/minimizer_tfp.py:76-81 | In a run from the start of `_minimize`, the strategy sees as `old_loss` the last good value (None if there was none), and as `nan_counter` the length of the current NaN run. |
| `MinimizerTfp.DriveStopsAtFirstRaise` | zfit/minimizers/minimizer_tfp.py:56-81 | When every earlier closure call returned and call i raises, whether from the loss or from the strategy, the run aborts with call i's state and error. The later evaluations are never made. |
| `MinimizerTfp.DriveFinishesWhenAllReturn` | zfit/minimizers/minimizer_tfp.py:56-101 | Conversely, when every closure call returns, a good value or a NaN the strategy replaced, the routine makes every evaluation and finishes in the state the fold of the steps gives. |
| `MinimizerTfp.FinishedDriveIsRun` | zfit/minimizers/minimizer_tfp.py:56-64 | A run that no exception aborted ends in the state `Run` describes, and none of its evaluations raised anything but a numerical-invalidity error. |
| `MinimizerTfp.DriveClosure` | zfit/minimizers/minimizer_tfp.py:56-64 | The routine calls the closure on each evaluation in turn. Any evaluation raising something other than a numerical-invalidity error aborts the run. An abort carries the loss's own exception or the strategy's. With no good evaluation the counter never falls. |
| `MinimizerTfp.InsertInPlace` | zfit/minimizers/minimizer_tfp.py:115 | Storing a key already present replaces the pair at the key's first place with the new value and moves nothing. |
| `MinimizerTfp.InsertKeySet` | zfit/minimizers/minimizer_tfp.py:115 | Storing a key in an ordered mapping adds exactly that key, and a key not yet present is appended last. |
| `MinimizerTfp.InsertDistinct` | zfit/minimizers/minimizer_tfp.py:115 | Storing a key in an ordered mapping with distinct keys keeps them distinct. |
| `MinimizerTfp.InsertEntries` | zfit/minimizers/minimizer_tfp.py:115 | After storing, the new pair is present and every other entry was there before. |
| `MinimizerTfp.InsertProperties` | zfit/minimizers/minimizer_tfp.py:115 | Storing a key in an ordered mapping adds exactly that key and keeps the keys distinct. An existing key keeps its place and takes the new value. A new key is appended last with its value. Every entry afterwards is an old one or the new pair. |
| `MinimizerTfp.OrderedDict` | zfit/minimizers/minimizer_tfp.py:115 | Building an `OrderedDict` from pairs gives each key exactly once, the keys are exactly those of the pairs, and every entry is one of the pairs. |
| `MinimizerTfp.OrderedDictMeetsSpec` | zfit/minimizers/minimizer_tfp.py:115 | The `OrderedDict` lists every key of the pairs once, in the order of each key's first pair, with the value of its last pair. |
| `MinimizerTfp.OrderedDictSpecUnique` | zfit/minimizers/minimizer_tfp.py:115 | That description fixes the mapping: any sequence meeting it is the `OrderedDict`. Keeping a repeated key's first value, or any other key order, does not meet it. |
| `MinimizerTfp.OrderedDictOfDistinct` | zfit/minimizers/minimizer_tfp.py:115 | With distinct keys, the `OrderedDict` holds the pairs exactly as given and in order. |
| `MinimizerTfp.SetValues` | zfit/minimizers/minimizer_tfp.py:43-45 | `params[i]` gets `values[i]` for every index `zip` reaches; the remaining parameters keep their values. |
| `MinimizerTfp.Closure.constructor` | zfit/minimizers/minimizer_tfp.py:39-40 | The closure starts with no last good loss and a zero counter. |
| `MinimizerTfp.Closure.ToMinimize` | zfit/minimizers/minimizer_tfp.py:49-87 | Writes the candidate into the parameters in order, evaluates the loss on the new values, and leaves the counter, the last good loss and the reply as `EvaluateStep` says. |
| `MinimizerTfp.NewBfgs` | zfit/minimizers/minimizer_tfp.py:16-32 | Absent options become the empty mapping. Tolerance, verbosity, call budget, NaN strategy and name are kept as given. |
| `MinimizerTfp.DefaultBfgs` | zfit/minimizers/minimizer_tfp.py:16-18 | `BFGS(strategy)` has tolerance 1e-5, verbosity 5, a budget of 3000 calls, the name "BFGS_TFP" and no options. |
| `MinimizerTfp.DefaultKwargs` | zfit/minimizers/minimizer_tfp.py:91-98 | Before the options are applied, the routine's keyword arguments are exactly initial_position, x_tolerance, initial_inverse_hessian_estimate, parallel_iterations and max_iterations. They hold the parameters' values, the tolerance, the step-size diagonal, 1 and `max_calls`. |
| `MinimizerTfp.InitialInverseHessian` | zfit/minimizers/minimizer_tfp.py:89 | The initial inverse Hessian is square, of the parameters' size, with each parameter's step size on the diagonal in parameter order and zeros elsewhere. |
| `MinimizerTfp.Update` | zfit/minimizers/minimizer_tfp.py:99 | The merged keys are the union. A user option wins on its key, and every other default keeps its value. |
| `MinimizerTfp.KwargsDefaults` | zfit/minimizers/minimizer_tfp.py:91-99 | Unless an option replaces it, `x_tolerance` is the tolerance, `max_iterations` is `max_calls`, `parallel_iterations` is 1, and the initial position and diagonal are the parameters' values and step sizes. Every user option is present with its own value. |
| `MinimizerTfp.NoOptionsKeepsDefaults` | zfit/minimizers/minimizer_tfp.py:29-99 | With no options given, merging the options changes none of the default keyword arguments. |
| `MinimizerTfp.DefaultBfgsKwargs` | zfit/minimizers/minimizer_tfp.py:16-99 | For `BFGS(strategy)` the routine receives x_tolerance 1e-5, max_iterations 3000 and parallel_iterations 1. The minimizer keeps verbosity 5 and the name "BFGS_TFP". |
| `MinimizerTfp.Zip` | zfit/minimizers/minimizer_tfp.py:115 | Pairs come in parameter order, each parameter with the value at the same index, as many as the shorter input. |
| `MinimizerTfp.PackFitResult` | zfit/minimizers/minimizer_tfp.py:104-118 | The result's params hold each parameter once, and they are exactly the parameters `zip` reaches. With distinct parameters they are in input order, each with the final position's value at the same index. `loss` is the loss given. `edm` and `status` are -999. `fmin` and `converged` come from the routine. `info` has exactly the keys n_eval, n_iter, grad and original, holding the routine's counts, gradient and the result itself. The minimizer is a copy of the configuration. |
| `MinimizerTfp.PackedParamsMeetSpec` | zfit/minimizers/minimizer_tfp.py:115 | The result's params are the `OrderedDict` of the zipped pairs. A repeated parameter keeps the place of its first occurrence and takes the final value at its last one. |
| `MinimizerTfp.RepeatedParameterKeepsLastValue` | zfit/minimizers/minimizer_tfp.py:115 | With the parameter list `[p, p]` the result holds `p` once, with the second final value. |
| `MinimizerTfp.Minimize` | zfit/minimizers/minimizer_tfp.py:34-119 | The kwargs are the defaults merged with the options. The minimization fails exactly when a closure call raises, and with that call's error (`DriveStopsAtFirstRaise` and `DriveFinishesWhenAllReturn` give both directions of the drive). Otherwise the parameters hold the final position and the result is `PackFitResult`. |
| `Warnings.Decide` | zfit/util/warnings.py:38 | A call warns iff the identifier's switch is on, `all` is on and the identifier was not warned before. The lookup fails iff the settings lack the identifier. |
| `Warnings.Gated` | zfit/util/warnings.py:35-44 | On a warning the identifier is recorded and exactly one warning is appended. A suppressed call changes nothing. The other kind's set is never touched, and the set only grows. |
| `Warnings.SuppressedThenEnabledWarns` | zfit/util/warnings.py:38-39 | A suppressed call records nothing, so a later call with the settings on still warns. |
| `Warnings.AtMostOncePerIdentifier` | zfit/util/warnings.py:32-63 | Over any sequence of calls and settings, each identifier is warned at most once per kind. It is warned exactly when it is in that kind's set. |
| `Warnings.WarnedOnlyGrows` | zfit/util/warnings.py:39 | `warned_advanced` and `warned_changed` only grow over any sequence of calls. |
| `Warnings.Registry.constructor` | zfit/util/warnings.py:32-51 | At import no warning has been emitted, and `warned_advanced` and `warned_changed` are empty. |
| `Warnings.Registry.WarnAdvancedFeature` | zfit/util/warnings.py:35-44 | Updates the log and `warned_advanced` as `Gated` says for the advanced kind, and reports the decision. |
| `Warnings.Registry.WarnChangedFeature` | zfit/util/warnings.py:54-63 | The same gate and at-most-once rule, with its own `warned_changed` set. |
| `Warnings.ExperimentalWrapper.constructor` | zfit/util/warnings.py:10-11 | A fresh wrapper holds the function and its name and has not warned. |
| `Warnings.ExperimentalWrapper.Call` | zfit/util/warnings.py:10-25 | Warns only if this wrapper never warned, then sets the flag, and returns `func`'s result for the same arguments. |
| `Warnings.ExperimentalWrapper.CallMany` | zfit/util/warnings.py:14-23 | Over any number of calls every result is `func`'s own. The first call of a fresh wrapper warns, and no later call does. |
| `GraphMode.CallWrapped` | tests/test_graph.py:14-37 | The body runs on every eager call and on a graph-mode cache miss, and never on a hit. Only graph-mode calls fill the cache, and no call removes an entry. |
| `GraphMode.Apply` | tests/test_graph.py:25-42 | Only calls run the body. Only `clear_graph_cache` empties the cache, and `set_mode` and `set_mode_default` keep it. `set_mode` sets each given flag of `graph` and `autograd` and keeps an absent one, `set_mode_default` turns both on, and calls and `clear_graph_cache` keep them. A given `autograd` sets `numerical_grad` to its negation, `set_mode_default` sets it to false, and nothing else changes it. |
| `GraphMode.GraphCallsRunOnce` | tests/test_graph.py:20-24 | In graph mode n identical calls run the body once, or not at all when the key was compiled before. |
| `GraphMode.EagerCallsAlwaysRun` | tests/test_graph.py:25-27 | In eager mode n calls run the body n times and leave the cache alone. |
| `GraphMode.GraphRunCompilesEachKeyOnce` | tests/test_graph.py:20-37 | In graph mode, any sequence of calls runs the body once per key not yet cached, and caches every called key. |
| `GraphMode.NumericalGradFollowsAutograd` | tests/test_graph.py:39-42 | From a mode where `numerical_grad` is the negation of `autograd`, as at startup, it stays so over any sequence of operations. |
| `GraphMode.ExecutionsBoundedByCalls` | tests/test_graph.py:11-37 | The body runs at most once per call, and without a flush no cache entry is lost. |
| `GraphMode.RunManager.constructor` | tests/test_graph.py:20-24 | The process starts in graph mode with automatic gradients, `numerical_grad` off and an empty cache, so the first call compiles and the next three reuse it. |
| `GraphMode.RunManager.Call` | tests/test_graph.py:14-18 | Dispatches a call as `CallWrapped` says and reports whether the body ran. |
| `GraphMode.RunManager.SetMode` | tests/test_graph.py:39-40 | Changes the stored state as `Apply` says: only the given flags change, `numerical_grad` follows a given `autograd`, and the cache is kept. |
| `GraphMode.RunManager.SetModeDefault` | tests/test_graph.py:41-42 | Changes the stored state as `Apply` says: graph and autograd mode are restored, `numerical_grad` is off, and the cache is kept. |
| `GraphMode.RunManager.ClearGraphCache` | tests/test_graph.py:33 | Empties the cache. |
| `GraphMode.CountedCall` | tests/test_graph.py:14-18 | The test's `func` increments `counts` exactly when its body runs, that is, as `CallWrapped` decides. The counter grows by at most one per call. |
| `GraphMode.TestModes` | tests/test_graph.py:11-42 | Replays `test_modes`: the counter reads 1, 2, 2 and finally 3. `numerical_grad` is true after `set_mode(autograd=False)` and false after `set_mode_default`. |

## Findings

| source | as written | input that shows it | evidently intended | confidence | as-written member | corrected member |
|---|---|---|---|---|---|---|
| zfit/minimizers/minimizer_tfp.py:66-72 | On `InvalidArgumentError`, `value` is the string "invalid, NaNs", and `value.numpy()` then raises AttributeError. The NaN strategy is never called and the counter never moves. | A loss whose `value_gradients` raises `InvalidArgumentError` (`Evaluation.InvalidArgument`). | Treat the error as a NaN: count it and return the strategy's replacement value. | high; not executed | `MinimizerTfp.InvalidArgumentAsWrittenSkipsStrategy` | `MinimizerTfp.EvaluateStep` |

## Left out

- The BFGS routine (`tfp.optimizer.bfgs_minimize`) is out: line search, convergence test and iteration loop. It is foreign numerics. `Minimize` takes its proposals as a fixed list, so the model does not capture how a proposal depends on earlier replies.
- Tensor operations (`tf.stack`, `tf.unstack`, `tensor_diag`, `.numpy()`) are out. Vectors are sequences and the diagonal is a sequence of rows.
- Floating point is out. `Float` is a real or NaN; infinities and rounding are not modelled.
- Verbose printing (`verbosity > 8`, `print_gradients`) is I/O and is left out. With printing on, line 71 would also call `.numpy()` on the placeholder strings.
- `BaseMinimizer` is not part of this model. That covers the default strategy chosen when `strategy` is None, `_update_params` (modelled as the same in-order write as `SetValues`) and `copy()` (the configuration is a value, so the copy is independent).
- `SetValues`, `Closure.ToMinimize` and `Minimize` require the parameters to be distinct objects. With a repeated parameter the in-order write would let the later value win, and that aliasing is not modelled. `PackFitResult` needs no such requirement: it deduplicates as `OrderedDict` does (`PackedParamsMeetSpec`).
- Closure.ToMinimize: the NaN strategy is modelled as a function of the diagnostics {loss, old_loss, nan_counter} alone. Line 80 also passes it the loss, the parameters and the minimizer, so a strategy that reads or changes the parameters is not captured.
- `Minimize` requires every proposal to have one entry per parameter, as the routine's positions do.
- `numerical_grad` is changed only by the mode switches; setting the option directly is not modelled, since the run manager's own source is not part of this model.
- The `settings` object is not part of this model. A settings group is a map from identifier to bool plus `all`. Looking up an identifier the map lacks is modelled as a failed lookup that records nothing.
- `warnings.warn` is out: the message text, the warning categories and stack levels. An emission is an appended `Warning` value.
- Tracing and compilation in `z.function` are out, as is `tf.random.uniform` in the test. Only the flags, the cache and whether the body runs are modelled.
- Concurrent use of the process-wide mode and cache is out; one writer is assumed.
