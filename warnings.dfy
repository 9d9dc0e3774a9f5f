/**
 * The warn-once helpers of zfit (zfit/util/warnings.py): a wrapper that warns on the
 * first call of an experimental function, and two gated warnings that fire at most
 * once per identifier. Emitting a warning is appending it to a log.
 */
module Warnings {

  datatype Warning =
    | ExperimentalFeature(func: string)
    | AdvancedFeature(identifier: string, message: string)
    | ChangedFeature(identifier: string, message: string)

  /** A settings group such as `settings.advanced_warnings`: one switch per identifier, and `all`. */
  datatype Toggles = Toggles(flags: map<string, bool>, all: bool)

  /** The two gated warnings, each with its own set of identifiers already warned. */
  datatype Kind = Advanced | Changed

  /** What a gated warning call does: warn, stay silent, or fail on an identifier the settings lack. */
  datatype Decision = Emit | Suppress | UnknownIdentifier

  /** The condition of the `if` in `warn_advanced_feature` and `warn_changed_feature`. */
  function Decide(settings: Toggles, identifier: string, warned: set<string>): (d: Decision)
    ensures d == UnknownIdentifier <==> identifier !in settings.flags
    ensures d == Emit <==>
      identifier in settings.flags && settings.flags[identifier] && settings.all && identifier !in warned
  {
    if identifier !in settings.flags then UnknownIdentifier
    else if !settings.flags[identifier] then Suppress
    else if !settings.all then Suppress
    else if identifier in warned then Suppress
    else Emit
  }

  /** The warnings emitted so far and the two module-level sets. */
  datatype WarnState = WarnState(emitted: seq<Warning>, warnedAdvanced: set<string>, warnedChanged: set<string>)

  const InitialWarnState := WarnState([], {}, {})

  function Warned(st: WarnState, kind: Kind): set<string>
  {
    match kind
    case Advanced => st.warnedAdvanced
    case Changed => st.warnedChanged
  }

  function Make(kind: Kind, identifier: string, message: string): Warning
  {
    match kind
    case Advanced => AdvancedFeature(identifier, message)
    case Changed => ChangedFeature(identifier, message)
  }

  /** One gated warning call: on `Emit` the identifier is recorded and the warning appended. */
  function Gated(st: WarnState, kind: Kind, message: string, identifier: string, settings: Toggles): (r: WarnState)
    // the other kind's set is never touched, and a set only grows
    ensures Warned(r, if kind == Advanced then Changed else Advanced)
         == Warned(st, if kind == Advanced then Changed else Advanced)
    ensures Warned(st, kind) <= Warned(r, kind)
    // it warns exactly when the switch, `all`, and "not yet warned" allow it, and then records the identifier
    ensures Decide(settings, identifier, Warned(st, kind)) == Emit ==>
      && r.emitted == st.emitted + [Make(kind, identifier, message)]
      && Warned(r, kind) == Warned(st, kind) + {identifier}
    // a suppressed (or failing) call records nothing
    ensures Decide(settings, identifier, Warned(st, kind)) != Emit ==> r == st
  {
    if Decide(settings, identifier, Warned(st, kind)) != Emit then st
    else
      var st' := st.(emitted := st.emitted + [Make(kind, identifier, message)]);
      match kind
      case Advanced => st'.(warnedAdvanced := st.warnedAdvanced + {identifier})
      case Changed => st'.(warnedChanged := st.warnedChanged + {identifier})
  }

  /** A call that was suppressed leaves the identifier unrecorded, so a later enabled call still warns. */
  lemma SuppressedThenEnabledWarns(st: WarnState, kind: Kind, identifier: string, m1: string, s1: Toggles,
                                   m2: string, s2: Toggles)
    requires identifier !in Warned(st, kind)
    requires Decide(s1, identifier, Warned(st, kind)) != Emit
    requires identifier in s2.flags && s2.flags[identifier] && s2.all
    ensures Gated(Gated(st, kind, m1, identifier, s1), kind, m2, identifier, s2).emitted
         == st.emitted + [Make(kind, identifier, m2)]
  {
  }

  // ---------------------------------------------------------------------------
  // At most once per identifier, over any sequence of calls
  // ---------------------------------------------------------------------------

  /** A call that touches the warning log. */
  datatype Call =
    | Gate(kind: Kind, message: string, identifier: string, settings: Toggles)
    | Experimental(func: string)   // an experimental wrapper emitting its warning

  function Apply(st: WarnState, c: Call): WarnState
  {
    match c
    case Gate(kind, message, identifier, settings) => Gated(st, kind, message, identifier, settings)
    case Experimental(f) => st.(emitted := st.emitted + [ExperimentalFeature(f)])
  }

  function RunCalls(st: WarnState, cs: seq<Call>): WarnState
    decreases |cs|
  {
    if cs == [] then st else Apply(RunCalls(st, cs[..|cs| - 1]), cs[|cs| - 1])
  }

  predicate Names(w: Warning, kind: Kind, identifier: string)
  {
    match w
    case AdvancedFeature(i, _) => kind == Advanced && i == identifier
    case ChangedFeature(i, _) => kind == Changed && i == identifier
    case ExperimentalFeature(_) => false
  }

  /** How many warnings of `kind` for `identifier` the log holds. */
  function Occurrences(log: seq<Warning>, kind: Kind, identifier: string): nat
    decreases |log|
  {
    if log == [] then 0
    else Occurrences(log[..|log| - 1], kind, identifier) + if Names(log[|log| - 1], kind, identifier) then 1 else 0
  }

  lemma OccurrencesAppend(log: seq<Warning>, w: Warning, kind: Kind, identifier: string)
    ensures Occurrences(log + [w], kind, identifier)
         == Occurrences(log, kind, identifier) + if Names(w, kind, identifier) then 1 else 0
  {
    assert (log + [w])[..|log|] == log;
  }

  /** Each recorded identifier has been warned exactly once, each other one never. */
  ghost predicate Consistent(st: WarnState)
  {
    forall kind, identifier ::
      Occurrences(st.emitted, kind, identifier) == if identifier in Warned(st, kind) then 1 else 0
  }

  lemma ApplyKeepsConsistent(st: WarnState, c: Call)
    requires Consistent(st)
    ensures Consistent(Apply(st, c))
  {
    var r := Apply(st, c);
    forall kind, identifier
      ensures Occurrences(r.emitted, kind, identifier) == if identifier in Warned(r, kind) then 1 else 0
    {
      if r.emitted != st.emitted {
        var w := r.emitted[|r.emitted| - 1];
        assert r.emitted == st.emitted + [w];
        OccurrencesAppend(st.emitted, w, kind, identifier);
      }
    }
  }

  lemma {:induction false} RunKeepsConsistent(st: WarnState, cs: seq<Call>)
    requires Consistent(st)
    ensures Consistent(RunCalls(st, cs))
    decreases |cs|
  {
    if cs != [] {
      RunKeepsConsistent(st, cs[..|cs| - 1]);
      ApplyKeepsConsistent(RunCalls(st, cs[..|cs| - 1]), cs[|cs| - 1]);
    }
  }

  /**
   * From the module's initial state, whatever the calls and settings, each identifier
   * is warned at most once per kind, and it is warned exactly when it is recorded.
   */
  lemma {:induction false} AtMostOncePerIdentifier(cs: seq<Call>, kind: Kind, identifier: string)
    ensures Occurrences(RunCalls(InitialWarnState, cs).emitted, kind, identifier) <= 1
    ensures Occurrences(RunCalls(InitialWarnState, cs).emitted, kind, identifier) == 1
        <==> identifier in Warned(RunCalls(InitialWarnState, cs), kind)
  {
    RunKeepsConsistent(InitialWarnState, cs);
  }

  /** The sets of warned identifiers only grow. */
  lemma {:induction false} WarnedOnlyGrows(st: WarnState, cs: seq<Call>, kind: Kind)
    ensures Warned(st, kind) <= Warned(RunCalls(st, cs), kind)
    decreases |cs|
  {
    if cs != [] {
      WarnedOnlyGrows(st, cs[..|cs| - 1], kind);
    }
  }

  // ---------------------------------------------------------------------------
  // The module-level state and the three helpers
  // ---------------------------------------------------------------------------

  /** The warnings stream with `warned_advanced` and `warned_changed`. */
  class Registry {
    var emitted: seq<Warning>
    var warnedAdvanced: set<string>
    var warnedChanged: set<string>

    ghost function State(): WarnState
      reads this
    {
      WarnState(emitted, warnedAdvanced, warnedChanged)
    }

    constructor ()
      ensures State() == InitialWarnState
    {
      emitted, warnedAdvanced, warnedChanged := [], {}, {};
    }

    /** `warn_advanced_feature`; an identifier the settings lack fails the lookup and records nothing. */
    method WarnAdvancedFeature(message: string, identifier: string, settings: Toggles) returns (d: Decision)
      modifies this
      ensures d == Decide(settings, identifier, old(warnedAdvanced))
      ensures State() == Gated(old(State()), Advanced, message, identifier, settings)
    {
      if identifier !in settings.flags {
        return UnknownIdentifier;
      }
      if settings.flags[identifier] && settings.all && identifier !in warnedAdvanced {
        warnedAdvanced := warnedAdvanced + {identifier};
        emitted := emitted + [AdvancedFeature(identifier, message)];
        d := Emit;
      } else {
        d := Suppress;
      }
    }

    /** `warn_changed_feature`, with its own set. */
    method WarnChangedFeature(message: string, identifier: string, settings: Toggles) returns (d: Decision)
      modifies this
      ensures d == Decide(settings, identifier, old(warnedChanged))
      ensures State() == Gated(old(State()), Changed, message, identifier, settings)
    {
      if identifier !in settings.flags {
        return UnknownIdentifier;
      }
      if settings.flags[identifier] && settings.all && identifier !in warnedChanged {
        warnedChanged := warnedChanged + {identifier};
        emitted := emitted + [ChangedFeature(identifier, message)];
        d := Emit;
      } else {
        d := Suppress;
      }
    }
  }

  /** The function returned by `warn_experimental_feature(func)`, with its `warned` flag. */
  class ExperimentalWrapper<A, R> {
    const func: A -> R
    const name: string
    var warned: bool

    constructor (func: A -> R, name: string)
      ensures this.func == func && this.name == name && !warned
    {
      this.func := func;
      this.name := name;
      warned := false;
    }

    /** One call: warn if this wrapper never warned, then call `func` with the same arguments. */
    method Call(args: A, registry: Registry) returns (r: R)
      modifies this, registry`emitted
      ensures r == func(args)
      ensures warned
      ensures registry.emitted == old(registry.emitted) + if old(warned) then [] else [ExperimentalFeature(name)]
    {
      if !warned {
        registry.emitted := registry.emitted + [ExperimentalFeature(name)];
        warned := true;
      }
      r := func(args);
    }

    /** Any number of calls: each result is `func`'s own, and the first call alone warns. */
    method CallMany(argss: seq<A>, registry: Registry) returns (rs: seq<R>)
      modifies this, registry`emitted
      ensures |rs| == |argss| && forall i :: 0 <= i < |argss| ==> rs[i] == func(argss[i])
      ensures warned == (old(warned) || |argss| > 0)
      ensures registry.emitted ==
        old(registry.emitted) + if old(warned) || |argss| == 0 then [] else [ExperimentalFeature(name)]
    {
      rs := [];
      var i := 0;
      while i < |argss|
        invariant 0 <= i <= |argss|
        invariant |rs| == i && forall j :: 0 <= j < i ==> rs[j] == func(argss[j])
        invariant warned == (old(warned) || i > 0)
        invariant registry.emitted ==
          old(registry.emitted) + if old(warned) || i == 0 then [] else [ExperimentalFeature(name)]
      {
        var r := Call(argss[i], registry);
        rs := rs + [r];
        i := i + 1;
      }
    }
  }
}
