/** The signal draft: a closure-based evaluator whose pull takes a variadic `sig`.
    A pull whose first signal is negative still receives the next value, and only
    then, through a deferred send on `quitChan`, asks the producer to exit. As in the
    builder draft, the producer is a coroutine suspended at its `select` between pulls. */
module LazySignal {
  import opened Unfolding

  /** Whether a pull's arguments ask for termination: only `sig[0]` is looked at */
  predicate StopRequested(sig: seq<int>)
  {
    |sig| > 0 && sig[0] < 0
  }

  class Evaluator<S, V> {
    const eval: S -> (V, S)
    ghost const initState: S
    /** The producer goroutine: suspended at its `select`, or exited */
    var phase: Phase<S, V>

    /** The values handed to the consumer, in order */
    ghost var history: seq<V>
    ghost var delivered: nat
    /** How many times `eval` has been applied */
    ghost var calls: nat

    ghost predicate Valid()
      reads this
    {
      && !phase.Created?
      && calls == delivered + 1
      && history == Unfold(eval, initState, delivered)
      && (phase.Running? ==>
            && phase.state == StateAfter(eval, initState, calls)
            && phase.pending == ValueAt(eval, initState, delivered))
    }

    /** `buildLazyEvaluator`: starts the producer, which applies `eval` to `initState`
        and waits to hand the value over. */
    constructor BuildLazyEvaluator(eval: S -> (V, S), initState: S)
      ensures Valid() && this.eval == eval && this.initState == initState
      ensures delivered == 0 && history == [] && phase.Running?
    {
      this.eval := eval;
      this.initState := initState;
      var (value, next) := eval(initState);
      phase := Running(next, value);
      delivered := 0;
      history := [];
      calls := 1;
      new;
      StateAfterStep(eval, initState, 0);
    }

    /** The returned closure `retValFunc(sig...)`. While the producer runs, the pull
        receives the next value and the producer applies `eval` once more; then, if
        `sig[0] < 0`, the deferred send on `quitChan` makes it close both channels and
        exit, dropping that value. Once the channels are closed the pull yields nil
        (`None`) at once; a stop request then would send on the closed `quitChan` and
        panic, so none is allowed. */
    method Pull(sig: seq<int>) returns (r: Option<V>)
      requires Valid()
      requires StopRequested(sig) ==> phase.Running?
      modifies this
      ensures Valid() && calls == delivered + 1
      ensures old(phase).Running? ==>
        && r == Some(ValueAt(eval, initState, old(delivered)))
        && delivered == old(delivered) + 1
        && history == old(history) + [r.value]
        && (phase.Terminated? <==> StopRequested(sig))
      ensures old(phase).Terminated? ==>
        r == None && phase.Terminated? && delivered == old(delivered) && history == old(history)
    {
      var stop := StopRequested(sig);
      r := Receive();
      if stop {
        Shutdown();
      }
    }

    /** `<-retValChan`: hand over the pending value and let the producer run to its
        next `select`; on a closed channel, nil. */
    method Receive() returns (r: Option<V>)
      requires Valid()
      modifies this
      ensures Valid()
      ensures old(phase).Running? ==>
        && r == Some(ValueAt(eval, initState, old(delivered)))
        && delivered == old(delivered) + 1
        && history == old(history) + [r.value]
        && phase.Running?
      ensures old(phase).Terminated? ==>
        r == None && phase.Terminated? && delivered == old(delivered) && history == old(history)
    {
      match phase
      case Running(state, pending) =>
        r := Some(pending);
        UnfoldSnoc(eval, initState, delivered);
        history := history + [pending];
        delivered := delivered + 1;
        var (value, next) := eval(state);
        StateAfterStep(eval, initState, calls);
        phase := Running(next, value);
        calls := calls + 1;
      case Terminated =>
        r := None;
    }

    /** The producer receives from `quitChan`, closes it and `retValChan`, and exits */
    method Shutdown()
      requires Valid() && phase.Running?
      modifies this`phase
      ensures Valid() && phase.Terminated?
    {
      phase := Terminated;
    }
  }

  /** The `Ints` conversion of a pulled value: nil, whether it comes from the closed
      channel or was produced by `eval`, reads as 0; an int reads as itself; any other
      value fails the type assertion. So an exhausted stream and a produced 0 look the same. */
  function IntOrZero(v: Option<Dynamic>): (n: int)
    requires v.Some? ==> !v.value.OtherValue?
    ensures n != 0 ==> v == Some(IntValue(n))
    ensures v.Some? && v.value.IntValue? ==> n == v.value.n
  {
    match v
    case None => 0
    case Some(Nil) => 0
    case Some(IntValue(k)) => k
  }

  /** `Ints`: the signal evaluator with each pulled value read as an int */
  class IntSequence<S> {
    const ef: Evaluator<S, Dynamic>

    ghost predicate Valid()
      reads this, ef
    {
      ef.Valid()
    }

    constructor Ints(eval: S -> (Dynamic, S), initState: S)
      ensures Valid() && fresh(ef)
      ensures ef.eval == eval && ef.initState == initState && ef.delivered == 0
      ensures ef.phase.Running?
    {
      ef := new Evaluator.BuildLazyEvaluator(eval, initState);
    }

    /** The returned closure; a value still to come must be nil or an int */
    method Pull(sig: seq<int>) returns (n: int)
      requires Valid()
      requires StopRequested(sig) ==> ef.phase.Running?
      requires ef.phase.Running? ==> !ValueAt(ef.eval, ef.initState, ef.delivered).OtherValue?
      modifies ef
      ensures Valid()
      ensures old(ef.phase).Running? ==>
        && n == IntOrZero(Some(ValueAt(ef.eval, ef.initState, old(ef.delivered))))
        && ef.delivered == old(ef.delivered) + 1
        && (ef.phase.Terminated? <==> StopRequested(sig))
      ensures old(ef.phase).Terminated? ==>
        n == 0 && ef.phase.Terminated? && ef.delivered == old(ef.delivered) && ef.history == old(ef.history)
    {
      var v := ef.Pull(sig);
      n := IntOrZero(v);
    }
  }

  /** The counting generator: a pull with `sig = [-1, 7]` still returns the next value,
      then every pull is exhausted and `Ints` reports 0 for it. */
  method SignalScenario()
  {
    var ints := new IntSequence.Ints((n: int) => (IntValue(n), n + 1), 5);
    var a := ints.Pull([]);
    assert a == 5;
    var b := ints.Pull([3]);
    assert b == 6;
    var c := ints.Pull([-1, 7]);
    assert c == 7;
    var d := ints.Pull([]);
    assert d == 0;
    d := ints.Pull([2]);
    assert d == 0;
  }
}
