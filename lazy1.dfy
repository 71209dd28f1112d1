/** The builder-style draft: a `SequenceGenerator` configured with `Limit` and
    `Timeout`, started by `Generate`, read by pulls from its output channel and
    cancelled by `Stop`; plus the unbounded closure-based evaluator and its `Ints`
    adapter. The producer goroutine and the consumer meet on unbuffered channels and
    strictly alternate, so the producer is modelled as a coroutine: it runs until its
    `select` and is suspended there, holding the value it has just computed, until the
    next pull or stop resumes it. */
module LazyGenerator {
  import opened Unfolding

  newtype uint64 = x: int | 0 <= x < 0x1_0000_0000_0000_0000
  newtype int64 = x: int | -0x8000_0000_0000_0000 <= x < 0x8000_0000_0000_0000

  /** A `time.Duration`: a count of nanoseconds in an int64 */
  type Duration = int64

  const DefaultLimit: uint64 := 10000000
  /** 24 hours, in nanoseconds */
  const DefaultTimeout: Duration := 86_400_000_000_000

  /** Go's conversion `int(u)` of a uint64 on a 64-bit platform: the same bits read
      as a signed integer. */
  function ToInt(u: uint64): (r: int64)
    ensures (u as int - r as int) % 0x1_0000_0000_0000_0000 == 0
  {
    if u < 0x8000_0000_0000_0000 then u as int as int64
    else (u as int - 0x1_0000_0000_0000_0000) as int64
  }

  /** How many times the producer loop `for i := 0; i < int(sq.limit); i++` runs:
      exactly `limit` when it fits in an int, none when it is 0 or too large. */
  function Iterations(limit: uint64): (n: nat)
    ensures n <= limit as int
    ensures n == limit as int <==> limit < 0x8000_0000_0000_0000
    ensures n == 0 <==> limit == 0 || limit >= 0x8000_0000_0000_0000
  {
    var bound := ToInt(limit);
    if bound < 0 then 0 else bound as int
  }

  class SequenceGenerator<S, V> {
    const generator: S -> (V, S)
    var limit: uint64
    var timeout: Duration
    /** The producer goroutine: not started, suspended at its `select`, or exited */
    var phase: Phase<S, V>
    /** The producer's loop counter `i`: the number of values handed to the consumer */
    var delivered: nat

    /** The `initState` passed to `Generate` */
    ghost var origin: Option<S>
    /** The values handed to the consumer, in order */
    ghost var history: seq<V>
    /** How many times `generator` has been applied */
    ghost var calls: nat
    /** How many times the consumer has read the output channel */
    ghost var pulls: nat
    /** Whether the producer exited through `Stop` rather than by reaching the limit */
    ghost var stopped: bool

    ghost predicate Valid()
      reads this
    {
      match phase
      case Created =>
        origin == None && delivered == 0 && calls == 0 && pulls == 0 && history == [] && !stopped
      case Running(state, pending) =>
        && origin.Some?
        && !stopped
        && delivered < Iterations(limit)
        && pulls == delivered
        && calls == delivered + 1
        && state == StateAfter(generator, origin.value, calls)
        && pending == ValueAt(generator, origin.value, delivered)
        && history == Unfold(generator, origin.value, delivered)
      case Terminated =>
        && origin.Some?
        && delivered <= Iterations(limit)
        && history == Unfold(generator, origin.value, delivered)
        && (if stopped then delivered < Iterations(limit) && calls == delivered + 1 && delivered <= pulls
            else calls == delivered == Iterations(limit) <= pulls)
    }

    /** A generator over `gen` with the default limit and timeout; nothing produced yet */
    constructor NewLazySeq(gen: S -> (V, S))
      ensures Valid()
      ensures generator == gen && limit == DefaultLimit && timeout == DefaultTimeout
      ensures phase == Created && delivered == 0 && calls == 0 && history == []
    {
      generator := gen;
      limit := DefaultLimit;
      timeout := DefaultTimeout;
      phase := Created;
      delivered := 0;
      origin := None;
      history := [];
      calls := 0;
      pulls := 0;
      stopped := false;
    }

    /** Sets the number of values to produce; only before `Generate`, where the
        producer does not yet read it. */
    method Limit(n: uint64) returns (sq: SequenceGenerator<S, V>)
      requires Valid() && phase.Created?
      modifies this`limit
      ensures Valid() && sq == this && limit == n
    {
      limit := n;
      sq := this;
    }

    /** Sets the timeout, in any phase: the producer never reads it, so it changes
        nothing else. */
    method Timeout(d: Duration) returns (sq: SequenceGenerator<S, V>)
      requires Valid()
      modifies this`timeout
      ensures Valid() && sq == this && timeout == d
    {
      timeout := d;
      sq := this;
    }

    /** Starts the producer from `initState`. It applies `generator` once and waits to
        hand the value over, or, when the loop bound is not positive, exits at once. */
    method Generate(initState: S)
      requires Valid() && phase.Created?
      modifies this`phase, this`origin, this`calls
      ensures Valid() && origin == Some(initState)
      ensures delivered == 0 && history == [] && !stopped
      ensures phase.Running? <==> Iterations(limit) > 0
      ensures phase.Running? ==> phase.pending == generator(initState).0
      ensures phase.Terminated? <==> Iterations(limit) == 0
    {
      origin := Some(initState);
      ProducerStep(initState);
    }

    /** The head of the producer loop at iteration `delivered`, in state `s`: apply
        `generator` and suspend at the `select` while `i < int(sq.limit)`, clean up and
        exit otherwise. */
    method ProducerStep(s: S)
      requires origin.Some? && !phase.Terminated? && !stopped
      requires delivered <= Iterations(limit) && pulls == delivered && calls == delivered
      requires s == StateAfter(generator, origin.value, delivered)
      requires history == Unfold(generator, origin.value, delivered)
      modifies this`phase, this`calls
      ensures Valid()
      ensures phase.Running? <==> old(delivered) < Iterations(limit)
      ensures phase.Terminated? <==> old(delivered) == Iterations(limit)
    {
      if delivered < Iterations(limit) {
        var (value, next) := generator(s);
        phase := Running(next, value);
        calls := calls + 1;
        StateAfterStep(generator, origin.value, delivered);
      } else {
        Cleanup();
      }
    }

    /** Closes the output channel and `quit`. Closing a channel twice panics, so the
        producer must reach this at most once. */
    method Cleanup()
      requires !phase.Terminated?
      modifies this`phase
      ensures phase.Terminated?
    {
      phase := Terminated;
    }

    /** A read from the output channel. While the producer is suspended it receives
        the pending value, and the producer goes on to its next iteration; once the
        channel is closed the read yields nil (`None`) at once. */
    method Next() returns (r: Option<V>)
      requires Valid() && !phase.Created?
      modifies this`phase, this`delivered, this`calls, this`history, this`pulls
      ensures Valid() && pulls == old(pulls) + 1
      ensures calls <= delivered + 1
      ensures phase.Terminated? && !stopped ==> calls == delivered == Iterations(limit)
      ensures !stopped ==> r == Response(generator, origin.value, Iterations(limit), old(pulls))
      ensures old(phase).Running? ==>
        && r == Some(ValueAt(generator, origin.value, old(delivered)))
        && delivered == old(delivered) + 1
        && history == old(history) + [r.value]
        && (phase.Terminated? <==> delivered == Iterations(limit))
      ensures old(phase).Terminated? ==>
        r == None && phase.Terminated? && delivered == old(delivered) && history == old(history)
    {
      pulls := pulls + 1;
      match phase {
        case Running(state, pending) =>
          r := Some(pending);
          UnfoldSnoc(generator, origin.value, delivered);
          history := history + [pending];
          delivered := delivered + 1;
          ProducerStep(state);
        case Terminated =>
          r := None;
      }
    }

    /** Sends on `quit`. The suspended producer receives it in its `select`, drops the
        value it was offering, cleans up and exits. Before `Generate` nobody receives
        (the send blocks forever) and after the producer exited `quit` is closed (the
        send panics), so the producer must be suspended. */
    method Stop()
      requires Valid() && phase.Running?
      modifies this`phase, this`stopped
      ensures Valid() && phase.Terminated? && stopped
      ensures delivered == old(delivered) && history == old(history) && calls == delivered + 1
    {
      stopped := true;
      Cleanup();
    }
  }

  /** Whatever has happened since `Generate`, the values handed out are a prefix of the
      whole bounded stream: the generator never hands out anything the first
      `Iterations(limit)` values of the unfold do not start with. */
  lemma HistoryIsPrefix<S, V>(g: SequenceGenerator<S, V>)
    requires g.Valid() && !g.phase.Created?
    ensures g.delivered <= Iterations(g.limit)
    ensures g.history == Unfold(g.generator, g.origin.value, Iterations(g.limit))[..g.delivered]
  {
    UnfoldPrefix(g.generator, g.origin.value, g.delivered, Iterations(g.limit));
  }

  /** The closure-based evaluator. Nothing ever sends on its `quitChan`, so the
      producer never exits and every pull yields the next value of the stream. */
  class Evaluator<S, V> {
    const eval: S -> (V, S)
    ghost const initState: S
    /** The suspended producer's `actState` and `retVal` */
    var state: S
    var pending: V

    ghost var delivered: nat
    ghost var history: seq<V>
    ghost var calls: nat

    ghost predicate Valid()
      reads this
    {
      && calls == delivered + 1
      && state == StateAfter(eval, initState, calls)
      && pending == ValueAt(eval, initState, delivered)
      && history == Unfold(eval, initState, delivered)
    }

    /** `buildLazyEvaluator`: starts the producer, which applies `eval` to `initState`
        and waits to hand the value over. */
    constructor BuildLazyEvaluator(eval: S -> (V, S), initState: S)
      ensures Valid() && this.eval == eval && this.initState == initState
      ensures delivered == 0 && history == [] && pending == eval(initState).0
    {
      this.eval := eval;
      this.initState := initState;
      var (value, next) := eval(initState);
      state := next;
      pending := value;
      delivered := 0;
      history := [];
      calls := 1;
      new;
      StateAfterStep(eval, initState, 0);
    }

    /** The returned closure: receive the next value; the producer computes the one after */
    method Pull() returns (v: V)
      requires Valid()
      modifies this
      ensures Valid()
      ensures v == ValueAt(eval, initState, old(delivered))
      ensures delivered == old(delivered) + 1 && history == old(history) + [v]
    {
      v := pending;
      UnfoldSnoc(eval, initState, delivered);
      history := history + [v];
      delivered := delivered + 1;
      var (value, next) := eval(state);
      StateAfterStep(eval, initState, calls);
      state := next;
      pending := value;
      calls := calls + 1;
    }
  }

  /** The type assertion `v.(int)`: only an int passes, nil included panics */
  function AssertInt(v: Dynamic): (n: int)
    requires v.IntValue?
    ensures v == IntValue(n)
  {
    v.n
  }

  /** `Ints`: the unbounded evaluator, each value asserted to be an int */
  class IntSequence<S> {
    const ef: Evaluator<S, Dynamic>

    ghost predicate Valid()
      reads this, ef
    {
      ef.Valid()
    }

    constructor Ints(eval: S -> (Dynamic, S), initState: S)
      ensures Valid() && fresh(ef)
      ensures ef.eval == eval && ef.initState == initState && ef.delivered == 0
    {
      ef := new Evaluator.BuildLazyEvaluator(eval, initState);
    }

    /** The returned closure; the next value must be an int */
    method Pull() returns (n: int)
      requires Valid() && ValueAt(ef.eval, ef.initState, ef.delivered).IntValue?
      modifies ef
      ensures Valid()
      ensures IntValue(n) == ValueAt(ef.eval, ef.initState, old(ef.delivered))
      ensures ef.delivered == old(ef.delivered) + 1
    {
      var v := ef.Pull();
      n := AssertInt(v);
    }
  }

  /** The counting generator `Successor` from 0 with limit 5 yields 0, 1, 2, 3, 4 and is
      exhausted from then on. */
  method CountingScenario()
  {
    var g := new SequenceGenerator.NewLazySeq(Successor);
    var same := g.Limit(5);
    assert same == g;
    g.Generate(0);
    var r0 := g.Next();
    SuccessorValues(0, 0);
    assert r0 == Some(0);
    var r1 := g.Next();
    SuccessorValues(0, 1);
    assert r1 == Some(1);
    var r2 := g.Next();
    SuccessorValues(0, 2);
    assert r2 == Some(2);
    var r3 := g.Next();
    SuccessorValues(0, 3);
    assert r3 == Some(3);
    var r4 := g.Next();
    SuccessorValues(0, 4);
    assert r4 == Some(4);
    var r := g.Next();
    assert r == None;
    r := g.Next();
    assert r == None;
  }

  /** Stopping right after `Generate`, before any pull: every pull is exhausted */
  method StopScenario()
  {
    var g := new SequenceGenerator.NewLazySeq(Successor);
    var same := g.Limit(3);
    g.Generate(0);
    g.Stop();
    var r := g.Next();
    assert r == None;
    r := g.Next();
    assert r == None;
    assert g.calls == 1;
  }
}
