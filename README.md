# Lazy sequence generator — a Dafny model

The Go package `lazy` hands out, one at a time and on demand, the values of the
sequence obtained by repeatedly applying a transition `f : State -> (Value, State)`
to an initial state. A producer goroutine applies `f` and offers each value on an
unbuffered channel; the consumer pulls by reading from that channel. The package
comes in two drafts that declare the same names:

- `lazy1.go`: a `SequenceGenerator` with builder setters `Limit` and `Timeout`, a
  producer started by `Generate` that stops after `limit` values, and an explicit
  `Stop`; plus an unbounded closure-based evaluator and an `Ints` adapter.
- `lazy.go`: a closure-based evaluator whose pull takes a variadic `sig`. A negative
  `sig[0]` asks the producer to stop once this pull has its value. Its `Ints`
  adapter reads nil as 0.

Producer and consumer meet on unbuffered channels and strictly alternate. So the
model treats the producer as a coroutine: it runs up to its `select` and waits there,
holding the value it has just computed (`Phase.Running(state, pending)`), until a
pull or a stop resumes it. Values and states are type parameters. The `Ints`
adapters see values as `Dynamic = Nil | IntValue(n) | OtherValue`.

Files:

- `unfolding.dfy` (module `Unfolding`) holds the specification both drafts are
  checked against. `StateAfter` and `ValueAt` define the stream by iterating the
  state. `Unfold` builds it front to back. `Response` says what the k-th pull of a
  stream bounded by `n` values returns. The lemmas connect these definitions.
- `lazy1.dfy` (module `LazyGenerator`) models `lazy1.go`.
- `lazy.dfy` (module `LazySignal`) models `lazy.go`.

`SequenceGenerator` and the two `Evaluator` classes keep ghost fields up to date:
`history` (the values delivered so far), `calls` (how many times `f` has been
applied) and, for `SequenceGenerator`, `pulls` and `stopped`. Each `Valid()` ties them to the real state. For example, the pending
value is always `ValueAt(f, s0, delivered)`, and `history == Unfold(f, s0, delivered)`.

Three behaviours of the code worth noting:
- `Limit(0)` yields no values. It does not fall back to the default.
- The timeout is stored but never read, so it never ends a stream.
- On a 64-bit platform, a limit of 2^63 or more becomes negative after `int(...)`, so it yields no values.

## Model

| member | source | states |
|---|---|---|
| Unfolding.Unfold | lazy1.go:40-50 | the first n values of the stream, produced front to back as the loop does; the result has exactly n of them |
| Unfolding.StateAfterStep | lazy1.go:43 | one more application of the transition moves the producer's state from s_n to s_{n+1} |
| Unfolding.UnfoldAt | lazy1.go:40-50 | the i-th value delivered is the first component of f applied to s_i, for every i below n |
| Unfolding.UnfoldSnoc | lazy1.go:43-48 | delivering one more value extends the delivered prefix by exactly the next value of the stream |
| Unfolding.UnfoldPrefix | lazy1.go:42-49 | a shorter run is a prefix of a longer one: nothing handed out is ever revised |
| Unfolding.UnfoldAppend | lazy1.go:40-43 | a producer suspended in state s_m goes on exactly as the stream from the initial state does |
| Unfolding.Response | lazy1.go:42-51 | the k-th pull returns a value iff k is below the bound, and that value is the k-th element of the unfold; from the bound on every pull is exhausted |
| LazyGenerator.ToInt | lazy1.go:42 | Go's `int(u)` on a uint64, with a 64-bit `int`: the int64 with the same bits, congruent to u modulo 2^64 |
| LazyGenerator.Iterations | lazy1.go:42 | with a 64-bit `int`, the producer loop runs exactly `limit` times when the limit fits in an int, and not at all iff the limit is 0 or at least 2^63 |
| LazyGenerator.SequenceGenerator.NewLazySeq | lazy1.go:22-29 | stores the transition, sets limit 10000000 and timeout 24 hours in nanoseconds; nothing started or produced |
| LazyGenerator.SequenceGenerator.Limit | lazy1.go:67-70 | changes only `limit`, to n, and returns the same generator |
| LazyGenerator.SequenceGenerator.Timeout | lazy1.go:73-76 | in any phase, changes only `timeout`, to d, and returns the same generator; no other field, and so no value produced, depends on it |
| LazyGenerator.SequenceGenerator.Generate | lazy1.go:32-35 | starts the producer from initState: nothing delivered; it waits to offer f(initState).0 iff the loop bound is positive, otherwise it has already exited |
| LazyGenerator.SequenceGenerator.ProducerStep | lazy1.go:42-51 | the loop head: while i < int(limit), apply the transition and wait at the select; otherwise clean up and exit |
| LazyGenerator.SequenceGenerator.Cleanup | lazy1.go:61-64 | closes the output channel and `quit`; it may only run once, because a second close would panic |
| LazyGenerator.SequenceGenerator.Next | lazy1.go:44-51 | with no stop, the k-th pull returns `Response(f, s0, Iterations(limit), k)`: the k-th unfold value below the limit, nil from then on. Exhaustion is absorbing. Calls to f never exceed delivered + 1, and equal the limit on normal exhaustion |
| LazyGenerator.SequenceGenerator.Stop | lazy1.go:57-59 | allowed only while the producer waits at its select (before Generate the send blocks, after termination it panics); it drops the pending value and terminates with the delivered values unchanged |
| LazyGenerator.HistoryIsPrefix | lazy1.go:40-51 | at any point after `Generate`, the values handed out are a prefix of the first `Iterations(limit)` values of the unfold, and there are at most that many |
| LazyGenerator.Evaluator.BuildLazyEvaluator | lazy1.go:79-100 | starts the unbounded producer; the first pending value is f(initState).0 |
| LazyGenerator.Evaluator.Pull | lazy1.go:82-97 | every pull returns the next unfold value and appends it to the delivered history; the producer never exits |
| LazyGenerator.AssertInt | lazy1.go:106 | the type assertion `.(int)` succeeds only on an int and returns exactly that int |
| LazyGenerator.IntSequence.Ints | lazy1.go:103-108 | wraps a fresh unbounded evaluator over the given transition and initial state |
| LazyGenerator.IntSequence.Pull | lazy1.go:105-107 | requires the next value to be an int; returns it and advances the evaluator by one |
| LazySignal.Evaluator.BuildLazyEvaluator | lazy.go:8-31 | starts the producer, which waits to offer f(initState).0 |
| LazySignal.Evaluator.Pull | lazy.go:11-16 | while running, returns the next unfold value; the producer then stops iff sig[0] < 0, so only sig[0] counts and with no request the stream never ends; after a stop every pull returns nil; a stop request after the stop is excluded (it would panic); calls stay delivered + 1 |
| LazySignal.Evaluator.Receive | lazy.go:15-28 | the channel read: hands over the pending value and lets the producer compute the next one, or nil once the channel is closed |
| LazySignal.Evaluator.Shutdown | lazy.go:22-26 | the producer takes the quit request, closes both channels and exits |
| LazySignal.IntOrZero | lazy.go:38-42 | nil, whether from the closed channel or produced by f, reads as 0; an int reads as itself; a non-int value is excluded. So an exhausted stream and a produced 0 look the same |
| LazySignal.IntSequence.Ints | lazy.go:35-44 | wraps a fresh signal evaluator over the given transition and initial state |
| LazySignal.IntSequence.Pull | lazy.go:37-43 | while running, returns IntOrZero of the next unfold value and honours the stop request; once terminated, returns 0 and leaves what was delivered unchanged |

`LazyGenerator.CountingScenario`, `LazyGenerator.StopScenario` and
`LazySignal.SignalScenario` are client methods whose assertions the verifier proves.
With `f(n) = (n, n + 1)`, `initState = 0` and limit 5, the pulls return 0, 1, 2, 3,
4 and then nil. A `Stop` before any pull leaves every pull exhausted. For the signal
draft, a pull with `sig = [-1, 7]` still returns its value, and later pulls return 0.

## Left out

- Goroutine scheduling, the channel runtime and `select` fairness are replaced by the coroutine model. A `Stop` that races with a pull is not modelled; `Stop` happens between pulls.
- Wall-clock time: `timeout` is stored as an int64 count of nanoseconds. Nothing reads it, so nothing depends on it.
- LazyGenerator.SequenceGenerator.Limit: changing `limit` after `Generate` is not modelled (the method requires the Created phase). While the producer runs, it is a data race with the loop that re-reads `sq.limit`. `Timeout` is allowed in every phase, because the producer never reads `timeout`.
- Go's `int` is taken to be 64 bits wide. On a 32-bit platform `int(limit)` keeps only the low 32 bits, so for example a limit of 2^63 + 5 yields 5 values there; ToInt and Iterations do not model that.
- LazyGenerator.SequenceGenerator.Generate: a second `Generate` on the same generator would start a second producer sharing `quit`, whose cleanup closes `quit` twice. It is not modelled (the method requires the Created phase).
- LazyGenerator.SequenceGenerator.Next: the channel that `Generate` returns is not a separate object. Reading it is `Next`, and reading before `Generate` (when no channel exists) is excluded.
- LazyGenerator.SequenceGenerator.Stop: the blocking send before `Generate` and the panic after termination are preconditions, not modelled outcomes.
- LazySignal.Evaluator.Pull: the panic from a stop request after the stop is a precondition, not a modelled outcome.
- LazyGenerator.IntSequence.Pull: the failed type assertion is a precondition, not a modelled panic. The same holds for LazySignal.IntSequence.Pull.
- Dynamic typing (`Any`): values and states are type parameters. The `Ints` adapters use `Dynamic`, which tells nil, ints and other values apart.
- A transition that panics or never returns is not modelled; the transition is a total Dafny function.
- lazy_test.go holds empty test tables that assert nothing, so it is not part of this model.
