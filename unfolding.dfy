/** The specification both generator drafts are checked against: the unfold of a
    transition function `f : State -> (Value, State)` from an initial state, and the
    answers a consumer gets when it pulls from a stream bounded by a number of values.
    Also the small value types the drafts share. */
module Unfolding {

  datatype Option<T> = None | Some(value: T)

  /** A Go `interface{}` value as the `Ints` adapters inspect it: `nil`, an `int`,
      or a value of any other dynamic type. */
  datatype Dynamic = Nil | IntValue(n: int) | OtherValue

  /** Life cycle of a producer. `Running` is the producer suspended at its `select`,
      holding the state it will continue from and the value it already computed and
      is offering on the unbuffered output channel. */
  datatype Phase<S, V> = Created | Running(state: S, pending: V) | Terminated

  /** The state after `n` applications of `f`: s_0 = s0, s_{k+1} = f(s_k).1 */
  function StateAfter<S, V>(f: S -> (V, S), s0: S, n: nat): S
    decreases n
  {
    if n == 0 then s0 else StateAfter(f, f(s0).1, n - 1)
  }

  /** The n-th value of the stream: the first component of f applied to s_n */
  function ValueAt<S, V>(f: S -> (V, S), s0: S, n: nat): V
  {
    f(StateAfter(f, s0, n)).0
  }

  /** The first `n` values of the stream, produced front to back as the producer does */
  function Unfold<S, V>(f: S -> (V, S), s0: S, n: nat): (r: seq<V>)
    ensures |r| == n
    decreases n
  {
    if n == 0 then [] else [f(s0).0] + Unfold(f, f(s0).1, n - 1)
  }

  /** One more application of `f` moves from s_n to s_{n+1} */
  lemma {:induction false} StateAfterStep<S, V>(f: S -> (V, S), s0: S, n: nat)
    ensures StateAfter(f, s0, n + 1) == f(StateAfter(f, s0, n)).1
    decreases n
  {
    if n > 0 {
      StateAfterStep(f, f(s0).1, n - 1);
    }
  }

  /** The unfold agrees, position by position, with the iterated-state definition */
  lemma {:induction false} UnfoldAt<S, V>(f: S -> (V, S), s0: S, n: nat, i: nat)
    requires i < n
    ensures Unfold(f, s0, n)[i] == ValueAt(f, s0, i)
    decreases n
  {
    if i > 0 {
      UnfoldAt(f, f(s0).1, n - 1, i - 1);
    }
  }

  /** Delivering one more value extends the delivered prefix by exactly the next value */
  lemma {:induction false} UnfoldSnoc<S, V>(f: S -> (V, S), s0: S, n: nat)
    ensures Unfold(f, s0, n + 1) == Unfold(f, s0, n) + [ValueAt(f, s0, n)]
    decreases n
  {
    if n > 0 {
      UnfoldSnoc(f, f(s0).1, n - 1);
    }
  }

  /** A shorter run is a prefix of a longer one: the stream never revises what it handed out */
  lemma {:induction false} UnfoldPrefix<S, V>(f: S -> (V, S), s0: S, m: nat, n: nat)
    requires m <= n
    ensures Unfold(f, s0, m) == Unfold(f, s0, n)[..m]
    decreases m
  {
    if m > 0 {
      UnfoldPrefix(f, f(s0).1, m - 1, n - 1);
    }
  }

  /** A producer suspended in state s_m continues exactly as the stream from s0 does */
  lemma {:induction false} UnfoldAppend<S, V>(f: S -> (V, S), s0: S, m: nat, n: nat)
    ensures Unfold(f, s0, m + n) == Unfold(f, s0, m) + Unfold(f, StateAfter(f, s0, m), n)
    decreases m
  {
    if m > 0 {
      UnfoldAppend(f, f(s0).1, m - 1, n);
    }
  }

  /** What the k-th pull (counting from 0) of a stream that ends after `bound` values
      returns when nobody stops it: the k-th value while k < bound, exhausted after. */
  function Response<S, V>(f: S -> (V, S), s0: S, bound: nat, k: nat): (r: Option<V>)
    ensures r.Some? <==> k < bound
    ensures r.Some? ==> r.value == Unfold(f, s0, bound)[k]
  {
    if k < bound then
      UnfoldAt(f, s0, bound, k);
      Some(ValueAt(f, s0, k))
    else
      None
  }

  /** The counting transition n |-> (n, n + 1) */
  function Successor(n: int): (int, int)
  {
    (n, n + 1)
  }

  /** Unfolding the counting transition from s0 yields s0, s0 + 1, s0 + 2, ... */
  lemma {:induction false} SuccessorValues(s0: int, i: nat)
    ensures StateAfter(Successor, s0, i) == s0 + i
    ensures ValueAt(Successor, s0, i) == s0 + i
    decreases i
  {
    if i > 0 {
      SuccessorValues(s0 + 1, i - 1);
    }
  }
}
