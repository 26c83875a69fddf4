/**
 * myfsm/state_machine.go: a state machine whose states are functions, run
 * by `Start` until a state yields nil, a returned value or an error.
 *
 * A `Func` state is a closure; it is named here by `id`, which stands for the
 * closure together with the state it will read when called, and what calling
 * it does is given by a `Machine`. Any other user type implementing
 * Transitioner behaves like a `Func`. The context is an oracle telling
 * whether it is done when checked before the k-th step.
 */
module StateMachine {
  import opened Outcomes

  /** A Transitioner value: a function state, `Return(v)` or `Error(e)`. */
  datatype Transitioner<V, E> = Func(id: nat) | RetVal(value: V) | ErrState(err: E)

  /** The value given to `panic`: an error or anything else. */
  datatype PanicValue<E> = ErrorPanic(err: E) | OtherPanic

  /** What one call of Transition() does: return a next state (nil is None) or panic. */
  datatype Step<V, E> = Next(next: Option<Transitioner<V, E>>) | Panicked(value: PanicValue<E>)

  /**
   * The behaviour of every function state, and a rank that decreases along
   * function-to-function steps, so that runs terminate.
   */
  datatype Machine<V, E> = Machine(behaviour: nat -> Step<V, E>, rank: nat -> nat)

  /** Why Start reports an error: the context, an `Error(e)` state, or an error panic. */
  datatype Failure<E> = ContextErr | StateErr(e: E) | PanicErr(e: E)

  /** What Start does: return `(value, err)` (None is nil), or let a non-error panic escape. */
  datatype Outcome<V, E> = Finished(value: Option<V>, err: Option<Failure<E>>) | Repanicked

  /** A step from a function state leads to a function state of lower rank. */
  ghost predicate WellFounded<V, E>(m: Machine<V, E>)
  {
    forall id :: Continues(m.behaviour(id)) ==> m.rank(m.behaviour(id).next.value.id) < m.rank(id)
  }

  /** The step hands over to another function state. */
  predicate Continues<V, E>(s: Step<V, E>)
  {
    s.Next? && s.next.Some? && s.next.value.Func?
  }

  /** Transition(): a function state runs its closure; `Return` and `Error` states yield nil. */
  function Transition<V, E>(m: Machine<V, E>, t: Transitioner<V, E>): (s: Step<V, E>)
    ensures !t.Func? ==> s == Next(None)
  {
    match t
    case Func(id) => m.behaviour(id)
    case RetVal(_) => Next(None)
    case ErrState(_) => Next(None)
  }

  /** The termination measure of a run at state `f`. */
  function Measure<V, E>(m: Machine<V, E>, f: Option<Transitioner<V, E>>): nat
  {
    if f.Some? && f.value.Func? then m.rank(f.value.id) else 0
  }

  /** How a step that does not continue ends the run. */
  function Settle<V, E>(s: Step<V, E>): (r: Outcome<V, E>)
    requires !Continues(s)
    ensures r.Finished? ==> r.value.None? || r.err.None?
  {
    match s
    case Panicked(ErrorPanic(e)) => Finished(None, Some(PanicErr(e)))
    case Panicked(OtherPanic) => Repanicked
    case Next(None) => Finished(None, None)
    case Next(Some(ErrState(e))) => Finished(None, Some(StateErr(e)))
    case Next(Some(RetVal(v))) => Finished(Some(v), None)
  }

  /**
   * The run of Start from state `f` at its k-th iteration: nil ends it, a
   * done context ends it with the context's error before the state runs,
   * otherwise the state's step either settles the run or continues it.
   */
  function Run<V, E>(m: Machine<V, E>, cancelled: nat -> bool, f: Option<Transitioner<V, E>>, k: nat): (r: Outcome<V, E>)
    requires WellFounded(m)
    ensures r.Finished? ==> r.value.None? || r.err.None?
    decreases Measure(m, f)
  {
    if f.None? then Finished(None, None)
    else if cancelled(k) then Finished(None, Some(ContextErr))
    else
      var s := Transition(m, f.value);
      if Continues(s) then Run(m, cancelled, s.next, k + 1) else Settle(s)
  }

  /** The states whose Transition() a run from `f` at iteration `k` calls, in order. */
  function Chain<V, E>(m: Machine<V, E>, cancelled: nat -> bool, f: Option<Transitioner<V, E>>, k: nat): seq<Transitioner<V, E>>
    requires WellFounded(m)
    decreases Measure(m, f)
  {
    if f.None? || cancelled(k) then []
    else
      var s := Transition(m, f.value);
      [f.value] + (if Continues(s) then Chain(m, cancelled, s.next, k + 1) else [])
  }

  /**
   * Start: the loop of myfsm/state_machine.go. The context is checked before
   * each step; a recovered error panic, an `Error` state, a `Return` state or
   * nil ends the loop; any other state becomes the current one.
   */
  method Start<V, E>(m: Machine<V, E>, cancelled: nat -> bool, initial: Option<Transitioner<V, E>>)
    returns (r: Outcome<V, E>)
    requires WellFounded(m)
    ensures r == Run(m, cancelled, initial, 0)
  {
    var f := initial;
    var k := 0;
    var retError: Option<Failure<E>> := None;
    var retValue: Option<V> := None;
    while f.Some? && retError.None?
      invariant retError.None? && retValue.None?
      invariant Run(m, cancelled, initial, 0) == Run(m, cancelled, f, k)
      decreases Measure(m, f)
    {
      if cancelled(k) {
        return Finished(None, Some(ContextErr));
      }
      var next: Option<Transitioner<V, E>> := None;
      var s := Transition(m, f.value);
      match s {
        case Panicked(ErrorPanic(e)) =>
          retError := Some(PanicErr(e));
        case Panicked(OtherPanic) =>
          return Repanicked;
        case Next(n) =>
          next := n;
      }
      if next.Some? && next.value.ErrState? {
        retError := Some(StateErr(next.value.err));
        break;
      }
      if next.Some? && next.value.RetVal? {
        retValue := Some(next.value.value);
        break;
      }
      if next.None? {
        retValue := None;
        break;
      }
      f, k := next, k + 1;
    }
    return Finished(retValue, retError);
  }

  /**
   * The chain is the run's trace: consecutive states are linked by their
   * steps, and the run's outcome is what the last step settles to, or the
   * context's error when the chain was cut by cancellation.
   */
  lemma {:induction false} RunFollowsChain<V, E>(m: Machine<V, E>, cancelled: nat -> bool, f: Option<Transitioner<V, E>>, k: nat)
    requires WellFounded(m)
    ensures var c := Chain(m, cancelled, f, k);
            && (forall i :: 0 <= i < |c| - 1 ==> Transition(m, c[i]) == Next(Some(c[i + 1])))
            && (c == [] ==> Run(m, cancelled, f, k) == (if f.None? then Finished(None, None) else Finished(None, Some(ContextErr))))
            && (c != [] ==> c[0] == f.value)
            && (c != [] ==>
                  var last := Transition(m, c[|c| - 1]);
                  if Continues(last) then cancelled(k + |c|) && Run(m, cancelled, f, k) == Finished(None, Some(ContextErr))
                  else Run(m, cancelled, f, k) == Settle(last))
    decreases Measure(m, f)
  {
    if f.Some? && !cancelled(k) {
      var s := Transition(m, f.value);
      if Continues(s) {
        RunFollowsChain(m, cancelled, s.next, k + 1);
        var rest := Chain(m, cancelled, s.next, k + 1);
        var c := Chain(m, cancelled, f, k);
        assert c == [f.value] + rest;
        if rest == [] {
          assert cancelled(k + 1);
        } else {
          assert c[1..] == rest;
          assert k + 1 + |rest| == k + |c|;
        }
      }
    }
  }

  /** A nil initial state returns `(nil, nil)` without a step. */
  lemma NilInitialState<V, E>(m: Machine<V, E>, cancelled: nat -> bool)
    requires WellFounded(m)
    ensures Run(m, cancelled, None, 0) == Finished(None, None)
    ensures Chain(m, cancelled, None, 0) == []
  {
  }

  /**
   * A context already done when Start is called ends the run with the
   * context's error before any state's Transition() is called.
   */
  lemma CancelledBeforeStart<V, E>(m: Machine<V, E>, cancelled: nat -> bool, initial: Transitioner<V, E>)
    requires WellFounded(m) && cancelled(0)
    ensures Run(m, cancelled, Some(initial), 0) == Finished(None, Some(ContextErr))
    ensures Chain(m, cancelled, Some(initial), 0) == []
  {
  }

  /**
   * Starting from a `Return(v)` or `Error(e)` state yields `(nil, nil)`
   * (or the context's error), since their Transition() returns nil.
   */
  lemma TerminalInitialState<V, E>(m: Machine<V, E>, cancelled: nat -> bool, initial: Transitioner<V, E>)
    requires WellFounded(m) && !initial.Func?
    ensures Run(m, cancelled, Some(initial), 0)
            == if cancelled(0) then Finished(None, Some(ContextErr)) else Finished(None, None)
  {
  }

  /**
   * The steps that end a run from a live function state: `Error(e)` gives
   * `(nil, errstate{e})`, the wrapper `StateErr(e)`; `Return(v)` gives
   * `(v, nil)`; nil gives `(nil, nil)`; an error panic gives `(nil, e)`.
   */
  lemma StepEndsRun<V, E>(m: Machine<V, E>, cancelled: nat -> bool, f: Transitioner<V, E>, k: nat)
    requires WellFounded(m) && !cancelled(k)
    ensures var s := Transition(m, f);
            && (s == Next(None) ==> Run(m, cancelled, Some(f), k) == Finished(None, None))
            && (forall e :: s == Next(Some(ErrState(e))) ==> Run(m, cancelled, Some(f), k) == Finished(None, Some(StateErr(e))))
            && (forall v :: s == Next(Some(RetVal(v))) ==> Run(m, cancelled, Some(f), k) == Finished(Some(v), None))
            && (forall e :: s == Panicked(ErrorPanic(e)) ==> Run(m, cancelled, Some(f), k) == Finished(None, Some(PanicErr(e))))
            && (s == Panicked(OtherPanic) ==> Run(m, cancelled, Some(f), k) == Repanicked)
  {
  }

  /** The limit of the counting closure in myfsm/state_machine_test.go. */
  const Limit := 1337

  /**
   * The counting closure: called with counter `cnt` it returns nil at the
   * limit and otherwise itself with the counter incremented. Counters past
   * the limit are unreachable from 0 and also return nil.
   */
  function Counter(): Machine<(), ()>
  {
    Machine((cnt: nat) => if cnt >= Limit then Next(None) else Next(Some(Func(cnt + 1))),
            (cnt: nat) => if cnt >= Limit then 0 else Limit - cnt)
  }

  /** From counter `cnt`, the run ends with `(nil, nil)` after Limit - cnt + 1 calls. */
  lemma {:induction false} CounterRunsFrom(cnt: nat, k: nat)
    requires cnt <= Limit
    ensures WellFounded(Counter())
    ensures Run(Counter(), _ => false, Some(Func(cnt)), k) == Finished(None, None)
    ensures |Chain(Counter(), _ => false, Some(Func(cnt)), k)| == Limit - cnt + 1
    decreases Limit - cnt
  {
    assert WellFounded(Counter());
    if cnt < Limit {
      CounterRunsFrom(cnt + 1, k + 1);
    }
  }

  /**
   * The counting test: started at 0 with a live context, the closure is
   * called Limit + 1 times and Start returns `(nil, nil)`.
   */
  lemma CounterRun()
    ensures WellFounded(Counter())
    ensures Run(Counter(), _ => false, Some(Func(0)), 0) == Finished(None, None)
    ensures |Chain(Counter(), _ => false, Some(Func(0)), 0)| == Limit + 1
  {
    CounterRunsFrom(0, 0);
  }
}
