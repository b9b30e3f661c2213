/** The counter reducer of the example store: an action of kind `Decrement`
    subtracts its payload from the counter, every other kind (`Increment`,
    `Thunk`) adds it. */
module Counter {

  datatype ActionType = Thunk | Increment | Decrement

  /** The parts of a `flow::action` the reducer reads: its type and its
      integer payload. */
  datatype Action = Action(kind: ActionType, payload: int)

  datatype CounterState = CounterState(counter: int)

  /** The sign the reducer applies to the payload: the `switch` sets -1 for
      `Decrement`, 1 for `Increment` and leaves the initial 1 otherwise. */
  function Multiplier(kind: ActionType): (m: int)
    ensures m == 1 || m == -1
    ensures m == -1 <==> kind == Decrement
  {
    match kind
    case Decrement => -1
    case Increment => 1
    case _ => 1
  }

  function Reduce(state: CounterState, action: Action): (next: CounterState)
    ensures action.kind == Decrement ==> next.counter == state.counter - action.payload
    ensures action.kind != Decrement ==> next.counter == state.counter + action.payload
  {
    state.(counter := state.counter + Multiplier(action.kind) * action.payload)
  }

  /** The net change a list of actions makes: the sum of their signed payloads. */
  function NetChange(actions: seq<Action>): int
  {
    if actions == [] then 0
    else NetChange(actions[..|actions| - 1])
         + Multiplier(actions[|actions| - 1].kind) * actions[|actions| - 1].payload
  }

  /** Dispatching actions one after the other, as a store does. */
  function ReduceAll(state: CounterState, actions: seq<Action>): CounterState
  {
    if actions == [] then state
    else Reduce(ReduceAll(state, actions[..|actions| - 1]), actions[|actions| - 1])
  }

  /** Folding the reducer over a list adds the net change of the list. */
  lemma {:induction false} ReduceAllAddsNetChange(state: CounterState, actions: seq<Action>)
    ensures ReduceAll(state, actions).counter == state.counter + NetChange(actions)
  {
    if actions != [] {
      ReduceAllAddsNetChange(state, actions[..|actions| - 1]);
    }
  }

  /** A decrement with the same payload undoes an increment. */
  lemma DecrementUndoesIncrement(state: CounterState, payload: int)
    ensures Reduce(Reduce(state, Action(Increment, payload)), Action(Decrement, payload)) == state
  {
  }

  /** The order in which two actions are reduced does not matter. */
  lemma ReduceCommutes(state: CounterState, a: Action, b: Action)
    ensures Reduce(Reduce(state, a), b) == Reduce(Reduce(state, b), a)
  {
  }

  /** A thunk action that reaches the reducer counts as an increment. */
  lemma ThunkActsAsIncrement(state: CounterState, payload: int)
    ensures Reduce(state, Action(Thunk, payload)) == Reduce(state, Action(Increment, payload))
  {
  }
}
