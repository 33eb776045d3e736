/**
 * The four states of a presentation model's lifecycle. The state machine
 * itself (PmLifecycle) is not part of this model: "move the lifecycle to X"
 * is modelled as recording X as the node's lifecycle state.
 */
module Lifecycle {

  datatype LifecycleState = Initialized | Created | InForeground | Destroyed
}
