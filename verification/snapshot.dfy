/**
 * The saved form of a presentation-model tree (PmState) and the codec for
 * saveable state values (StateSaver). Neither file is part of this model;
 * only the shape that PresentationModel.kt reads and builds is given here.
 */
module Snapshot {

  /** A node's description: how the factory rebuilds it; the model does not look inside. */
  type Description = string

  /** A runtime type descriptor (`KType`) of a saveable state. */
  type KType = string

  /** A value held in a state cell. */
  type Value = string

  /** A value as the codec encodes it for a snapshot. */
  type Encoded = string

  /**
   * A snapshot of one node: its tag and description, the snapshots of its
   * back stack in order, of its attached children by tag, and its encoded
   * saveable states by key.
   */
  datatype PmState = PmState(
    tag: string,
    description: Description,
    backstack: seq<PmState>,
    children: map<string, PmState>,
    states: map<string, Encoded>)

  /** The state codec, an external collaborator: encode and decode per runtime type. */
  datatype StateSaver = StateSaver(
    saveState: (KType, Value) -> Encoded,
    restoreState: (KType, Encoded) -> Value)
}
