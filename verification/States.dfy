/** The worker's states as all parts of the fleet name them (src/oumigo/protocol/states.py). */
module States {
  /** The coarse lifecycle state. `Lost` is the manager's, the others are reported. */
  datatype NodeState = Registering | Initializing | Serving | Draining | Stopped | Failed | Lost

  /** What the backend is doing, while the node is serving or draining. */
  datatype RunState = Idle | Executing
}
