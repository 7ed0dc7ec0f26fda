/**
 * The typed player states of the Red Hat Boy: a state is a context plus a
 * zero-size tag naming which state it is. A transition consumes the old
 * state value and builds the new one around the same context.
 */
module RedHatBoyStates {
  import opened RustInts
  import opened Engine

  /** The physics context every player state carries. */
  datatype RedHatBoyContext = RedHatBoyContext(frame: u8, position: Point, velocity: Point)

  /** A player state whose kind is given by the tag type `S`. */
  datatype RedHatBoyState<S> = RedHatBoyState(context: RedHatBoyContext, state: S)

  /** Tag of the idle state. */
  datatype Idle = Idle

  /** Tag of the running state. */
  datatype Running = Running

  /** Start running: the only way out of `Idle`; the context moves across as it is. */
  function Run(idle: RedHatBoyState<Idle>): (running: RedHatBoyState<Running>)
    ensures running.context == idle.context
  {
    RedHatBoyState(idle.context, Running)
  }
}
