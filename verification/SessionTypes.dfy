/** Shared by the models of one session. */
module SessionTypes {
  /** The identity of a posted event. */
  type Event = int

  /** `UserInstance::state`. */
  datatype Flag = WRITING | IDLE | SHUTDOWN

  datatype Option<+T> = None | Some(value: T)
}
