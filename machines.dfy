/** The interface of the cooperative state-machine library that the name tag
    runs on. The scheduler itself is not part of this model: a state of a
    machine returns the state it wants to run next (or None to stay put) and
    the condition on which it wants to be run again. */
module Machines {

  datatype Option<+T> = None | Some(value: T)

  /** What a state waits on before the scheduler invokes the machine again. */
  datatype Wait =
    | Immediate     // the library's IMMEDATE_TRANSFER: run the next state in this same tick
    | OnButton      // the button watcher has seen a press
    | OnPulser      // the next periodic tick of a pulser
    | OnController  // the controller's triggered() change detector fires
}
