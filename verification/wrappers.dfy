/** The optional value used for the engine's nullable slots (the pending
    player-1 move and the announced match winner). */
module Wrappers {

  /** `None` stands for JavaScript's `null`. */
  datatype Option<+T> = None | Some(value: T)
}
