/** The optional value the screen meets wherever JavaScript may hand it
    `undefined`: a settled request that was turned into `undefined` by its
    own `.catch`, or a one-shot location request that failed. */
module Wrappers {

  datatype Option<+T> = None | Some(value: T)
}
