/** Option values for the nullable inputs of the recorder (the persona selector, the active utterance). */
module Wrappers {
  datatype Option<+T> = None | Some(value: T)
}
