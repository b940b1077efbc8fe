/** The optional value used for absent storage entries, cancelled prompts and
    the empty drag-and-drop origin. */
module Wrappers {
  datatype Option<+T> = None | Some(value: T)
}
