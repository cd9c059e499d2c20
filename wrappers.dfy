/** The usual optional-value datatype: a C# reference that may be null, or a
    parse step that may throw, is modelled as an Option. */
module Wrappers {

  datatype Option<+T> = None | Some(value: T)
}
