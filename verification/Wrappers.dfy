/** Java's nullable references and java.util.Optional, as one datatype. */
module Wrappers {

  /** `None` stands for `null` or an empty Optional. */
  datatype Option<+T> = None | Some(value: T)
}
