/** The optional value used for the three selection fields and for parsing ids. */
module Wrappers {

  /** `None` stands for the empty string the source uses as "nothing chosen". */
  datatype Option<+T> = None | Some(value: T)
}
