/** The optional value used wherever the source either produces something or raises. */
module Outcomes {

  datatype Option<+T> = None | Some(value: T)

}
