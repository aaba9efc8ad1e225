/** The optional value used for "not applicable" record entries and for
    script variables that a skipped branch leaves unbound. */
module Wrappers {

  datatype Option<+T> = None | Some(value: T)

}
