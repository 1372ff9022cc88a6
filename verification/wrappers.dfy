/** The optional value used wherever the site's code may produce "nothing":
    a missing JSON key, an unparsable number, a request not sent. */
module Wrappers {

  datatype Option<+T> = None | Some(value: T)
}
