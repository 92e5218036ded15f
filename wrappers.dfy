/** The optional value used for route parameters (`useParams()` may leave a
    parameter undefined) and for lookups that can find nothing. */
module Wrappers {

  datatype Option<+T> = None | Some(value: T)

}
