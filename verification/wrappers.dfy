/** The optional values of the coordinator: a `track | null` field, an `id | undefined` argument. */
module Wrappers {

  datatype Option<+T> = None | Some(value: T)

}
