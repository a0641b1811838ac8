/** The optional value returned by the queries that may find nothing. */
module Optional {

  datatype Option<+T> = None | Some(value: T)

}
