/** Small failure-carrying datatypes shared by every page of the dashboard. */
module Wrappers {

  /** A value that may be absent: a nullable column or a `find` that matched nothing. */
  datatype Option<+T> = None | Some(value: T)

  /** Either an accepted value or the reason it was rejected. */
  datatype Result<+T, +E> = Ok(value: T) | Err(error: E)

  /** The outcome of one query against the hosted database. A `null` data field
      with no error is delivered as `Loaded([])`, as every page does with `data || []`. */
  datatype Fetched<+T> = Loaded(rows: seq<T>) | FetchError
}
