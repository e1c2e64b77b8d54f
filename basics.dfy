/** Option and Result, the two failure-carrying wrappers used throughout the model.
    In the return table and in the statistics, `None` stands for pandas' NaN. */
module Basics {

  datatype Option<+T> = None | Some(value: T)

  datatype Result<+T, +E> = Ok(value: T) | Err(error: E)
}
