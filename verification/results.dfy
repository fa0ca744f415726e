/**
 Failure-carrying wrappers shared by the inference model: an optional value
 (a tensor index that may not exist, a cached bundle that may not be loaded)
 and a result that is either a value or the error the Python code would raise.
 */
module Results {

  datatype Option<+T> = None | Some(value: T)

  datatype Result<+T, +E> = Ok(value: T) | Err(error: E)
}
