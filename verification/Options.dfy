/** The two result shapes the model uses for a nullable column and a fallible operation. */
module Options {
  datatype Option<+T> = None | Some(value: T)

  datatype Result<+T> = Ok(value: T) | Err(error: string)
}
