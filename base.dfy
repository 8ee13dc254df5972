/** Option and Result values shared by the model, and the one error kind the
    dialog can raise: a missing key in a preset entry (Python's KeyError). */
module Base {

  datatype Option<+T> = None | Some(value: T)

  datatype Error = KeyError(key: string)

  datatype Result<+T> = Ok(value: T) | Err(error: Error)
}
