/** Two small wrapper datatypes shared by the whole model.
    `Option` stands for a JavaScript value that may be `undefined` or `null`;
    `Result` stands for a promise that either resolves with a value or rejects. */
module Wrappers {

  datatype Option<+T> = None | Some(value: T)

  datatype Result<+T, +E> = Ok(value: T) | Err(error: E)
}
