/** The optional-value wrapper used throughout the model; `None` also stands for
    "this step threw" where a host operation can raise an exception. */
module Options {
  datatype Option<T> = None | Some(value: T)
}
