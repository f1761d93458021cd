/** The Option datatype: the model's stand-in for a Python lookup that raises. */
module Options {

  /** `None` stands for a lookup that raised (`KeyError`, `ValueError`). */
  datatype Option<+T> = None | Some(value: T)
}
