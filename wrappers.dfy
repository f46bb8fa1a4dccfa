// Option and error-code wrappers shared by every module of the model.
module Wrappers {
  datatype Option<T> = None | Some(value: T)

  /** A kernel-style result: a value, or a negative errno. */
  datatype Result<T> = Ok(value: T) | Err(code: int)
}

/** The errno values the modelled drivers return (include/uapi/asm-generic/errno*.h). */
module Errno {
  const ENOMEM: int := 12
  const ENODEV: int := 19
  const EINVAL: int := 22
  const EPROBE_DEFER: int := 517
  const ENOTSUPP: int := 524
}
