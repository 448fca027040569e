/** Optional values, results and the errors the drivers raise. */
module Wrappers {

  datatype Option<T> = None | Some(value: T)

  /** Every error below is a Python `ValueError` in the drivers; the constructors
      keep apart the situations that raise it. */
  datatype Error =
    | ProjectPathMissing(path: string)        // the project directory does not exist
    | MainFileNotPython(mainFile: string)     // the entry file does not end in `.py`
    | NotABoolean(text: string)               // configparser's getboolean met another word
    | NotAFloat(text: string)                 // Python's float() refused the text

  datatype Result<T> = Ok(value: T) | Err(error: Error)
}
