/** Option and Result, used wherever the modelled code can fail or a value can be absent. */
module Wrappers {

  datatype Option<+T> = None | Some(value: T)

  datatype Result<+T, +E> = Ok(value: T) | Err(error: E)
}

/** The exceptions the modelled Python functions raise, one constructor per kind. */
module Exceptions {

  datatype Error =
    | ValueError(message: string)       // ValueError with the message the source gives
    | InvalidLanguage(language: string) // the ValueError of the language check, naming the lowered tag
    | FileNotFound(path: string)        // FileNotFoundError, including open() of a missing file
    | KeyError(key: string)             // a dictionary lookup of an absent key
    | JsonDecodeError(path: string)     // json.load on a file that is not valid JSON
    | UnicodeDecodeError(path: string)  // a text file that is not valid UTF-8
    | OSError(path: string)             // open() or read() of an existing file failing, e.g. PermissionError
    | TypeError                         // e.g. indexing a list by a string key
    | AttributeError                    // e.g. `.append` on something that is not a list
}
