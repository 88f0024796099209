/** Failure-carrying results for the exporter's error paths. */
module Wrappers {

  datatype Option<+T> = None | Some(value: T)

  /** The exceptions the modelled code can raise, one constructor per cause. */
  datatype Error =
    | SettingNotFound(key: string)    // ExportSettingNoFoundError from ExportConfig.value
    | EmptySeparator                  // ValueError from str.rsplit with an empty separator
    | UnmappedOutputSize              // the bare `raise` at the end of get_size
    | LabelUnpack(key: string)        // ValueError unpacking label.split("#") into two names
    | UnboundUserChannel(key: string) // UnboundLocalError: user_channel read before assignment
    | DirectoryFailed(path: string)   // create_directory re-raising a failed os.mkdir
    | UndefinedName                   // NameError: ProjectError is not defined, raised while matching the except clause

  datatype Result<+T> = Ok(value: T) | Err(error: Error)
}
