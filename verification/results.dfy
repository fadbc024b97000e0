/** The error paths of the scaffolder: Python exceptions become values. */
module Results {

  datatype Error =
    | FileExists(name: string)       // FileExistsError: the project directory is already there
    | NoSuchPath                     // FileNotFoundError from os.makedirs("")
    | RenderFailed(template: seq<string>)  // a Jinja load or render error for that template

  datatype Option<T> = None | Some(value: T)

  datatype Result<T> = Ok(value: T) | Err(error: Error)

  datatype Status = Success | Failure(error: Error)
}
