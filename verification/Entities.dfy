// The persistent entity and the result type of the repositories
// (app/Entities/User.h, app/Entities/OperationResult.h).
module Entities {
  import opened Common

  datatype User = User(id: int, username: string, passwordHash: string, salt: string)

  // Reading the wrong variant throws.
  datatype OperationResult<T> = SuccessResult(result: T) | FailureResult(errorMessage: string) {
    function GetResult(): Result<T> {
      if SuccessResult? then Ok(result) else Throws("Attempted to access result of a failed operation.")
    }

    function GetErrorMessage(): Result<string> {
      if FailureResult? then Ok(errorMessage)
      else Throws("Attempted to access error message of a successful operation.")
    }
  }
}
