/** Optional values (C# nullable / null references) and success-or-error results
    (the controller's Ok / BadRequest responses). */
module Wrappers {

  datatype Option<+T> = None | Some(value: T)

  datatype Result<+T, +E> = Success(value: T) | Failure(error: E)
}
