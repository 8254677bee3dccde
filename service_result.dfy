/**
 * The success/failure envelope every service call returns. A result is built
 * only through its factories (the constructor is private and the setters are
 * private), so these functions are the whole behaviour.
 */
module ServiceResults {
  import opened Options

  /** `ServiceResult<T>`; `data` is `None` where C# leaves `default(T)`. */
  datatype ServiceResult<T> = ServiceResult(isSuccess: bool, data: Option<T>, errors: seq<string>)

  /** The non-generic `ServiceResult`, for operations that return no data. */
  datatype UnitResult = UnitResult(isSuccess: bool, errors: seq<string>)

  /** The private constructor: a null error list leaves the initial empty list. */
  function Construct<T>(isSuccess: bool, data: Option<T>, errors: Option<seq<string>>): (r: ServiceResult<T>)
    ensures r.isSuccess == isSuccess && r.data == data
    ensures errors.None? ==> r.errors == []
    ensures errors.Some? ==> r.errors == errors.value
  {
    ServiceResult(isSuccess, data, if errors.Some? then errors.value else [])
  }

  function Success<T>(data: T): (r: ServiceResult<T>)
    ensures r.isSuccess && r.data == Some(data) && r.errors == []
  {
    Construct(true, Some(data), None)
  }

  function Failure<T>(error: string): (r: ServiceResult<T>)
    ensures !r.isSuccess && r.data == None && r.errors == [error]
  {
    Construct(false, None, Some([error]))
  }

  /** `Failure(IEnumerable<string>)`: the errors in the order given. */
  function FailureAll<T>(errors: seq<string>): (r: ServiceResult<T>)
    ensures !r.isSuccess && r.data == None && r.errors == errors
  {
    Construct(false, None, Some(errors))
  }

  function ConstructUnit(isSuccess: bool, errors: Option<seq<string>>): (r: UnitResult)
    ensures r.isSuccess == isSuccess
    ensures errors.None? ==> r.errors == []
    ensures errors.Some? ==> r.errors == errors.value
  {
    UnitResult(isSuccess, if errors.Some? then errors.value else [])
  }

  function UnitSuccess(): (r: UnitResult)
    ensures r.isSuccess && r.errors == []
  {
    ConstructUnit(true, None)
  }

  function UnitFailure(error: string): (r: UnitResult)
    ensures !r.isSuccess && r.errors == [error]
  {
    ConstructUnit(false, Some([error]))
  }

  function UnitFailureAll(errors: seq<string>): (r: UnitResult)
    ensures !r.isSuccess && r.errors == errors
  {
    ConstructUnit(false, Some(errors))
  }
}
