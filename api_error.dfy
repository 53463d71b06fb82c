/** The cart service's error taxonomy: `ApiError` and its two subclasses, each carrying
    an HTTP status code, a message and optional details. The class hierarchy becomes a
    tag (`errorClass`) plus a subclass test. */
module ApiErrors {
  import opened Js

  datatype ErrorClass = ApiErrorClass | ValidationErrorClass | NotFoundErrorClass

  datatype ApiError = ApiError(errorClass: ErrorClass, statusCode: int, message: string, details: Value)
  {
    /** `this.name = this.constructor.name`: the concrete class name. */
    function Name(): string
    {
      match errorClass
      case ApiErrorClass => "ApiError"
      case ValidationErrorClass => "ValidationError"
      case NotFoundErrorClass => "NotFoundError"
    }

    /** `this instanceof C`: every error is an `ApiError`, and a subclass instance is an
        instance of its own class only. */
    predicate InstanceOf(c: ErrorClass)
    {
      c == ApiErrorClass || c == errorClass
    }
  }

  /** `new ApiError(statusCode, message, details)`. */
  function NewApiError(statusCode: int, message: string, details: Value): (e: ApiError)
    ensures e.statusCode == statusCode && e.message == message && e.details == details
    ensures e.Name() == "ApiError" && e.InstanceOf(ApiErrorClass)
    ensures !e.InstanceOf(ValidationErrorClass) && !e.InstanceOf(NotFoundErrorClass)
  {
    ApiError(ApiErrorClass, statusCode, message, details)
  }

  /** `new ValidationError(message, details)`: status 400. */
  function ValidationError(message: string, details: Value): (e: ApiError)
    ensures e.statusCode == 400 && e.message == message && e.details == details
    ensures e.Name() == "ValidationError"
    ensures e.InstanceOf(ApiErrorClass) && e.InstanceOf(ValidationErrorClass)
    ensures !e.InstanceOf(NotFoundErrorClass)
  {
    ApiError(ValidationErrorClass, 400, message, details)
  }

  /** `new NotFoundError(message, details)`: status 404. */
  function NotFoundError(message: string, details: Value): (e: ApiError)
    ensures e.statusCode == 404 && e.message == message && e.details == details
    ensures e.Name() == "NotFoundError"
    ensures e.InstanceOf(ApiErrorClass) && e.InstanceOf(NotFoundErrorClass)
    ensures !e.InstanceOf(ValidationErrorClass)
  {
    ApiError(NotFoundErrorClass, 404, message, details)
  }
}
