/** Option and Result, usable with `:-`, and the errors the Feishu hook raises. */
module Wrappers {

  datatype Option<+T> = None | Some(value: T) {
    predicate IsFailure() { None? }

    function PropagateFailure<U>(): Option<U>
      requires None?
    {
      None
    }

    function Extract(): T
      requires Some?
    {
      value
    }
  }

  datatype Result<+T, +E> = Ok(value: T) | Err(error: E) {
    predicate IsFailure() { Err? }

    function PropagateFailure<U>(): Result<U, E>
      requires Err?
    {
      Err(error)
    }

    function Extract(): T
      requires Ok?
    {
      value
    }
  }

  /** Python truthiness of an optional string: `not s` holds for None and for "". */
  predicate NonEmpty(s: Option<string>)
  {
    s.Some? && |s.value| > 0
  }

  /** One constructor per exception that hooks/feishu.py lets escape. */
  datatype Error =
    | UnsupportedType(messageType: string)  // ValueError in send: type not on the whitelist
    | MissingSecret                         // AirflowException in _get_sign: empty or absent password
    | MessageNotDict                        // TypeError in _build_message: a post message that is not a dict
    | MissingKey(key: string)               // KeyError: the post message lacks 'title' or 'tags'
    | DataUnbound                           // UnboundLocalError: _build_message with a type it has no branch for
    | MissingHost                           // ValueError in get_conn: empty or absent host
    | MalformedResponse                     // the reply is not an object, or its StatusCode is not int()-convertible
    | DeliveryFailed                        // AirflowException in send: StatusCode missing or not 0
}
