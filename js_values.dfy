/** The small Option wrapper used for values that may be absent (null in the source). */
module Wrappers {
  datatype Option<+T> = None | Some(value: T) {
    /** The value, or `default` when absent (`x || default` for an object-valued `x`). */
    function GetOr(default: T): (r: T)
      ensures Some? ==> r == value
      ensures None? ==> r == default
    {
      match this
      case Some(v) => v
      case None => default
    }
  }
}

/**
  JavaScript values as the two context providers see them: strings that may be
  missing, their truthiness and their String() coercion, and the server records
  (users, messages) and request outcomes they consume.
 */
module JsValues {
  import opened Wrappers

  /** A field that holds a string or is undefined or null. */
  datatype JsStr = Undefined | Null | Str(s: string)

  /** JavaScript truthiness of such a field: only a non-empty string is truthy. */
  predicate Truthy(v: JsStr) {
    v.Str? && v.s != ""
  }

  /** `String(v)`, which is also the key a value becomes when used as an object property. */
  function Key(v: JsStr): (k: string)
    ensures v.Str? ==> k == v.s
    ensures !v.Str? ==> k == "undefined" || k == "null"
  {
    match v
    case Undefined => "undefined"
    case Null => "null"
    case Str(s) => s
  }

  /** `a || b` for a field and a fallback value. */
  function Or(a: JsStr, b: JsStr): (r: JsStr)
    ensures Truthy(a) ==> r == a
    ensures !Truthy(a) ==> r == b
  {
    if Truthy(a) then a else b
  }

  /** A user record as the server sends it (peer directory entries, the signed-in user). */
  datatype User = User(id: JsStr, fullName: JsStr, profilePic: JsStr, bio: JsStr)

  /**
    A message record. `seen` is None when the object has no `seen` property
    (normalised history entries do not carry one).
   */
  datatype Message = Message(
    id: JsStr,
    senderId: JsStr,
    receiverId: JsStr,
    text: JsStr,
    image: JsStr,
    createdAt: JsStr,
    seen: Option<bool>)

  /**
    The outcome of one request: the reply had a truthy `success` and carried
    `data`, the reply came back without success, or the request threw
    (network error, non-2xx status).
   */
  datatype Reply<+T> = Success(data: T) | Unsuccessful | Thrown
}
