/** Status codes, optional values and fixed-capacity text shared by every module. */
module Esp {

  /** The subset of `esp_err_t` values the firmware returns. */
  datatype ErrCode = EspOk | EspFail | InvalidArg | NoMem | InvalidState | NotFound

  /** A C pointer that may be NULL. */
  datatype Option<T> = None | Some(value: T) {
    function GetOr(default: T): T {
      match this
      case Some(v) => v
      case None => default
    }
  }

  /** A value, or the error code that the C function returned instead. */
  datatype Result<T> = Ok(value: T) | Err(code: ErrCode)

  /** What `strncpy(dst, src, cap - 1)` followed by `dst[cap - 1] = '\0'` leaves in a `char[cap]`. */
  function Truncate(s: string, cap: nat): (r: string)
    requires cap >= 1
    ensures |r| <= cap - 1 && |r| <= |s|
    ensures r == s[..|r|]
    ensures |s| <= cap - 1 ==> r == s
    ensures |s| > cap - 1 ==> |r| == cap - 1
  {
    if |s| <= cap - 1 then s else s[..cap - 1]
  }
}
