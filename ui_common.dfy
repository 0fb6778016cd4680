/** Types and string tests shared by the three view-models of the Aura client. */
module UiCommon {

  /** Kotlin's nullable value: `null` is `None`. */
  datatype Option<T> = None | Some(value: T)

  /** The string resources a view-model stores in the `error` field of its UI state. */
  datatype ErrorRes =
    | AmountInvalid    // R.string.amount_invalid
    | TransferFailure  // R.string.transfert_failure
    | Network          // R.string.error_network
    | Generic          // R.string.error_generic
    | UserNotFound     // R.string.error_user_not_found

  /**
   * Kotlin's `Char.isWhitespace()` on the JVM: `Character.isWhitespace(c)`
   * (tab, line feed, vertical tab, form feed, carriage return, U+001C..U+001F and the
   * breaking Unicode spaces) or `Character.isSpaceChar(c)` (every Unicode space, line and
   * paragraph separator, the non-breaking ones included).
   */
  predicate IsWhitespace(c: char) {
    var n := c as int;
    (0x09 <= n <= 0x0D) || (0x1C <= n <= 0x20) || n == 0xA0 || n == 0x1680
    || (0x2000 <= n <= 0x200A) || n == 0x2028 || n == 0x2029 || n == 0x202F
    || n == 0x205F || n == 0x3000
  }

  /** Kotlin's `CharSequence.isBlank()`: every character, scanned from the front, is whitespace. */
  function IsBlank(s: string): (blank: bool)
    ensures blank <==> forall i :: 0 <= i < |s| ==> IsWhitespace(s[i])
  {
    if |s| == 0 then true else IsWhitespace(s[0]) && IsBlank(s[1..])
  }
}
