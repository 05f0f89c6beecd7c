/**
 * Cache keys and the fresh-key supply shared by every cache variant.
 *
 * In the C# code every key is a string and new keys come from
 * Guid.NewGuid().ToString(). Here a key is either one the cache generated
 * (the serial-th GUID handed out by its supply) or a string the caller made
 * up. Keeping the two apart states the assumption the code relies on: a
 * made-up string never equals a GUID the cache generates.
 */
module Keys {

  import opened Wrappers

  datatype Key = Generated(serial: nat) | Given(text: string)

  /** Char.IsWhiteSpace: the Unicode separators and the control characters U+0009..U+000D, U+0085. */
  predicate IsWhiteSpace(c: char): (r: bool)
    ensures c == ' ' || c == '\t' || c == '\n' || c == '\r' ==> r
    ensures ('0' <= c <= '9') || ('a' <= c <= 'z') || ('A' <= c <= 'Z') || c == '-' ==> !r
  {
    var n := c as int;
    (0x09 <= n <= 0x0D) || n == 0x20 || n == 0x85 || n == 0xA0 || n == 0x1680
    || (0x2000 <= n <= 0x200A) || n == 0x2028 || n == 0x2029 || n == 0x202F
    || n == 0x205F || n == 0x3000
  }

  /**
   * String.IsNullOrWhiteSpace on a key that may be null. A generated key is
   * the text of a GUID, which is never blank.
   */
  predicate IsNullOrWhiteSpace(key: Option<Key>): (r: bool)
    ensures key.None? ==> r
    ensures key == Some(Given("")) ==> r
    ensures key.Some? && key.value.Generated? ==> !r
  {
    match key
    case None => true
    case Some(Generated(_)) => false
    case Some(Given(text)) => forall i :: 0 <= i < |text| ==> IsWhiteSpace(text[i])
  }

  /** A key that can already exist when the supply's counter stands at `next`. */
  predicate Known(k: Key, next: nat) {
    k.Generated? ==> k.serial < next
  }

  /** A key a caller may hand in: null, made up, or one the cache already issued. */
  predicate CallerKey(key: Option<Key>, next: nat) {
    key.Some? ==> Known(key.value, next)
  }

  /**
   * GenerateNewKey: the next GUID from the supply, and the supply's new
   * counter. The key is non-blank and unknown before the call, so it
   * differs from every key that existed before.
   */
  function GenerateNewKey(next: nat): (r: (Key, nat))
    ensures !IsNullOrWhiteSpace(Some(r.0))
    ensures !Known(r.0, next) && Known(r.0, r.1)
    ensures next < r.1
    ensures forall k :: Known(k, next) ==> k != r.0 && Known(k, r.1)
  {
    (Generated(next), next + 1)
  }
}
