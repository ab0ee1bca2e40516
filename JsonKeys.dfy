/** `JsonKey`: the key of a JSON object entry, a non-blank string whose identity is the string alone. */
module JsonKeys {
  import opened Wrappers

  /** `String.trim().isEmpty()`: `trim` strips every character up to U+0020 from both ends. */
  predicate IsBlank(s: string) {
    forall i :: 0 <= i < |s| ==> s[i] <= ' '
  }

  datatype KeyText = KeyText(key: string) {
    /** `getKey()` and `toString()`: the stored text, verbatim. */
    function GetKey(): string { key }
  }

  /** A key as the constructor admits it: its text is never blank. */
  type JsonKey = k: KeyText | !IsBlank(k.key)
    witness var w := KeyText("_"); assert w.key[0] == '_'; w

  const EMPTY_KEY_MESSAGE := "Key cannot be empty"

  /** The constructor `JsonKey(String)`; `None` is Java's `null`. */
  function NewKey(s: Option<string>): (r: Result<JsonKey, Exception>)
    ensures r.Success? <==> s.Some? && !IsBlank(s.value)
    ensures r.Success? ==> r.value.GetKey() == s.value
    ensures r.Failure? ==> r.error == IllegalArgumentException(EMPTY_KEY_MESSAGE)
  {
    if s.None? || IsBlank(s.value) then Failure(IllegalArgumentException(EMPTY_KEY_MESSAGE))
    else Success(KeyText(s.value))
  }

  /** `equals`: two keys are equal when their strings are. */
  predicate KeyEquals(a: JsonKey, b: JsonKey) {
    a.key == b.key
  }

  /** Wrap-around of a Java `int` computation to 32 bits. */
  function Wrap32(x: int): (r: int32)
    ensures (r as int - x) % 0x1_0000_0000 == 0
  {
    var m := x % 0x1_0000_0000;
    if m > INT_MAX then (m - 0x1_0000_0000) as int32 else m as int32
  }

  /** `String.hashCode()`: h = 31 * h + c over the characters, in 32-bit arithmetic. */
  function StringHash(s: string): int32 {
    if s == [] then 0 else Wrap32(31 * StringHash(s[..|s| - 1]) as int + s[|s| - 1] as int)
  }

  /** `hashCode()` = `Objects.hash(key)` = 31 * 1 + key.hashCode(). */
  function HashCode(k: JsonKey): int32 {
    Wrap32(31 + StringHash(k.key) as int)
  }

  /** Keys compare by their string only, so Dafny's equality on keys is `equals`. */
  lemma KeyEqualsIsIdentity(a: JsonKey, b: JsonKey)
    ensures KeyEquals(a, b) <==> a == b
  {
  }

  /** Equal keys hash alike, since the hash reads the string only. */
  lemma EqualKeysHashAlike(a: JsonKey, b: JsonKey)
    requires KeyEquals(a, b)
    ensures HashCode(a) == HashCode(b)
  {
  }
}
