/**
 * `sanitize_error_message`: an error text is cut to its first `max_length`
 * characters and replaced by a generic text when that prefix mentions a
 * secret.
 */
module Security {
  import opened Text

  /** The substrings that mark a message as leaking a secret, in lower case. */
  const SensitivePatterns: seq<string> := ["api_key", "sk-ant", "anthropic", "token", "secret", "password"]

  const GenericMessage := "Internal error occurred"

  const DefaultMaxLength := 200

  /** Some sensitive pattern occurs in `s`, ignoring case. */
  predicate HasSensitive(s: string) {
    exists k :: 0 <= k < |SensitivePatterns| && Contains(Lower(s), SensitivePatterns[k])
  }

  /** `sanitize_error_message(error, max_length)` with `str(error)` given as `message`. */
  function SanitizeErrorMessage(message: string, maxLength: int): (r: string)
    ensures r == GenericMessage || (|r| <= |message| && r == message[..|r|] && (maxLength >= 0 ==> |r| <= maxLength))
    ensures HasSensitive(PyTake(message, maxLength)) ==> r == GenericMessage
    ensures !HasSensitive(PyTake(message, maxLength)) ==> r == PyTake(message, maxLength)
  {
    var prefix := PyTake(message, maxLength);
    if HasSensitive(prefix) then GenericMessage else prefix
  }

  /** A pattern that starts and ends within the first `maxLength` characters is always caught. */
  lemma LeakWithinLimitHidden(message: string, maxLength: int, k: nat, i: nat)
    requires k < |SensitivePatterns|
    requires i + |SensitivePatterns[k]| <= maxLength && i + |SensitivePatterns[k]| <= |message|
    requires Lower(message)[i..i + |SensitivePatterns[k]|] == SensitivePatterns[k]
    ensures SanitizeErrorMessage(message, maxLength) == GenericMessage
  {
    var p := SensitivePatterns[k];
    var prefix := PyTake(message, maxLength);
    var n := |prefix|;
    assert prefix == message[..n];
    LowerOfPrefix(message, n);
    assert Lower(prefix)[i..i + |p|] == Lower(message)[i..i + |p|];
    ContainsAt(Lower(prefix), p, i);
  }

  /**
   * Only the kept prefix is inspected: whatever follows the first
   * `maxLength` characters, a clean prefix is returned as it is.
   */
  lemma TailNeverInspected(head: string, tail: string, maxLength: int)
    requires |head| == maxLength && !HasSensitive(head)
    ensures SanitizeErrorMessage(head + tail, maxLength) == head
  {
    assert PyTake(head + tail, maxLength) == head;
  }

  /** A secret that begins at position `maxLength` or later is not noticed. */
  lemma LateSecretExample()
    ensures SanitizeErrorMessage("bad token", 3) == "bad"
    ensures SanitizeErrorMessage("bad token", DefaultMaxLength) == GenericMessage
  {
    var clean := "bad";
    forall k | 0 <= k < |SensitivePatterns| ensures !Contains(Lower(clean), SensitivePatterns[k]) {
      assert |SensitivePatterns[k]| > 3;
    }
    TailNeverInspected(clean, " token", 3);
    assert Lower("bad token")[4..9] == "token";
    LeakWithinLimitHidden("bad token", DefaultMaxLength, 3, 4);
  }
}
