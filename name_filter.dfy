/**
 * The character filter of the name field's `beforeinput` handler: the
 * inserted text is tested against the pattern `^[a-zA-Z\s'-]+$`.
 */
module NameFilter {
  import opened Wrappers

  /**
   * The characters JavaScript's `\s` class matches: ECMAScript WhiteSpace
   * (TAB, VT, FF, SPACE, NBSP, ZWNBSP and the Unicode Zs category) and
   * LineTerminator (LF, CR, LS, PS).
   */
  predicate IsJsWhitespace(c: char) {
    c == '\t' || c == '\n' || c == '\U{000B}' || c == '\U{000C}' || c == '\r' || c == ' '
    || c == '\U{00A0}' || c == '\U{1680}' || ('\U{2000}' <= c <= '\U{200A}')
    || c == '\U{2028}' || c == '\U{2029}' || c == '\U{202F}' || c == '\U{205F}'
    || c == '\U{3000}' || c == '\U{FEFF}'
  }

  /** One character of the class `[a-zA-Z\s'-]`. */
  predicate IsAllowedChar(c: char) {
    ('a' <= c <= 'z') || ('A' <= c <= 'Z') || IsJsWhitespace(c) || c == '\'' || c == '-'
  }

  /** A left-to-right scan of the text against the character class. */
  function AllAllowed(s: string): (b: bool)
    ensures b <==> forall i :: 0 <= i < |s| ==> IsAllowedChar(s[i])
  {
    s == [] || (IsAllowedChar(s[0]) && AllAllowed(s[1..]))
  }

  /** The whole pattern `^[a-zA-Z\s'-]+$`: one or more allowed characters. */
  predicate MatchesNamePattern(s: string) {
    |s| > 0 && AllAllowed(s)
  }

  /**
   * Whether a `beforeinput` event with this inserted text (`e.data`, absent
   * for deletions and other non-text edits) makes the name field flash:
   * absent or empty text returns early, otherwise the text must fail the pattern.
   */
  function Triggers(inserted: Option<string>): (b: bool)
    ensures b <==> inserted.Some? && exists i :: 0 <= i < |inserted.value| && !IsAllowedChar(inserted.value[i])
  {
    inserted.Some? && inserted.value != [] && !MatchesNamePattern(inserted.value)
  }

  /** Whether allowed text stays allowed when text is joined to it: exactly when both parts are allowed. */
  lemma {:induction false} AllowedConcat(s: string, t: string)
    ensures AllAllowed(s + t) <==> AllAllowed(s) && AllAllowed(t)
  {
    if s != [] {
      assert (s + t)[1..] == s[1..] + t;
      AllowedConcat(s[1..], t);
    } else {
      assert s + t == t;
    }
  }

  /**
   * Checking only the inserted text is enough: inserting text at any position
   * of an allowed value keeps it allowed exactly when the insertion does not
   * make the field flash.
   */
  lemma InsertionKeepsAllowed(v: string, i: nat, inserted: string)
    requires i <= |v| && AllAllowed(v)
    ensures AllAllowed(v[..i] + inserted + v[i..]) <==> !Triggers(Some(inserted))
  {
    assert v == v[..i] + v[i..];
    AllowedConcat(v[..i], v[i..]);
    AllowedConcat(v[..i], inserted);
    AllowedConcat(v[..i] + inserted, v[i..]);
  }
}
