/**
 * Validation of runc container identifiers, as done when a hauler is
 * constructed: the identifier must match `^[\w-]+$` and hold at most 1024
 * characters. `\w` is ASCII here, as for a Python 2 pattern without the
 * UNICODE or LOCALE flag.
 */
module ContainerIds {

  const MaxIdLength := 1024

  /** A character of the class `[\w-]`. */
  predicate IsIdChar(c: char)
  {
    ('a' <= c <= 'z') || ('A' <= c <= 'Z') || ('0' <= c <= '9') || c == '_' || c == '-'
  }

  predicate AllIdChars(s: string)
  {
    forall i :: 0 <= i < |s| ==> IsIdChar(s[i])
  }

  /**
   * The strings `re.match("^[\w-]+$", s)` accepts. Python's `$` matches at the
   * end of the string and also just before a newline that ends it, so one
   * trailing "\n" after the identifier characters is let through.
   */
  predicate MatchesIdPattern(s: string)
  {
    || (s != [] && AllIdChars(s))
    || (|s| >= 2 && s[|s| - 1] == '\n' && AllIdChars(s[..|s| - 1]))
  }

  /** The identifiers the constructor accepts as written. */
  predicate AcceptedAsWritten(s: string)
  {
    MatchesIdPattern(s) && |s| <= MaxIdLength
  }

  /**
   * The identifiers the check is evidently meant to accept: one to 1024
   * characters of `[A-Za-z0-9_-]`. Such an identifier holds no line break,
   * no path separator and no '='.
   */
  predicate ValidCtid(s: string)
    ensures ValidCtid(s) ==> '\n' !in s && '/' !in s && '=' !in s
  {
    0 < |s| <= MaxIdLength && AllIdChars(s)
  }

  /** The check as written accepts "a\n", which is not an identifier of the intended form. */
  lemma TrailingNewlineAccepted()
    ensures AcceptedAsWritten("a\n") && !ValidCtid("a\n")
  {
    assert "a\n"[..1] == "a";
    assert !IsIdChar("a\n"[1]);
  }

  /**
   * The intended check rejects exactly what the written one accepts with a
   * trailing newline, and nothing else: it is the written check restricted to
   * strings that do not end in "\n".
   */
  lemma ValidCtidIsAcceptedWithoutNewline(s: string)
    ensures ValidCtid(s) <==> AcceptedAsWritten(s) && (s == [] || s[|s| - 1] != '\n')
  {
    if AcceptedAsWritten(s) && s != [] && s[|s| - 1] != '\n' {
      assert AllIdChars(s);
    }
  }
}
