/**
 * `sanitize_paths`: the canonical form in which a registry path and a process
 * command line or module name are compared.
 */
module PathNormalizer {
  import opened Strings

  /**
   * Lower-case, then delete `%systemroot%\`, `\systemroot\`, `%windir%`, `\??\`,
   * NULs, double quotes and single quotes, in that order.
   */
  function Sanitize(path: string): (r: string)
    ensures |r| <= |path|
    ensures '\0' !in r && '"' !in r && '\'' !in r
    ensures NoUpperAscii(r)
  {
    var p := Lower(path);
    var p := RemoveAll(p, "%systemroot%\\");
    var p := RemoveAll(p, "\\systemroot\\");
    var p := RemoveAll(p, "%windir%");
    var p := RemoveAll(p, "\\??\\");
    var p := RemoveAll(p, "\0");
    var p := RemoveAll(p, "\"");
    RemoveAll(p, "'")
  }

  /** The result only depends on the lower-cased input. */
  lemma SanitizeIgnoresCase(s: string)
    ensures Sanitize(Upper(s)) == Sanitize(s)
    ensures Sanitize(Lower(s)) == Sanitize(s)
  {
    LowerOfUpper(s);
    LowerHasNoUpper(s);
    LowerOfLowered(Lower(s));
  }

  /** Lower-casing a sanitised path again changes nothing. */
  lemma LowerOfSanitized(s: string)
    ensures Lower(Sanitize(s)) == Sanitize(s)
  {
    LowerOfLowered(Sanitize(s));
  }

  /**
   * Sanitising is not idempotent: deleting a quote can join the pieces of a
   * `\??\` prefix that a second pass then deletes.
   */
  lemma SanitizeNotIdempotent(s: string)
    requires s == "\\?'?\\"
    ensures Sanitize(s) == "\\??\\"
    ensures Sanitize(Sanitize(s)) == ""
  {
    assert Lower(s) == s;
    PrefixMissed();
    OtherCharKept('\0');
    OtherCharKept('"');
    QuoteDeleted();
    var t := Sanitize(s);
    assert Lower(t) == t;
    assert RemoveAll(t, "\\??\\") == "";
  }

  lemma PrefixMissed()
    ensures RemoveAll("\\?'?\\", "\\??\\") == "\\?'?\\"
  {
    var s := "\\?'?\\";
    var pat := "\\??\\";
    assert RemoveAll("'?\\", pat) == "'?\\";
    assert "?'?\\"[..4][0] != pat[0];
    assert RemoveAll("?'?\\", pat) == "?'?\\";
    assert s[..4][2] != pat[2];
  }

  lemma OtherCharKept(c: char)
    requires c != '\\' && c != '?' && c != '\''
    ensures RemoveAll("\\?'?\\", [c]) == "\\?'?\\"
  {
    assert RemoveAll("", [c]) == "";
    assert RemoveAll("\\", [c]) == "\\";
    assert RemoveAll("?\\", [c]) == "?\\";
    assert RemoveAll("'?\\", [c]) == "'?\\";
    assert RemoveAll("?'?\\", [c]) == "?'?\\";
  }

  lemma QuoteDeleted()
    ensures RemoveAll("\\?'?\\", "'") == "\\??\\"
  {
    assert RemoveAll("", "'") == "";
    assert RemoveAll("\\", "'") == "\\";
    assert RemoveAll("?\\", "'") == "?\\";
    assert RemoveAll("'?\\", "'") == "?\\";
    assert RemoveAll("?'?\\", "'") == "??\\";
  }
}
