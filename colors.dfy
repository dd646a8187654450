/**
 * Colour sanitising of the generator: a requested fill or background colour
 * is used only if it matches `^#([0-9a-fA-F]{6})$` under Python's `re.match`,
 * and otherwise replaced by the handler's default.
 */
module Colors {
  import opened Text
  import opened Json

  const DefaultFill: string := "#000000"
  const DefaultBack: string := "#FFFFFF"

  /** The regex quantifier `[0-9a-fA-F]{n}` applied at position `i`. */
  predicate HexRun(s: string, i: nat, n: nat)
    decreases n
  {
    n == 0 || (i < |s| && IsHexDigit(s[i]) && HexRun(s, i + 1, n - 1))
  }

  /** Python's `$` without MULTILINE: the end of the string, or just before a final newline. */
  predicate AtEnd(s: string, i: nat)
  {
    i == |s| || (i + 1 == |s| && s[i] == '\n')
  }

  /** `HEX_RE.match(s)`: `^`, `#`, six hex digits, `$`. */
  predicate MatchesHexColor(s: string)
  {
    |s| > 0 && s[0] == '#' && HexRun(s, 1, 6) && AtEnd(s, 7)
  }

  /** Reference shape: exactly `#` followed by six hex digits of either case. */
  predicate IsHexColor(s: string)
  {
    |s| == 7 && s[0] == '#' && forall k :: 1 <= k < 7 ==> IsHexDigit(s[k])
  }

  /** The regex run matches exactly when the `n` characters from `i` exist and are all hex digits. */
  lemma {:induction false} HexRunMeaning(s: string, i: nat, n: nat)
    requires i <= |s|
    ensures HexRun(s, i, n) <==> i + n <= |s| && forall k :: i <= k < i + n ==> IsHexDigit(s[k])
    decreases n
  {
    if n > 0 {
      if i < |s| {
        HexRunMeaning(s, i + 1, n - 1);
      }
    }
  }

  /**
   * What the pattern accepts: a strict `#RRGGBB` string, or one followed by
   * a single trailing newline (Python's `$` matches before a final `\n`).
   */
  lemma MatchesHexColorMeaning(s: string)
    ensures MatchesHexColor(s) <==> IsHexColor(s) || (|s| == 8 && s[7] == '\n' && IsHexColor(s[..7]))
  {
    if |s| > 0 {
      HexRunMeaning(s, 1, 6);
    }
    if |s| == 8 {
      assert forall k :: 1 <= k < 7 ==> s[..7][k] == s[k];
    }
  }

  /** `_safe_color(c, default)`: `c` itself if it is a string the pattern accepts, else `default`. */
  function SafeColor(c: Value, default: string): (r: string)
    ensures r == default || (c.Str? && r == c.s && MatchesHexColor(r))
  {
    if c.Str? && MatchesHexColor(c.s) then c.s else default
  }

  /**
   * `SafeColor` returns the caller's string unchanged exactly when it is a
   * string of the form `#` plus six hex digits (optionally followed by one
   * final newline), and the default otherwise.
   */
  lemma SafeColorChoice(c: Value, default: string)
    ensures c.Str? && (IsHexColor(c.s) || (|c.s| == 8 && c.s[7] == '\n' && IsHexColor(c.s[..7])))
            ==> SafeColor(c, default) == c.s
    ensures !c.Str? || !(IsHexColor(c.s) || (|c.s| == 8 && c.s[7] == '\n' && IsHexColor(c.s[..7])))
            ==> SafeColor(c, default) == default
  {
    if c.Str? {
      MatchesHexColorMeaning(c.s);
    }
  }

  /** Short `#RGB` forms, `#`-less forms and the empty string always yield the default. */
  lemma ShortOrBareRejected(s: string, default: string)
    requires |s| == 4 || s == [] || s[0] != '#'
    ensures SafeColor(Str(s), default) == default
  {
    MatchesHexColorMeaning(s);
  }

  /** With a default the pattern accepts, the result is always accepted by the pattern. */
  lemma SafeColorAccepted(c: Value, default: string)
    requires MatchesHexColor(default)
    ensures MatchesHexColor(SafeColor(c, default))
  {
  }

  /** Sanitising an already sanitised colour changes nothing. */
  lemma SafeColorIdempotent(c: Value, default: string)
    ensures SafeColor(Str(SafeColor(c, default)), default) == SafeColor(c, default)
  {
  }

  /** Both defaults the handler passes are accepted by the pattern, in strict form. */
  lemma DefaultsAreHexColors()
    ensures IsHexColor(DefaultFill) && MatchesHexColor(DefaultFill)
    ensures IsHexColor(DefaultBack) && MatchesHexColor(DefaultBack)
  {
    MatchesHexColorMeaning(DefaultFill);
    MatchesHexColorMeaning(DefaultBack);
  }

  /** Accepted values keep their case and a trailing newline is passed through. */
  lemma SafeColorKeepsSpelling()
    ensures SafeColor(Str("#abcDEF"), DefaultFill) == "#abcDEF"
    ensures SafeColor(Str("#A1B2C3\n"), DefaultFill) == "#A1B2C3\n"
    ensures SafeColor(Str("#FFF"), DefaultBack) == DefaultBack
  {
    MatchesHexColorMeaning("#abcDEF");
    MatchesHexColorMeaning("#A1B2C3\n");
    ShortOrBareRejected("#FFF", DefaultBack);
  }
}
