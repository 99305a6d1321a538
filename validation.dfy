/**
 * The field checks of the booking form: the DNI pattern `^\d{7,8}$` and the
 * email pattern `\S+@\S+\.\S+`, both as JavaScript's `RegExp.test` applies them.
 */
module Validation {

  /** JavaScript's `\d`: an ASCII digit. */
  predicate IsDigit(c: char)
  {
    '0' <= c <= '9'
  }

  /** `/^\d{7,8}$/.test(dni)`: the whole value is seven or eight digits. */
  predicate DniValid(dni: string)
  {
    7 <= |dni| <= 8 && forall i | 0 <= i < |dni| :: IsDigit(dni[i])
  }

  /** JavaScript's `\s`: the white-space and line-terminator characters. */
  predicate IsSpace(c: char)
  {
    || c == ' '
    || '\t' <= c <= '\r'
    || c == '\U{00A0}' || c == '\U{1680}'
    || '\U{2000}' <= c <= '\U{200A}'
    || c == '\U{2028}' || c == '\U{2029}' || c == '\U{202F}' || c == '\U{205F}'
    || c == '\U{3000}' || c == '\U{FEFF}'
  }

  /** No character of `t` is white space (`t` matches `\S*`). */
  predicate SpaceFree(t: string)
  {
    forall k | 0 <= k < |t| :: !IsSpace(t[k])
  }

  /**
   * The pattern matches around an `@` at `at` and a `.` at `dot`: a
   * non-space character just before the `@`, only non-space characters (at
   * least one) between them, and a non-space character just after the `.`.
   */
  predicate EmailShapeAt(s: string, at: int, dot: int)
  {
    && 0 < at && at + 1 < dot && dot + 1 < |s|
    && s[at] == '@' && s[dot] == '.'
    && !IsSpace(s[at - 1]) && !IsSpace(s[dot + 1])
    && forall k | at < k < dot :: !IsSpace(s[k])
  }

  /** `/\S+@\S+\.\S+/.test(email)`; the pattern is not anchored, so any part of the value may match. */
  predicate EmailValid(s: string)
  {
    exists at, dot | 0 <= at < |s| && 0 <= dot < |s| :: EmailShapeAt(s, at, dot)
  }

  /** `s[i..j]` is `x + "@" + y + "." + z` for non-empty, space-free `x`, `y`, `z` split at `at` and `dot`. */
  predicate PatternAt(s: string, i: int, at: int, dot: int, j: int)
  {
    && 0 <= i < at && at + 1 < dot && dot + 1 < j <= |s|
    && s[at] == '@' && s[dot] == '.'
    && SpaceFree(s[i..at]) && SpaceFree(s[at + 1..dot]) && SpaceFree(s[dot + 1..j])
  }

  /**
   * The email check accepts exactly the values that contain a substring of
   * the form `x@y.z` with `x`, `y` and `z` non-empty and free of white space.
   */
  lemma EmailValidIffPatternOccurs(s: string)
    ensures EmailValid(s) <==> exists i, at, dot, j :: PatternAt(s, i, at, dot, j)
  {
    if EmailValid(s) {
      var at, dot :| 0 <= at < |s| && 0 <= dot < |s| && EmailShapeAt(s, at, dot);
      assert SpaceFree(s[at - 1..at]);
      assert SpaceFree(s[at + 1..dot]);
      assert SpaceFree(s[dot + 1..dot + 2]);
      assert PatternAt(s, at - 1, at, dot, dot + 2);
    }
    if exists i, at, dot, j :: PatternAt(s, i, at, dot, j) {
      var i, at, dot, j :| PatternAt(s, i, at, dot, j);
      assert s[i..at][at - 1 - i] == s[at - 1];
      assert s[dot + 1..j][0] == s[dot + 1];
      forall k | at < k < dot ensures !IsSpace(s[k]) {
        assert s[at + 1..dot][k - at - 1] == s[k];
      }
      assert EmailShapeAt(s, at, dot);
    }
  }

  /** Because the pattern is not anchored, text around a valid address does not make it invalid. */
  lemma EmailValidInContext(prefix: string, s: string, suffix: string)
    requires EmailValid(s)
    ensures EmailValid(prefix + s + suffix)
  {
    var at, dot :| 0 <= at < |s| && 0 <= dot < |s| && EmailShapeAt(s, at, dot);
    var t := prefix + s + suffix;
    forall k | 0 <= k < |s| ensures t[|prefix| + k] == s[k] { }
    assert EmailShapeAt(t, |prefix| + at, |prefix| + dot);
  }

  /** Sample values: what the two checks accept and refuse. */
  lemma FieldExamples()
    ensures DniValid("12345678") && DniValid("1234567")
    ensures !DniValid("123456") && !DniValid("123456789") && !DniValid("1234567a")
    ensures EmailValid("ana@mail.com")
    ensures EmailValid("Ana <ana@mail.com>")
    ensures !EmailValid("ana@mail")
    ensures !EmailValid("@mail.com")
  {
    assert EmailShapeAt("ana@mail.com", 3, 8);
    assert EmailShapeAt("Ana <ana@mail.com>", 8, 13);
    assert !IsDigit("1234567a"[7]);
    var s := "ana@mail";
    forall at, dot | 0 <= at < |s| && 0 <= dot < |s| ensures !EmailShapeAt(s, at, dot) {
      if dot < |s| && s[dot] == '.' {
        assert false;
      }
    }
    var t := "@mail.com";
    forall at, dot | 0 <= at < |t| && 0 <= dot < |t| ensures !EmailShapeAt(t, at, dot) {
      if 0 < at && t[at] == '@' {
        assert false;
      }
    }
  }
}
