/** The e-mail format both sign-in screens check (Views/RegisterView.swift
    and Views/LoginView.swift): the whole string must match
    `[A-Z0-9a-z._%+-]+@[A-Za-z0-9.-]+\.[A-Za-z]{2,64}`. */
module EmailPattern {
  import opened Common

  predicate IsLetter(c: char) {
    'A' <= c <= 'Z' || 'a' <= c <= 'z'
  }

  predicate IsDigit(c: char) {
    '0' <= c <= '9'
  }

  /** The class `[A-Z0-9a-z._%+-]` of the part before the '@'. */
  predicate IsLocalChar(c: char) {
    IsLetter(c) || IsDigit(c) || c == '.' || c == '_' || c == '%' || c == '+' || c == '-'
  }

  /** The class `[A-Za-z0-9.-]` of the domain before the last dot. */
  predicate IsDomainChar(c: char) {
    IsLetter(c) || IsDigit(c) || c == '.' || c == '-'
  }

  /** The pattern matches `s` with its '@' at `at` and the literal `\.` at
      `dot`: one or more local characters, the '@', one or more domain
      characters, the dot, and two to sixty-four letters. */
  ghost predicate MatchesWith(s: string, at: int, dot: int) {
    0 < at && at + 1 < dot && dot < |s| &&
    s[at] == '@' && s[dot] == '.' &&
    (forall i :: 0 <= i < at ==> IsLocalChar(s[i])) &&
    (forall i :: at < i < dot ==> IsDomainChar(s[i])) &&
    2 <= |s| - dot - 1 <= 64 &&
    (forall i :: dot < i < |s| ==> IsLetter(s[i]))
  }

  /** The whole string matches the pattern. */
  ghost predicate MatchesPattern(s: string) {
    exists at, dot :: MatchesWith(s, at, dot)
  }

  /** The index of the last occurrence of `c` in `s`, if any. */
  function LastIndexOf(s: string, c: char): (r: Option<nat>)
    ensures r.Some? ==> r.value < |s| && s[r.value] == c && forall j :: r.value < j < |s| ==> s[j] != c
    ensures r.None? ==> forall j :: 0 <= j < |s| ==> s[j] != c
    decreases |s|
  {
    if s == [] then None
    else if s[|s| - 1] == c then Some(|s| - 1)
    else LastIndexOf(s[..|s| - 1], c)
  }

  /** The pattern check: the '@' must be the first one in the string (the
      local part has none), and the dot the last one (the final letters have
      none), so both positions are determined. */
  function IsValidEmail(s: string): (b: bool)
    ensures b <==> MatchesPattern(s)
  {
    var at := FirstIndex(s, (c: char) => c == '@');
    var dot := LastIndexOf(s, '.');
    var b := at.Some? && dot.Some? &&
      0 < at.value && at.value + 1 < dot.value &&
      (forall i :: 0 <= i < at.value ==> IsLocalChar(s[i])) &&
      (forall i :: at.value < i < dot.value ==> IsDomainChar(s[i])) &&
      2 <= |s| - dot.value - 1 <= 64 &&
      (forall i :: dot.value < i < |s| ==> IsLetter(s[i]));
    assert b ==> MatchesWith(s, at.value, dot.value);
    assert MatchesPattern(s) ==> b by {
      if MatchesPattern(s) {
        var a, d :| MatchesWith(s, a, d);
        assert s[a] == '@';
        assert at.Some? && at.value == a by {
          assert forall i :: 0 <= i < a ==> s[i] != '@' by {
            forall i | 0 <= i < a ensures s[i] != '@' {
              assert IsLocalChar(s[i]);
            }
          }
        }
        assert dot.Some? && dot.value == d by {
          forall i | d < i < |s| ensures s[i] != '.' {
            assert IsLetter(s[i]);
          }
        }
      }
    }
    b
  }
}
