/** The two string operations `RestartApp.Execute` relies on:
    `string.Trim` (applied to the organization and space names) and
    `string.IsNullOrWhiteSpace` (applied to those names and to the log
    endpoints the controller advertises). `TrimStart` and `TrimEnd` are the
    two halves that specify `Trim`; the task itself never calls them. */
module Strings {
  import opened Wrappers

  /** The characters `char.IsWhiteSpace` accepts (Unicode White_Space).
      The general lemmas hold for any set; only the concrete examples of
      `RestartProperties.BackendPriority` use that `' '` is white space and
      `'x'` and `'y'` are not. */
  predicate IsWhiteSpace(c: char) {
    var n := c as int;
    || 0x09 <= n <= 0x0D
    || n == 0x20
    || n == 0x85
    || n == 0xA0
    || n == 0x1680
    || 0x2000 <= n <= 0x200A
    || n == 0x2028
    || n == 0x2029
    || n == 0x202F
    || n == 0x205F
    || n == 0x3000
  }

  /** Every character of `s` is white space (the empty string included). */
  predicate IsBlank(s: string) {
    forall i :: 0 <= i < |s| ==> IsWhiteSpace(s[i])
  }

  /** `string.IsNullOrWhiteSpace`. */
  predicate IsNullOrWhiteSpace(s: Option<string>) {
    s.None? || IsBlank(s.value)
  }

  /** The leading half of `Trim`: drops the leading white space, and only
      that. */
  function TrimStart(s: string): (r: string)
    ensures |r| <= |s| && r == s[|s| - |r|..]
    ensures forall i :: 0 <= i < |s| - |r| ==> IsWhiteSpace(s[i])
    ensures |r| > 0 ==> !IsWhiteSpace(r[0])
    decreases |s|
  {
    if |s| > 0 && IsWhiteSpace(s[0]) then TrimStart(s[1..]) else s
  }

  /** The trailing half of `Trim`: drops the trailing white space, and only
      that. */
  function TrimEnd(s: string): (r: string)
    ensures |r| <= |s| && r == s[..|r|]
    ensures forall i :: |r| <= i < |s| ==> IsWhiteSpace(s[i])
    ensures |r| > 0 ==> !IsWhiteSpace(r[|r| - 1])
    decreases |s|
  {
    if |s| > 0 && IsWhiteSpace(s[|s| - 1]) then TrimEnd(s[..|s| - 1]) else s
  }

  /** `string.Trim()`: white space is dropped from both ends until neither
      end is white space. The result is empty exactly when `s` is blank, so
      trimming never changes the answer of `IsNullOrWhiteSpace`. */
  function Trim(s: string): (r: string)
    ensures |r| <= |s|
    ensures |r| > 0 ==> !IsWhiteSpace(r[0]) && !IsWhiteSpace(r[|r| - 1])
    ensures r == [] <==> IsBlank(s)
    decreases |s|
  {
    if |s| == 0 then s
    else if IsWhiteSpace(s[0]) then
      assert forall i :: 1 <= i < |s| ==> s[i] == s[1..][i - 1];
      Trim(s[1..])
    else if IsWhiteSpace(s[|s| - 1]) then
      assert forall i :: 0 <= i < |s| - 1 ==> s[i] == s[..|s| - 1][i];
      Trim(s[..|s| - 1])
    else
      s
  }

  /** Trimming both ends at once is trimming the start, then the end. */
  lemma {:induction false} TrimIsTrimEndOfTrimStart(s: string)
    ensures Trim(s) == TrimEnd(TrimStart(s))
    decreases |s|
  {
    if |s| > 0 && IsWhiteSpace(s[0]) {
      TrimIsTrimEndOfTrimStart(s[1..]);
      assert TrimStart(s) == TrimStart(s[1..]);
    } else if |s| > 0 && IsWhiteSpace(s[|s| - 1]) {
      var init := s[..|s| - 1];
      TrimIsTrimEndOfTrimStart(init);
      assert TrimStart(s) == s;
      assert TrimStart(init) == init by {
        if |init| > 0 {
          assert init[0] == s[0];
        }
      }
      assert TrimEnd(s) == TrimEnd(init);
    } else {
      assert TrimStart(s) == s;
    }
  }
}
