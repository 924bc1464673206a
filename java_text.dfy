/**
 * Java's `String.trim()` and the null-safe "non-blank" test that the Android
 * startup screen applies to its configured URL, inline HTML and class name
 * (`s != null && !s.trim().isEmpty()`).
 */
module JavaText {
  import opened Wrappers

  /** `String.trim()` strips every leading and trailing character whose code is at most U+0020. */
  predicate IsTrimmable(c: char) {
    c <= ' '
  }

  /** Drops the leading trimmable characters. */
  function TrimStart(s: string): (t: string)
    ensures |t| <= |s| && t == s[|s| - |t|..]
    ensures forall i :: 0 <= i < |s| - |t| ==> IsTrimmable(s[i])
    ensures t == [] || !IsTrimmable(t[0])
    decreases |s|
  {
    if |s| > 0 && IsTrimmable(s[0]) then TrimStart(s[1..]) else s
  }

  /** Drops the trailing trimmable characters. */
  function TrimEnd(s: string): (t: string)
    ensures |t| <= |s| && t == s[..|t|]
    ensures forall i :: |t| <= i < |s| ==> IsTrimmable(s[i])
    ensures t == [] || !IsTrimmable(t[|t| - 1])
    decreases |s|
  {
    if |s| > 0 && IsTrimmable(s[|s| - 1]) then TrimEnd(s[..|s| - 1]) else s
  }

  /** `s.trim()`: empty exactly when every character is trimmable, otherwise it starts and ends visibly. */
  function Trim(s: string): (t: string)
    ensures t == [] <==> forall i :: 0 <= i < |s| ==> IsTrimmable(s[i])
    ensures t != [] ==> !IsTrimmable(t[0]) && !IsTrimmable(t[|t| - 1])
  {
    var front := TrimStart(s);
    assert forall i :: |s| - |front| <= i < |s| ==> s[i] == front[i - (|s| - |front|)];
    TrimEnd(front)
  }

  /** Null, or made only of trimmable characters: the strings `trim()` empties. */
  predicate IsBlank(s: Option<string>) {
    s.None? || forall i :: 0 <= i < |s.value| ==> IsTrimmable(s.value[i])
  }

  /** `IsBlank` is exactly the source's `s == null || s.trim().isEmpty()`. */
  lemma IsBlankIsTrimEmpty(s: Option<string>)
    ensures IsBlank(s) <==> s.None? || Trim(s.value) == []
  {
  }
}
