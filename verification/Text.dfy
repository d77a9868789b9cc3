/** Trimming text as the runtime's language does. */
module Text {
  predicate IsSpace(c: char) {
    var n := c as int;
    9 <= n <= 13 || 28 <= n <= 32 || n == 133 || n == 160 || n == 5760 || 8192 <= n <= 8202
    || n == 8232 || n == 8233 || n == 8239 || n == 8287 || n == 12288
  }

  function Strip(s: string): string {
    if s == "" then s
    else if IsSpace(s[0]) then Strip(s[1..])
    else if IsSpace(s[|s| - 1]) then Strip(s[..|s| - 1])
    else s
  }

  /** A stripped text is what is left of a text without white space at its ends. */
  lemma {:induction false} StripIs(s: string) returns (i: nat, j: nat)
    ensures i <= j <= |s| && Strip(s) == s[i..j]
    ensures forall k :: 0 <= k < i || j <= k < |s| ==> IsSpace(s[k])
    ensures i < j ==> !IsSpace(s[i]) && !IsSpace(s[j - 1])
    decreases |s|
  {
    i, j := 0, |s|;
    if |s| > 0 && IsSpace(s[0]) {
      i, j := StripIs(s[1..]);
      i, j := i + 1, j + 1;
    } else if |s| > 0 && IsSpace(s[|s| - 1]) {
      i, j := StripIs(s[..|s| - 1]);
    }
  }

  lemma StripTwice(s: string)
    ensures Strip(Strip(s)) == Strip(s)
  {
    var i, j := StripIs(s);
    var t := Strip(s);
    assert |t| > 0 ==> t[0] == s[i] && t[|t| - 1] == s[j - 1];
  }

  /** Without the line terminators at its end. */
  function ChompLine(s: string): string {
    if s != "" && (s[|s| - 1] == '\n' || s[|s| - 1] == '\r') then ChompLine(s[..|s| - 1]) else s
  }

  lemma {:induction false} ChompLineIs(s: string)
    ensures ChompLine(s) <= s
    ensures forall k :: |ChompLine(s)| <= k < |s| ==> s[k] == '\n' || s[k] == '\r'
    ensures |ChompLine(s)| > 0 ==> s[|ChompLine(s)| - 1] != '\n' && s[|ChompLine(s)| - 1] != '\r'
  {
    if |s| > 0 && (s[|s| - 1] == '\n' || s[|s| - 1] == '\r') { ChompLineIs(s[..|s| - 1]); }
  }
}
