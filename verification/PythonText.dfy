/** The few operations on Python strings that the worker code relies on. */
module PythonText {

  /** `str.isspace` of one character, which is also what `\s` matches. */
  predicate IsSpace(c: char) {
    c in " \t\n\r" || '\U{B}' <= c <= '\U{C}' || '\U{1C}' <= c <= '\U{1F}' || c in {'\U{85}', '\U{A0}', '\U{1680}'}
    || '\U{2000}' <= c <= '\U{200A}' || c in {'\U{2028}', '\U{2029}', '\U{202F}', '\U{205F}', '\U{3000}'}
  }

  predicate Blank(s: string) { forall k :: 0 <= k < |s| ==> IsSpace(s[k]) }

  /** `str.strip()` */
  function Strip(s: string): string { StripRight(StripLeft(s)) }

  function StripLeft(s: string): (r: string)
    ensures r != "" ==> !IsSpace(r[0])
  {
    if s != "" && IsSpace(s[0]) then StripLeft(s[1..]) else s
  }

  function StripRight(s: string): (r: string)
    ensures r != "" ==> !IsSpace(r[|r| - 1])
    ensures r <= s
  {
    if s != "" && IsSpace(s[|s| - 1]) then StripRight(s[..|s| - 1]) else s
  }

  /** `s[lo:hi]` for a non-negative `lo`. */
  function Slice(s: string, lo: nat, hi: int): string {
    var from := if lo <= |s| then lo else |s|;
    var to := if hi >= |s| then |s| else if hi >= 0 then hi else if hi + |s| >= 0 then hi + |s| else 0;
    if from <= to then s[from..to] else ""
  }
}
