/** The few Python 2 string operations the core relies on, over `seq<char>`. */
module Strings {

  import opened Values

  /** `s.endswith(suffix)` */
  predicate EndsWith(s: string, suffix: string)
  {
    |suffix| <= |s| && s[|s| - |suffix|..] == suffix
  }

  /** The characters `str.rstrip()` removes: space, tab, newline, vertical tab,
      form feed and carriage return. */
  predicate IsSpace(c: char)
  {
    c == ' ' || '\t' <= c <= '\r'
  }

  /** `s.rstrip()`: the longest prefix of `s` that does not end in white space. */
  function RStrip(s: string): (r: string)
    ensures r <= s
    ensures r == [] || !IsSpace(r[|r| - 1])
    ensures forall i :: |r| <= i < |s| ==> IsSpace(s[i])
    decreases |s|
  {
    if |s| > 0 && IsSpace(s[|s| - 1]) then RStrip(s[..|s| - 1]) else s
  }

  /** `c.upper()` for one character, ASCII letters only. */
  function UpperChar(c: char): (r: char)
  {
    if 'a' <= c <= 'z' then (c as int - 32) as char else c
  }

  /** `s.upper()` */
  function Upper(s: string): (r: string)
    ensures |r| == |s|
    ensures forall i :: 0 <= i < |r| ==> !('a' <= r[i] <= 'z')
    ensures forall i :: 0 <= i < |s| && !('a' <= s[i] <= 'z') ==> r[i] == s[i]
    ensures forall i :: 0 <= i < |s| && 'a' <= s[i] <= 'z' ==> r[i] as int == s[i] as int - ('a' as int - 'A' as int)
  {
    seq(|s|, i requires 0 <= i < |s| => UpperChar(s[i]))
  }

  /** Upper-casing twice is upper-casing once. */
  lemma UpperIdempotent(s: string)
    ensures Upper(Upper(s)) == Upper(s)
  {
    var u := Upper(s);
    assert forall i :: 0 <= i < |u| ==> Upper(u)[i] == u[i];
  }

  /** The index of the last space in `s`, if any. */
  function LastSpace(s: string): (k: Option<nat>)
    ensures k.Some? ==> k.value < |s| && s[k.value] == ' ' && ' ' !in s[k.value + 1..]
    ensures k.None? ==> ' ' !in s
    decreases |s|
  {
    if |s| == 0 then None
    else if s[|s| - 1] == ' ' then Some(|s| - 1)
    else LastSpace(s[..|s| - 1])
  }

  /** `s.rsplit(" ", 1)` for a string that holds a space: the part before the
      last space and the part after it. */
  function RSplitSpace(s: string): (r: (string, string))
    requires ' ' in s
    ensures r.0 + " " + r.1 == s
    ensures ' ' !in r.1
  {
    var k := LastSpace(s).value;
    assert s == s[..k] + " " + s[k + 1..];
    (s[..k], s[k + 1..])
  }

  /** `rsplit` finds the LAST space: splitting `f + " " + d` where `d` has no
      space gives back `f` and `d`, whatever spaces `f` holds. */
  lemma RSplitSpaceOf(f: string, d: string)
    requires ' ' !in d
    ensures ' ' in f + " " + d
    ensures RSplitSpace(f + " " + d) == (f, d)
  {
    var s := f + " " + d;
    assert s[|f|] == ' ';
    var r := RSplitSpace(s);
    assert r.0 == s[..|f|] && r.1 == s[|f| + 1..] by { assert s == r.0 + " " + r.1; }
    assert f == s[..|f|] && d == s[|f| + 1..];
  }
}
