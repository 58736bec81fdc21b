/** Upper-casing, for ASCII text. */
module Texts {
  function UpperChar(c: char): (u: char)
    ensures !('a' <= u <= 'z')
    ensures if 'a' <= c <= 'z' then c as int - u as int == 'a' as int - 'A' as int else u == c
  {
    if 'a' <= c <= 'z' then ((c as int) - 32) as char else c
  }

  function Upper(s: string): (u: string)
    ensures |u| == |s| && forall i :: 0 <= i < |s| ==> u[i] == UpperChar(s[i])
  {
    seq(|s|, i requires 0 <= i < |s| => UpperChar(s[i]))
  }
}
