/** The few string primitives the student record's derived properties use:
    white-space tests, trimming and upper-casing, over ASCII. */
module Text {

  /** ASCII white space: space, tab, line feed, vertical tab, form feed and
      carriage return. */
  predicate IsWhiteSpace(c: char) {
    c == ' ' || '\t' <= c <= '\r'
  }

  /** A string that is empty or only white space. */
  predicate IsBlank(s: seq<char>) {
    forall i :: 0 <= i < |s| ==> IsWhiteSpace(s[i])
  }

  /** Upper-case of an ASCII letter; every other character is unchanged. */
  function ToUpper(c: char): (u: char)
    ensures 'a' <= c <= 'z' ==> 'A' <= u <= 'Z' && u as int - 'A' as int == c as int - 'a' as int
    ensures !('a' <= c <= 'z') ==> u == c
  {
    if 'a' <= c <= 'z' then (c as int - 'a' as int + 'A' as int) as char else c
  }

  /** The index of the first character that is not white space. */
  function FirstSolid(s: seq<char>): (i: nat)
    requires !IsBlank(s)
    ensures i < |s| && !IsWhiteSpace(s[i])
    ensures forall j :: 0 <= j < i ==> IsWhiteSpace(s[j])
  {
    if !IsWhiteSpace(s[0]) then 0 else 1 + FirstSolid(s[1..])
  }

  /** Removes leading white space. */
  function TrimStart(s: seq<char>): (r: seq<char>)
    ensures |r| <= |s| && r == s[|s| - |r|..]
    ensures forall i :: 0 <= i < |s| - |r| ==> IsWhiteSpace(s[i])
    ensures r != [] ==> !IsWhiteSpace(r[0])
    decreases |s|
  {
    if s != [] && IsWhiteSpace(s[0]) then TrimStart(s[1..]) else s
  }

  /** Removes trailing white space. */
  function TrimEnd(s: seq<char>): (r: seq<char>)
    ensures |r| <= |s| && r == s[..|r|]
    ensures forall i :: |r| <= i < |s| ==> IsWhiteSpace(s[i])
    ensures r != [] ==> !IsWhiteSpace(r[|r| - 1])
    decreases |s|
  {
    if s != [] && IsWhiteSpace(s[|s| - 1]) then TrimEnd(s[..|s| - 1]) else s
  }

  /** `r` is the part of `s` that starts at index `k` and is followed only
      by white space. */
  predicate IsMiddle(s: seq<char>, k: nat, r: seq<char>) {
    k + |r| <= |s| && r == s[k..k + |r|] && IsBlank(s[k + |r|..])
  }

  /** Removes leading and trailing white space.  The result is empty
      exactly for a blank string; otherwise it is the middle of the string
      that starts at its first non-white-space character, ends at a
      non-white-space character, and is followed only by white space. */
  function Trim(s: seq<char>): (r: seq<char>)
    ensures |r| <= |s|
    ensures r == [] <==> IsBlank(s)
    ensures r != [] ==> r[0] == s[FirstSolid(s)]
    ensures r != [] ==> !IsWhiteSpace(r[|r| - 1])
    ensures !IsBlank(s) ==> IsMiddle(s, FirstSolid(s), r)
  {
    var t := TrimStart(s);
    var r := TrimEnd(t);
    TrimKeepsFirstSolid(s, t, r);
    r
  }

  lemma TrimKeepsFirstSolid(s: seq<char>, t: seq<char>, r: seq<char>)
    requires t == TrimStart(s) && r == TrimEnd(t)
    ensures r == [] <==> IsBlank(s)
    ensures !IsBlank(s) ==> r != [] && r[0] == s[FirstSolid(s)]
    ensures !IsBlank(s) ==> IsMiddle(s, FirstSolid(s), r)
  {
    TrimIsMiddle(s, t, r);
    if !IsBlank(s) {
      assert FirstSolid(s) == |s| - |t|;
    }
  }

  /** What trimming leaves is the part of `s` after the removed leading
      white space, followed only by white space. */
  lemma TrimIsMiddle(s: seq<char>, t: seq<char>, r: seq<char>)
    requires |t| <= |s| && t == s[|s| - |t|..]
    requires |r| <= |t| && r == t[..|r|]
    requires forall i :: |r| <= i < |t| ==> IsWhiteSpace(t[i])
    ensures IsMiddle(s, |s| - |t|, r)
  {
    var k := |s| - |t|;
    var mid := s[k..k + |r|];
    forall i | 0 <= i < |r|
      ensures r[i] == mid[i]
    {
      assert r[i] == t[i];
    }
    var tail := s[k + |r|..];
    forall i | 0 <= i < |tail|
      ensures IsWhiteSpace(tail[i])
    {
      assert tail[i] == t[|r| + i];
    }
  }
}
