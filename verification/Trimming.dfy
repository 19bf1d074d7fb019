/** Stripping white space from both ends of a string, with Python's notion of white space. */
module Trimming {

  predicate IsSpace(c: char) {
    var i := c as int;
    || 0x09 <= i <= 0x0d || 0x1c <= i <= 0x20 || i == 0x85 || i == 0xa0 || i == 0x1680
    || 0x2000 <= i <= 0x200a || i == 0x2028 || i == 0x2029 || i == 0x202f || i == 0x205f || i == 0x3000
  }

  function StripLeft(s: string): (r: string)
    ensures r == "" || !IsSpace(r[0])
    decreases |s|
  {
    if s == "" || !IsSpace(s[0]) then s else StripLeft(s[1..])
  }

  function StripRight(s: string): (r: string)
    ensures r <= s
    ensures r == "" || !IsSpace(r[|r| - 1])
    decreases |s|
  {
    if s == "" || !IsSpace(s[|s| - 1]) then s else StripRight(s[..|s| - 1])
  }

  function Strip(s: string): string {
    StripRight(StripLeft(s))
  }

  predicate AllSpace(s: string) {
    forall i :: 0 <= i < |s| ==> IsSpace(s[i])
  }

  lemma {:induction false} LeftIsSpace(s: string) returns (n: nat)
    ensures n <= |s| && StripLeft(s) == s[n..] && AllSpace(s[..n])
    decreases |s|
  {
    n := 0;
    if s != "" && IsSpace(s[0]) {
      var k := LeftIsSpace(s[1..]);
      n := k + 1;
      assert s[..n] == [s[0]] + s[1..][..k];
    }
  }

  lemma {:induction false} RightIsSpace(s: string)
    ensures AllSpace(s[|StripRight(s)|..])
    decreases |s|
  {
    if s != "" && IsSpace(s[|s| - 1]) {
      RightIsSpace(s[..|s| - 1]);
      var n := |StripRight(s)|;
      assert s[n..] == s[..|s| - 1][n..] + [s[|s| - 1]];
    }
  }

  /** What is stripped off is white space on both sides, and what is left begins and ends with something else. */
  lemma OnlySpaceIsStripped(s: string) returns (from: nat, to: nat)
    ensures from <= to <= |s| && Strip(s) == s[from..to] && AllSpace(s[..from]) && AllSpace(s[to..])
    ensures from == to || (!IsSpace(s[from]) && !IsSpace(s[to - 1]))
  {
    from := LeftIsSpace(s);
    RightIsSpace(s[from..]);
    to := from + |Strip(s)|;
    assert s[to..] == s[from..][|Strip(s)|..];
  }

  /** Of the ASCII characters, the blank and the control characters 9 to 13 and 28 to 31. */
  lemma SpacesOfAscii()
    ensures AllSpace(" \t\n\r")
    ensures forall c :: '!' <= c <= '~' ==> !IsSpace(c)
    ensures forall c :: c < ' ' ==> (IsSpace(c) <==> 9 <= c as int <= 13 || 28 <= c as int <= 31)
  {
  }

  /** Stripping twice is stripping once. */
  lemma StripIsIdempotent(s: string)
    ensures Strip(Strip(s)) == Strip(s)
  {
    var r := Strip(s);
    assert r != "" ==> r[0] == StripLeft(s)[0];
    assert StripLeft(r) == r && StripRight(r) == r;
  }
}
