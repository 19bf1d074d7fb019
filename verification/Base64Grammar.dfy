/** Exactly which texts the base64 decoder takes. */
module Base64Grammar {
  import opened Contracts
  import opened Base64

  lemma DigitsAreLetters(c: char, d: Digit)
    ensures DigitOf(c) == Some(d) <==> c == Letter(d)
    ensures c == '=' ==> DigitOf(c).None?
  {
  }

  /** A letter whose leading bits are these; the trailing bits of the last letter before padding are not looked at. */
  predicate Leads(c: char, bits: nat, unused: nat)
    requires unused > 0
  {
    DigitOf(c).Some? && DigitOf(c).value / unused == bits
  }

  /** Four characters stand for these bytes; only the last group may be padded. */
  predicate Stands(group: string, last: bool, bytes: seq<Byte>)
    requires |group| == 4
  {
    if |bytes| == 3 then group == ThreeBytes(bytes[0], bytes[1], bytes[2])
    else if |bytes| == 2 then
      && last && group[..2] == TwoBytes(bytes[0], bytes[1])[..2]
      && Leads(group[2], bytes[1] % 16, 4) && group[3] == '='
    else if |bytes| == 1 then
      && last && group[0] == OneByte(bytes[0])[0]
      && Leads(group[1], bytes[0] % 4, 16) && group[2] == '=' && group[3] == '='
    else false
  }

  /** Three bytes and the four digits they are cut into. */
  lemma Cut(w: Digit, x: Digit, y: Digit, z: Digit, p: Byte, q: Byte, r: Byte)
    ensures p == w * 4 + x / 16 <==> w == p / 4 && x / 16 == p % 4
    ensures q == x % 16 * 16 + y / 4 <==> x % 16 == q / 16 && y / 4 == q % 16
    ensures r == y % 4 * 64 + z <==> y % 4 == r / 64 && z == r % 64
    ensures x / 16 == p % 4 && x % 16 == q / 16 <==> x == p % 4 * 16 + q / 16
    ensures y / 4 == q % 16 && y % 4 == r / 64 <==> y == q % 16 * 4 + r / 64
  {
  }

  lemma FullGroup(g: string, last: bool, w: Digit, x: Digit, y: Digit, z: Digit)
    requires |g| == 4 && DigitOf(g[0]) == Some(w) && DigitOf(g[1]) == Some(x)
    requires DigitOf(g[2]) == Some(y) && DigitOf(g[3]) == Some(z)
    ensures GroupOf(g, last) == Some([w * 4 + x / 16, x % 16 * 16 + y / 4, y % 4 * 64 + z])
  {
  }

  lemma LettersStand(g: string, w: Digit, x: Digit, y: Digit, z: Digit, p: Byte, q: Byte, r: Byte)
    requires |g| == 4 && DigitOf(g[0]) == Some(w) && DigitOf(g[1]) == Some(x)
    requires DigitOf(g[2]) == Some(y) && DigitOf(g[3]) == Some(z)
    ensures g == ThreeBytes(p, q, r) <==>
            w == p / 4 && x == p % 4 * 16 + q / 16 && y == q % 16 * 4 + r / 64 && z == r % 64
  {
    DigitsAreLetters(g[0], p / 4);
    DigitsAreLetters(g[1], p % 4 * 16 + q / 16);
    DigitsAreLetters(g[2], q % 16 * 4 + r / 64);
    DigitsAreLetters(g[3], r % 64);
  }

  lemma FullGroupStands(g: string, last: bool, p: Byte, q: Byte, r: Byte)
    requires |g| == 4
    ensures GroupOf(g, last) == Some([p, q, r]) <==> Stands(g, last, [p, q, r])
  {
    if forall i :: 0 <= i < 4 ==> DigitOf(g[i]).Some? {
      var w, x, y, z := DigitOf(g[0]).value, DigitOf(g[1]).value, DigitOf(g[2]).value, DigitOf(g[3]).value;
      FullGroup(g, last, w, x, y, z);
      LettersStand(g, w, x, y, z, p, q, r);
      Cut(w, x, y, z, p, q, r);
    } else {
      LettersDecode(p / 4);
      LettersDecode(p % 4 * 16 + q / 16);
      LettersDecode(q % 16 * 4 + r / 64);
      LettersDecode(r % 64);
    }
  }

  lemma PaddedGroupStands(g: string, last: bool, p: Byte, q: Byte)
    requires |g| == 4
    ensures GroupOf(g, last) == Some([p, q]) <==> Stands(g, last, [p, q])
    ensures GroupOf(g, last) == Some([p]) <==> Stands(g, last, [p])
  {
    DigitsAreLetters(g[0], p / 4);
    DigitsAreLetters(g[1], p % 4 * 16 + q / 16);
    DigitsAreLetters(g[1], p % 4 * 16);
    if DigitOf(g[0]).Some? && DigitOf(g[1]).Some? {
      var w, x := DigitOf(g[0]).value, DigitOf(g[1]).value;
      var y := if DigitOf(g[2]).Some? then DigitOf(g[2]).value else 0;
      Cut(w, x, y, 0, p, q, 0);
    }
  }

  /** A text stands for its bytes group by group. */
  predicate StandsFor(text: string, bytes: seq<Byte>)
    decreases |text|
  {
    if |text| < 4 then text == "" && bytes == []
    else
      var n := if text[3] != '=' then 3 else if text[2] != '=' then 2 else 1;
      && n <= |bytes| && Stands(text[..4], |text| == 4, bytes[..n]) && StandsFor(text[4..], bytes[n..])
  }

  /** How many bytes a group stands for is seen from its padding. */
  lemma GroupLength(g: string, last: bool)
    requires |g| == 4 && GroupOf(g, last).Some?
    ensures |GroupOf(g, last).value| == if g[3] != '=' then 3 else if g[2] != '=' then 2 else 1
  {
    DigitsAreLetters(g[2], 0);
    DigitsAreLetters(g[3], 0);
  }

  lemma GroupStands(g: string, last: bool, bytes: seq<Byte>)
    requires |g| == 4
    ensures GroupOf(g, last) == Some(bytes) <==> Stands(g, last, bytes)
  {
    if |bytes| == 3 {
      assert bytes == [bytes[0], bytes[1], bytes[2]];
      FullGroupStands(g, last, bytes[0], bytes[1], bytes[2]);
    } else if |bytes| == 2 {
      assert bytes == [bytes[0], bytes[1]];
      PaddedGroupStands(g, last, bytes[0], bytes[1]);
    } else if |bytes| == 1 {
      assert bytes == [bytes[0]];
      PaddedGroupStands(g, last, bytes[0], 0);
    } else if GroupOf(g, last).Some? {
      GroupLength(g, last);
    }
  }

  /** The decoder takes exactly the texts that stand for some bytes, and gives those. */
  lemma {:induction false} DecodesIff(text: string, bytes: seq<Byte>)
    ensures Decode(text) == Some(bytes) <==> StandsFor(text, bytes)
    decreases |text|
  {
    if |text| >= 4 {
      var n := if text[3] != '=' then 3 else if text[2] != '=' then 2 else 1;
      var group := GroupOf(text[..4], |text| == 4);
      if group.Some? { GroupLength(text[..4], |text| == 4); }
      if n <= |bytes| {
        GroupStands(text[..4], |text| == 4, bytes[..n]);
        DecodesIff(text[4..], bytes[n..]);
        assert bytes == bytes[..n] + bytes[n..];
      }
    }
  }
}
