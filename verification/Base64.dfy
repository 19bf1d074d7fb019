/** Base64 with padding, section 4 of RFC 4648, and its strict decoder. */
module Base64 {
  import opened Contracts

  type Byte = b: int | 0 <= b < 256

  type Digit = d: int | 0 <= d < 64

  function Letter(d: Digit): char {
    if d < 26 then ('A' as int + d) as char
    else if d < 52 then ('a' as int + d - 26) as char
    else if d < 62 then ('0' as int + d - 52) as char
    else if d == 62 then '+'
    else '/'
  }

  function DigitOf(c: char): Option<Digit> {
    if 'A' <= c <= 'Z' then Some(c as int - 'A' as int)
    else if 'a' <= c <= 'z' then Some(c as int - 'a' as int + 26)
    else if '0' <= c <= '9' then Some(c as int - '0' as int + 52)
    else if c == '+' then Some(62)
    else if c == '/' then Some(63)
    else None
  }

  lemma LettersDecode(d: Digit)
    ensures DigitOf(Letter(d)) == Some(d)
  {
  }

  function OneByte(p: Byte): (group: string)
    ensures |group| == 4
  {
    [Letter(p / 4), Letter(p % 4 * 16), '=', '=']
  }

  function TwoBytes(p: Byte, q: Byte): (group: string)
    ensures |group| == 4
  {
    [Letter(p / 4), Letter(p % 4 * 16 + q / 16), Letter(q % 16 * 4), '=']
  }

  function ThreeBytes(p: Byte, q: Byte, r: Byte): (group: string)
    ensures |group| == 4
  {
    [Letter(p / 4), Letter(p % 4 * 16 + q / 16), Letter(q % 16 * 4 + r / 64), Letter(r % 64)]
  }

  function Encode(bytes: seq<Byte>): (text: string)
    ensures text == "" <==> bytes == []
    decreases |bytes|
  {
    if |bytes| == 0 then ""
    else if |bytes| == 1 then OneByte(bytes[0])
    else if |bytes| == 2 then TwoBytes(bytes[0], bytes[1])
    else ThreeBytes(bytes[0], bytes[1], bytes[2]) + Encode(bytes[3..])
  }

  /** The bytes of one group of four characters; padding is allowed in the last group only. */
  function Group(a: char, b: char, c: char, d: char, last: bool): Option<seq<Byte>> {
    var w, x := DigitOf(a), DigitOf(b);
    if w.None? || x.None? then None
    else
      var first := w.value * 4 + x.value / 16;
      if last && c == '=' && d == '=' then Some([first])
      else
        var y := DigitOf(c);
        if y.None? then None
        else
          var second := x.value % 16 * 16 + y.value / 4;
          if last && d == '=' then Some([first, second])
          else
            var z := DigitOf(d);
            if z.None? then None else Some([first, second, y.value % 4 * 64 + z.value])
  }

  function Decode(text: string): Option<seq<Byte>>
    decreases |text|
  {
    if |text| == 0 then Some([])
    else if |text| < 4 then None
    else
      var group := Group(text[0], text[1], text[2], text[3], |text| == 4);
      var rest := Decode(text[4..]);
      if group.None? || rest.None? then None else Some(group.value + rest.value)
  }

  /** Six bits of one byte and the neighbouring bits of the next give the byte back. */
  lemma Sextets(p: Byte, q: Byte, r: Byte)
    ensures p / 4 * 4 + (p % 4 * 16 + q / 16) / 16 == p
    ensures (p % 4 * 16 + q / 16) % 16 * 16 + (q % 16 * 4 + r / 64) / 4 == q
    ensures (q % 16 * 4 + r / 64) % 4 * 64 + r % 64 == r
  {
  }

  function GroupOf(group: string, last: bool): Option<seq<Byte>>
    requires |group| == 4
  {
    Group(group[0], group[1], group[2], group[3], last)
  }

  lemma ThreeBytesDecode(p: Byte, q: Byte, r: Byte, last: bool)
    ensures GroupOf(ThreeBytes(p, q, r), last) == Some([p, q, r])
  {
    LettersDecode(p / 4);
    LettersDecode(p % 4 * 16 + q / 16);
    LettersDecode(q % 16 * 4 + r / 64);
    LettersDecode(r % 64);
    Sextets(p, q, r);
  }

  lemma FewerBytesDecode(p: Byte, q: Byte)
    ensures GroupOf(OneByte(p), true) == Some([p])
    ensures GroupOf(TwoBytes(p, q), true) == Some([p, q])
  {
    LettersDecode(p / 4);
    LettersDecode(p % 4 * 16);
    LettersDecode(p % 4 * 16 + q / 16);
    LettersDecode(q % 16 * 4);
    Sextets(p, 0, 0);
    Sextets(p, q, 0);
  }

  /** Decoding goes group by group. */
  lemma DecodeMore(head: string, rest: string, front: seq<Byte>, back: seq<Byte>)
    requires |head| == 4 && GroupOf(head, rest == "") == Some(front) && Decode(rest) == Some(back)
    ensures Decode(head + rest) == Some(front + back)
  {
    assert (head + rest)[4..] == rest;
  }

  lemma DecodeLast(group: string, bytes: seq<Byte>)
    requires |group| == 4 && GroupOf(group, true) == Some(bytes)
    ensures Decode(group) == Some(bytes)
  {
    DecodeMore(group, "", bytes, []);
    assert group + "" == group && bytes + [] == bytes;
  }

  lemma ShortGroupsDecode(p: Byte, q: Byte)
    ensures Decode(OneByte(p)) == Some([p])
    ensures Decode(TwoBytes(p, q)) == Some([p, q])
  {
    FewerBytesDecode(p, q);
    DecodeLast(OneByte(p), [p]);
    DecodeLast(TwoBytes(p, q), [p, q]);
  }

  lemma OneMoreGroup(p: Byte, q: Byte, r: Byte, rest: string, back: seq<Byte>)
    requires Decode(rest) == Some(back)
    ensures Decode(ThreeBytes(p, q, r) + rest) == Some([p, q, r] + back)
  {
    ThreeBytesDecode(p, q, r, rest == "");
    DecodeMore(ThreeBytes(p, q, r), rest, [p, q, r], back);
  }

  /** Every byte string is recovered from its encoding. */
  lemma {:induction false} DecodeEncode(bytes: seq<Byte>)
    ensures Decode(Encode(bytes)) == Some(bytes)
    decreases |bytes|
  {
    if |bytes| == 1 {
      ShortGroupsDecode(bytes[0], 0);
      assert bytes == [bytes[0]];
    } else if |bytes| == 2 {
      ShortGroupsDecode(bytes[0], bytes[1]);
      assert bytes == [bytes[0], bytes[1]];
    } else if |bytes| >= 3 {
      DecodeEncode(bytes[3..]);
      OneMoreGroup(bytes[0], bytes[1], bytes[2], Encode(bytes[3..]), bytes[3..]);
      assert bytes == [bytes[0], bytes[1], bytes[2]] + bytes[3..];
    }
  }

  /** Table 1 of RFC 4648. */
  lemma LettersAreTheAlphabet()
    ensures [Letter(0), Letter(1), Letter(2), Letter(3), Letter(4), Letter(5), Letter(6), Letter(7), Letter(8),
             Letter(9), Letter(10), Letter(11), Letter(12)]
            == "ABCDEFGHIJKLM"
    ensures [Letter(13), Letter(14), Letter(15), Letter(16), Letter(17), Letter(18), Letter(19), Letter(20),
             Letter(21), Letter(22), Letter(23), Letter(24), Letter(25)]
            == "NOPQRSTUVWXYZ"
    ensures [Letter(26), Letter(27), Letter(28), Letter(29), Letter(30), Letter(31), Letter(32), Letter(33),
             Letter(34), Letter(35), Letter(36), Letter(37), Letter(38)]
            == "abcdefghijklm"
    ensures [Letter(39), Letter(40), Letter(41), Letter(42), Letter(43), Letter(44), Letter(45), Letter(46),
             Letter(47), Letter(48), Letter(49), Letter(50), Letter(51)]
            == "nopqrstuvwxyz"
    ensures [Letter(52), Letter(53), Letter(54), Letter(55), Letter(56), Letter(57), Letter(58), Letter(59),
             Letter(60), Letter(61), Letter(62), Letter(63)]
            == "0123456789+/"
  {
  }

  /** The number four letters stand for, the first one weighing most. */
  function Number(group: string): Option<nat>
    requires |group| == 4
  {
    var a, b, c, d := DigitOf(group[0]), DigitOf(group[1]), DigitOf(group[2]), DigitOf(group[3]);
    if a.None? || b.None? || c.None? || d.None? then None
    else Some(a.value * 0x4_0000 + b.value * 0x1000 + c.value * 0x40 + d.value)
  }

  /** A full group is the number its three bytes stand for, and a shorter one ends in padding. */
  lemma GroupsAreNumbers(p: Byte, q: Byte, r: Byte)
    ensures Number(ThreeBytes(p, q, r)) == Some(p * 0x1_0000 + q * 0x100 + r)
    ensures TwoBytes(p, q) == ThreeBytes(p, q, 0)[..3] + "="
    ensures OneByte(p) == ThreeBytes(p, 0, 0)[..2] + "=="
  {
    LettersDecode(p / 4);
    LettersDecode(p % 4 * 16 + q / 16);
    LettersDecode(q % 16 * 4 + r / 64);
    LettersDecode(r % 64);
  }
}
