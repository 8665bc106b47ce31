/** The base64 encoding of section 4 of RFC 4648. */
module Base64 {
  import opened Bytes

  type sextet = x: int | 0 <= x < 64

  /** Table 1: A to Z, a to z, 0 to 9, + and /. */
  function CharOf(v: sextet): char {
    if v < 26 then ('A' as int + v) as char
    else if v < 52 then ('a' as int + v - 26) as char
    else if v < 62 then ('0' as int + v - 52) as char
    else if v == 62 then '+'
    else '/'
  }

  function ValueOf(c: char): (v: int)
    ensures -1 <= v < 64
  {
    if 'A' <= c <= 'Z' then c as int - 'A' as int
    else if 'a' <= c <= 'z' then c as int - 'a' as int + 26
    else if '0' <= c <= '9' then c as int - '0' as int + 52
    else if c == '+' then 62
    else if c == '/' then 63
    else -1
  }

  /** Each group of three bytes becomes four characters; a last group of one or
      two is padded. */
  function Encode(b: seq<byte>): string {
    if b == [] then ""
    else if |b| == 1 then [CharOf(b[0] / 4), CharOf(b[0] % 4 * 16), '=', '=']
    else if |b| == 2 then [CharOf(b[0] / 4), CharOf(b[0] % 4 * 16 + b[1] / 16), CharOf(b[1] % 16 * 4), '=']
    else Group(b[0], b[1], b[2]) + Encode(b[3..])
  }

  function Group(a: byte, b: byte, c: byte): (g: string)
    ensures |g| == 4
  {
    [CharOf(a / 4), CharOf(a % 4 * 16 + b / 16), CharOf(b % 16 * 4 + c / 64), CharOf(c % 64)]
  }

  /** The bytes of a text: it ends at the first character outside the alphabet,
      and bits left over at the end are dropped. */
  function Decode(s: string): seq<byte> {
    if |s| < 2 || ValueOf(s[0]) < 0 || ValueOf(s[1]) < 0 then []
    else
      var first: byte := ValueOf(s[0]) * 4 + ValueOf(s[1]) / 16;
      if |s| < 3 || ValueOf(s[2]) < 0 then [first]
      else
        var second: byte := ValueOf(s[1]) % 16 * 16 + ValueOf(s[2]) / 4;
        if |s| < 4 || ValueOf(s[3]) < 0 then [first, second]
        else
          var third: byte := ValueOf(s[2]) % 4 * 64 + ValueOf(s[3]);
          [first, second, third] + Decode(s[4..])
  }

  lemma CharRoundTrip(v: sextet)
    ensures ValueOf(CharOf(v)) == v && CharOf(v) != '='
  {
  }

  /** Four characters hold three bytes. */
  lemma GroupRoundTrip(a: byte, b: byte, c: byte)
    ensures a / 4 * 4 + (a % 4 * 16 + b / 16) / 16 == a
    ensures (a % 4 * 16 + b / 16) % 16 * 16 + (b % 16 * 4 + c / 64) / 4 == b
    ensures (b % 16 * 4 + c / 64) % 4 * 64 + c % 64 == c
  {
  }

  lemma DecodeGroup(a: byte, b: byte, c: byte, rest: string)
    ensures Decode(Group(a, b, c) + rest) == [a, b, c] + Decode(rest)
  {
    hide CharOf, ValueOf;
    GroupRoundTrip(a, b, c);
    CharRoundTrip(a / 4);
    CharRoundTrip(a % 4 * 16 + b / 16);
    CharRoundTrip(b % 16 * 4 + c / 64);
    CharRoundTrip(c % 64);
    assert (Group(a, b, c) + rest)[4..] == rest;
  }

  lemma DecodeOne(a: byte)
    ensures Decode(Encode([a])) == [a]
  {
    hide CharOf, ValueOf;
    Padding();
    GroupRoundTrip(a, 0, 0);
    CharRoundTrip(a / 4);
    CharRoundTrip(a % 4 * 16);
    assert Encode([a]) == [CharOf(a / 4), CharOf(a % 4 * 16), '=', '='];
  }

  lemma DecodeTwo(a: byte, b: byte)
    ensures Decode(Encode([a, b])) == [a, b]
  {
    hide CharOf, ValueOf;
    Padding();
    GroupRoundTrip(a, b, 0);
    CharRoundTrip(a / 4);
    CharRoundTrip(a % 4 * 16 + b / 16);
    CharRoundTrip(b % 16 * 4);
    assert Encode([a, b]) == [CharOf(a / 4), CharOf(a % 4 * 16 + b / 16), CharOf(b % 16 * 4), '='];
  }

  /** A last group of one or two bytes. */
  lemma DecodeTail(b: seq<byte>)
    requires 1 <= |b| <= 2
    ensures Decode(Encode(b)) == b
  {
    hide Encode, Decode;
    if |b| == 1 {
      assert b == [b[0]];
      DecodeOne(b[0]);
    } else {
      assert b == [b[0], b[1]];
      DecodeTwo(b[0], b[1]);
    }
  }

  lemma {:induction false} DecodeEncode(b: seq<byte>)
    ensures Decode(Encode(b)) == b
  {
    hide Group, Decode, CharOf, ValueOf;
    if b == [] {
      DecodeNothing();
    } else if |b| <= 2 {
      DecodeTail(b);
    } else {
      DecodeGroup(b[0], b[1], b[2], Encode(b[3..]));
      DecodeEncode(b[3..]);
      assert b == [b[0], b[1], b[2]] + b[3..];
    }
  }

  /** The padding may as well be missing. */
  lemma {:induction false} DecodeUnpadded(b: seq<byte>)
    ensures var n := if |b| % 3 == 0 then |b| / 3 * 4 else |b| / 3 * 4 + |b| % 3 + 1;
            n <= |Encode(b)| && Decode(Encode(b)[..n]) == b
  {
    hide Group, Decode, CharOf, ValueOf;
    if b == [] {
      DecodeNothing();
    } else if |b| <= 2 {
      UnpaddedTail(b);
    } else {
      DecodeUnpadded(b[3..]);
      var n := if |b| % 3 == 0 then |b| / 3 * 4 else |b| / 3 * 4 + |b| % 3 + 1;
      DecodeGroup(b[0], b[1], b[2], Encode(b[3..])[..n - 4]);
      assert Encode(b)[..n] == Group(b[0], b[1], b[2]) + Encode(b[3..])[..n - 4];
      assert b == [b[0], b[1], b[2]] + b[3..];
    }
  }

  lemma UnpaddedOne(a: byte)
    ensures Decode([CharOf(a / 4), CharOf(a % 4 * 16)]) == [a]
  {
    hide CharOf, ValueOf;
    GroupRoundTrip(a, 0, 0);
    CharRoundTrip(a / 4);
    CharRoundTrip(a % 4 * 16);
  }

  lemma UnpaddedTwo(a: byte, b: byte)
    ensures Decode([CharOf(a / 4), CharOf(a % 4 * 16 + b / 16), CharOf(b % 16 * 4)]) == [a, b]
  {
    hide CharOf, ValueOf;
    GroupRoundTrip(a, b, 0);
    CharRoundTrip(a / 4);
    CharRoundTrip(a % 4 * 16 + b / 16);
    CharRoundTrip(b % 16 * 4);
  }

  lemma UnpaddedTail(b: seq<byte>)
    requires 1 <= |b| <= 2
    ensures Decode(Encode(b)[..|b| + 1]) == b
  {
    hide CharOf, ValueOf, Decode;
    if |b| == 1 {
      UnpaddedOne(b[0]);
      assert Encode(b)[..2] == [CharOf(b[0] / 4), CharOf(b[0] % 4 * 16)];
    } else {
      UnpaddedTwo(b[0], b[1]);
      assert Encode(b)[..3] == [CharOf(b[0] / 4), CharOf(b[0] % 4 * 16 + b[1] / 16), CharOf(b[1] % 16 * 4)];
    }
  }

  lemma DecodeNothing()
    ensures Decode("") == []
  {
  }

  lemma Padding()
    ensures ValueOf('=') == -1
  {
  }

  /** Texts of whole groups concatenate to the text of the concatenation. */
  lemma {:induction false} EncodeAppend(a: seq<byte>, b: seq<byte>)
    requires |a| % 3 == 0
    ensures Encode(a + b) == Encode(a) + Encode(b)
  {
    hide Group, CharOf;
    if a == [] {
      assert a + b == b;
    } else {
      EncodeAppend(a[3..], b);
      assert (a + b)[3..] == a[3..] + b;
      assert Encode(a) == Group(a[0], a[1], a[2]) + Encode(a[3..]);
    }
  }

  lemma {:induction false} EncodeLength(b: seq<byte>)
    ensures |Encode(b)| == (|b| + 2) / 3 * 4
  {
    hide CharOf, Group;
    if |b| > 2 { EncodeLength(b[3..]); }
  }

  // ---------------------------------------------------------------- the digits are right

  /** The number bytes make in base 256, behind what was read. */
  function Number(b: seq<byte>, read: nat): nat {
    if b == [] then read else Number(b[1..], read * 256 + b[0])
  }

  /** The number characters make as digits in base 64, behind what was read. */
  function Digits(s: string, read: int): int {
    if s == "" then read else Digits(s[1..], read * 64 + ValueOf(s[0]))
  }

  lemma DigitsOfFour(a: char, b: char, c: char, d: char, s: string, read: int)
    ensures Digits([a, b, c, d] + s, read)
         == Digits(s, (((read * 64 + ValueOf(a)) * 64 + ValueOf(b)) * 64 + ValueOf(c)) * 64 + ValueOf(d))
  {
    DigitsNext(a, [b, c, d] + s, read);
    DigitsNext(b, [c, d] + s, read * 64 + ValueOf(a));
    DigitsNext(c, [d] + s, (read * 64 + ValueOf(a)) * 64 + ValueOf(b));
    DigitsNext(d, s, ((read * 64 + ValueOf(a)) * 64 + ValueOf(b)) * 64 + ValueOf(c));
    assert [a] + ([b, c, d] + s) == [a, b, c, d] + s;
    assert [b] + ([c, d] + s) == [b, c, d] + s;
    assert [c] + ([d] + s) == [c, d] + s;
  }

  lemma DigitsNext(c: char, s: string, read: int)
    ensures Digits([c] + s, read) == Digits(s, read * 64 + ValueOf(c))
  {
    assert ([c] + s)[1..] == s;
  }

  lemma NumberNext(b: seq<byte>, read: nat)
    requires b != []
    ensures Number(b, read) == Number(b[1..], read * 256 + b[0])
  {
  }

  /** One group of bytes. */
  lemma DigitsOfGroup(a: byte, b: byte, c: byte, s: string, read: nat)
    ensures Digits([CharOf(a / 4), CharOf(a % 4 * 16 + b / 16), CharOf(b % 16 * 4 + c / 64), CharOf(c % 64)] + s, read)
         == Digits(s, ((read * 256 + a) * 256 + b) * 256 + c)
  {
    var v0, v1, v2, v3 := a / 4, a % 4 * 16 + b / 16, b % 16 * 4 + c / 64, c % 64;
    CharRoundTrip(v0);
    CharRoundTrip(v1);
    CharRoundTrip(v2);
    CharRoundTrip(v3);
    hide CharOf, ValueOf, Digits;
    DigitsOfFour(CharOf(v0), CharOf(v1), CharOf(v2), CharOf(v3), s, read);
    SameGroup(read, a, b, c);
  }

  lemma NumberOfThree(b: seq<byte>, read: nat)
    requires |b| >= 3
    ensures Number(b, read) == Number(b[3..], ((read * 256 + b[0]) * 256 + b[1]) * 256 + b[2])
  {
    hide Number;
    NumberNext(b, read);
    NumberNext(b[1..], read * 256 + b[0]);
    NumberNext(b[2..], (read * 256 + b[0]) * 256 + b[1]);
    assert b[1..][1..] == b[2..] && b[2..][1..] == b[3..];
  }

  /** Whole groups of bytes are encoded as the same number, written in base 64. */
  lemma {:induction false} EncodeSameNumber(b: seq<byte>, read: nat)
    requires |b| % 3 == 0
    ensures Digits(Encode(b), read) == Number(b, read)
  {
    hide Encode, Number, Digits, CharOf, ValueOf;
    if b == [] {
      NothingToRead(read);
    } else {
      EncodeGroup(b);
      DigitsOfGroup(b[0], b[1], b[2], Encode(b[3..]), read);
      EncodeSameNumber(b[3..], ((read * 256 + b[0]) * 256 + b[1]) * 256 + b[2]);
      NumberOfThree(b, read);
    }
  }

  lemma NothingToRead(read: nat)
    ensures Digits(Encode([]), read) == Number([], read)
  {
  }

  lemma SameGroup(read: nat, a: byte, b: byte, c: byte)
    ensures (((read * 64 + a / 4) * 64 + (a % 4 * 16 + b / 16)) * 64 + (b % 16 * 4 + c / 64)) * 64 + c % 64
         == ((read * 256 + a) * 256 + b) * 256 + c
  {
  }

  lemma EncodeGroup(b: seq<byte>)
    requires |b| >= 3
    ensures Encode(b) == [CharOf(b[0] / 4), CharOf(b[0] % 4 * 16 + b[1] / 16), CharOf(b[1] % 16 * 4 + b[2] / 64), CharOf(b[2] % 64)] + Encode(b[3..])
  {
  }

  /** A group that is not whole is encoded as if zeros followed, in as many characters
      as its bits need. */
  lemma EncodeEnd(a: byte, b: byte)
    ensures Encode([a]) == Encode([a, 0, 0])[..2] + "=="
    ensures Encode([a, b]) == Encode([a, b, 0])[..3] + "="
  {
    hide CharOf;
    assert [a, 0, 0][3..] == [] && [a, b, 0][3..] == [] && Encode([]) == "";
    EncodeGroup([a, 0, 0]);
    EncodeGroup([a, b, 0]);
  }

  /** Vectors of section 10 of RFC 4648, and one with the last two digits. */
  lemma Vectors()
    ensures Encode([102, 111, 111]) == "Zm9v" && Encode([98, 97]) == "YmE=" && Encode([251, 255]) == "+/8="
  {
    EncodeGroup([102, 111, 111]);
    assert [102, 111, 111][3..] == [] && Encode([]) == "";
  }
}
