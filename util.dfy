/** The field encoders of internal/util/util.go: names in the Generation 1 character
    set (`WriteText`) and binary-coded decimal numbers (`WriteBinaryCodedDecimal`). */
module Util {
  import opened Wrappers
  import opened Bytes
  import opened Checksum

  // ---------------------------------------------------------------- text

  /** Ends the encoded text inside its reserved field. */
  const Terminator: byte := 0x50
  /** Fills the rest of the reserved field after the terminator. */
  const Padding: byte := 0x00

  /** The Generation 1 (US English) character set: the byte for each rune a name may
      contain, or None for a rune the set lacks (the `present` flag of the lookup). */
  function CharConverter(r: char): Option<byte>
  {
    match r
    case 'A' => Some(0x80)
    case 'B' => Some(0x81)
    case 'C' => Some(0x82)
    case 'D' => Some(0x83)
    case 'E' => Some(0x84)
    case 'F' => Some(0x85)
    case 'G' => Some(0x86)
    case 'H' => Some(0x87)
    case 'I' => Some(0x88)
    case 'J' => Some(0x89)
    case 'K' => Some(0x8A)
    case 'L' => Some(0x8B)
    case 'M' => Some(0x8C)
    case 'N' => Some(0x8D)
    case 'O' => Some(0x8E)
    case 'P' => Some(0x8F)
    case 'Q' => Some(0x90)
    case 'R' => Some(0x91)
    case 'S' => Some(0x92)
    case 'T' => Some(0x93)
    case 'U' => Some(0x94)
    case 'V' => Some(0x95)
    case 'W' => Some(0x96)
    case 'X' => Some(0x97)
    case 'Y' => Some(0x98)
    case 'Z' => Some(0x99)
    case '(' => Some(0x9A)
    case ')' => Some(0x9B)
    case ':' => Some(0x9C)
    case ';' => Some(0x9D)
    case '[' => Some(0x9E)
    case ']' => Some(0x9F)
    case 'a' => Some(0xA0)
    case 'b' => Some(0xA1)
    case 'c' => Some(0xA2)
    case 'd' => Some(0xA3)
    case 'e' => Some(0xA4)
    case 'f' => Some(0xA5)
    case 'g' => Some(0xA6)
    case 'h' => Some(0xA7)
    case 'i' => Some(0xA8)
    case 'j' => Some(0xA9)
    case 'k' => Some(0xAA)
    case 'l' => Some(0xAB)
    case 'm' => Some(0xAC)
    case 'n' => Some(0xAD)
    case 'o' => Some(0xAE)
    case 'p' => Some(0xAF)
    case 'q' => Some(0xB0)
    case 'r' => Some(0xB1)
    case 's' => Some(0xB2)
    case 't' => Some(0xB3)
    case 'u' => Some(0xB4)
    case 'v' => Some(0xB5)
    case 'w' => Some(0xB6)
    case 'x' => Some(0xB7)
    case 'y' => Some(0xB8)
    case 'z' => Some(0xB9)
    case '-' => Some(0xE3)
    case '?' => Some(0xE6)
    case '!' => Some(0xE7)
    case '.' => Some(0xE8)
    case '♂' => Some(0xEF)
    case '/' => Some(0xF3)
    case ',' => Some(0xF4)
    case '♀' => Some(0xF5)
    case _ => None
  }

  /** Why `WriteText` refused a name. */
  datatype TextError =
    | ReservedSpaceInsufficient(text: string, reservedSpace: int)
    | UnsupportedCharacter(rune: char)

  /** Every rune of `text` is in the character set. */
  predicate Encodable(text: string)
  {
    forall i :: 0 <= i < |text| ==> CharConverter(text[i]).Some?
  }

  /** The character-set bytes of an encodable text, one per rune. */
  function Codes(text: string): (r: seq<byte>)
    requires Encodable(text)
  {
    seq(|text|, i requires 0 <= i < |text| => CharConverter(text[i]).value)
  }

  /** The position of the first rune that is not in the character set. */
  function UnsupportedIndex(text: string): (i: nat)
    requires !Encodable(text)
    ensures i < |text| && CharConverter(text[i]).None?
    ensures Encodable(text[..i])
  {
    if CharConverter(text[0]).None? then 0
    else
      assert !Encodable(text[1..]) by {
        var j :| 0 <= j < |text| && CharConverter(text[j]).None?;
        assert text[1..][j - 1] == text[j];
      }
      var k := UnsupportedIndex(text[1..]);
      assert text[..k + 1] == [text[0]] + text[1..][..k];
      k + 1
  }

  /** What `WriteText(w, text, reservedSpace)` writes when it succeeds, or the error it returns.
      Runes are counted, not UTF-8 bytes; the room check comes before any rune is looked up. */
  function EncodeText(text: string, reservedSpace: int): Result<seq<byte>, TextError>
  {
    if |text| + 1 > reservedSpace then
      Failure(ReservedSpaceInsufficient(text, reservedSpace))
    else if !Encodable(text) then
      Failure(UnsupportedCharacter(text[UnsupportedIndex(text)]))
    else
      Success(Codes(text) + [Terminator] + Fill(reservedSpace - (|text| + 1), Padding))
  }

  /** What `WriteText` has written when it returns an error: nothing when the text does not fit,
      otherwise the bytes of the runes before the first one outside the character set. */
  function WrittenBeforeError(text: string, reservedSpace: int): seq<byte>
    requires EncodeText(text, reservedSpace).Failure?
  {
    if |text| + 1 > reservedSpace then [] else Codes(text[..UnsupportedIndex(text)])
  }

  /** The inverse of the character set, read off its ranges. */
  function DecodeChar(b: byte): Option<char>
  {
    if 0x80 <= b <= 0x99 then Some(('A' as int + (b - 0x80) as int) as char)
    else if 0xA0 <= b <= 0xB9 then Some(('a' as int + (b - 0xA0) as int) as char)
    else if b == 0x9A then Some('(')
    else if b == 0x9B then Some(')')
    else if b == 0x9C then Some(':')
    else if b == 0x9D then Some(';')
    else if b == 0x9E then Some('[')
    else if b == 0x9F then Some(']')
    else if b == 0xE3 then Some('-')
    else if b == 0xE6 then Some('?')
    else if b == 0xE7 then Some('!')
    else if b == 0xE8 then Some('.')
    else if b == 0xEF then Some('♂')
    else if b == 0xF3 then Some('/')
    else if b == 0xF4 then Some(',')
    else if b == 0xF5 then Some('♀')
    else None
  }

  /** Reads a name back from a field: decodes the bytes before the first terminator. */
  function DecodeText(field: seq<byte>): Option<string>
  {
    if |field| == 0 then None
    else if field[0] == Terminator then Some([])
    else match (DecodeChar(field[0]), DecodeText(field[1..]))
      case (Some(c), Some(rest)) => Some([c] + rest)
      case _ => None
  }

  /** Every byte of the character set lies in 0x80..0xF5, so it is never the terminator or padding. */
  lemma CharConverterRange(r: char)
    requires CharConverter(r).Some?
    ensures 0x80 <= CharConverter(r).value <= 0xF5
    ensures CharConverter(r).value != Terminator && CharConverter(r).value != Padding
  {
  }

  /** Decoding the byte of a rune gives the rune back. */
  lemma DecodeCharOfConverted(r: char)
    requires CharConverter(r).Some?
    ensures DecodeChar(CharConverter(r).value) == Some(r)
  {
    // One case per rune of the character set.
    if r == 'A' {
    } else if r == 'B' {
    } else if r == 'C' {
    } else if r == 'D' {
    } else if r == 'E' {
    } else if r == 'F' {
    } else if r == 'G' {
    } else if r == 'H' {
    } else if r == 'I' {
    } else if r == 'J' {
    } else if r == 'K' {
    } else if r == 'L' {
    } else if r == 'M' {
    } else if r == 'N' {
    } else if r == 'O' {
    } else if r == 'P' {
    } else if r == 'Q' {
    } else if r == 'R' {
    } else if r == 'S' {
    } else if r == 'T' {
    } else if r == 'U' {
    } else if r == 'V' {
    } else if r == 'W' {
    } else if r == 'X' {
    } else if r == 'Y' {
    } else if r == 'Z' {
    } else if r == '(' {
    } else if r == ')' {
    } else if r == ':' {
    } else if r == ';' {
    } else if r == '[' {
    } else if r == ']' {
    } else if r == 'a' {
    } else if r == 'b' {
    } else if r == 'c' {
    } else if r == 'd' {
    } else if r == 'e' {
    } else if r == 'f' {
    } else if r == 'g' {
    } else if r == 'h' {
    } else if r == 'i' {
    } else if r == 'j' {
    } else if r == 'k' {
    } else if r == 'l' {
    } else if r == 'm' {
    } else if r == 'n' {
    } else if r == 'o' {
    } else if r == 'p' {
    } else if r == 'q' {
    } else if r == 'r' {
    } else if r == 's' {
    } else if r == 't' {
    } else if r == 'u' {
    } else if r == 'v' {
    } else if r == 'w' {
    } else if r == 'x' {
    } else if r == 'y' {
    } else if r == 'z' {
    } else if r == '-' {
    } else if r == '?' {
    } else if r == '!' {
    } else if r == '.' {
    } else if r == '♂' {
    } else if r == '/' {
    } else if r == ',' {
    } else if r == '♀' {
    } else {
      assert false;
    }
  }

  /** Every byte that decodes is the byte of the rune it decodes to. */
  lemma ConvertedOfDecodeChar(b: byte)
    requires DecodeChar(b).Some?
    ensures CharConverter(DecodeChar(b).value) == Some(b)
  {
    // One case per rune of the character set.
    var r := DecodeChar(b).value;
    if r == 'A' {
    } else if r == 'B' {
    } else if r == 'C' {
    } else if r == 'D' {
    } else if r == 'E' {
    } else if r == 'F' {
    } else if r == 'G' {
    } else if r == 'H' {
    } else if r == 'I' {
    } else if r == 'J' {
    } else if r == 'K' {
    } else if r == 'L' {
    } else if r == 'M' {
    } else if r == 'N' {
    } else if r == 'O' {
    } else if r == 'P' {
    } else if r == 'Q' {
    } else if r == 'R' {
    } else if r == 'S' {
    } else if r == 'T' {
    } else if r == 'U' {
    } else if r == 'V' {
    } else if r == 'W' {
    } else if r == 'X' {
    } else if r == 'Y' {
    } else if r == 'Z' {
    } else if r == '(' {
    } else if r == ')' {
    } else if r == ':' {
    } else if r == ';' {
    } else if r == '[' {
    } else if r == ']' {
    } else if r == 'a' {
    } else if r == 'b' {
    } else if r == 'c' {
    } else if r == 'd' {
    } else if r == 'e' {
    } else if r == 'f' {
    } else if r == 'g' {
    } else if r == 'h' {
    } else if r == 'i' {
    } else if r == 'j' {
    } else if r == 'k' {
    } else if r == 'l' {
    } else if r == 'm' {
    } else if r == 'n' {
    } else if r == 'o' {
    } else if r == 'p' {
    } else if r == 'q' {
    } else if r == 'r' {
    } else if r == 's' {
    } else if r == 't' {
    } else if r == 'u' {
    } else if r == 'v' {
    } else if r == 'w' {
    } else if r == 'x' {
    } else if r == 'y' {
    } else if r == 'z' {
    } else if r == '-' {
    } else if r == '?' {
    } else if r == '!' {
    } else if r == '.' {
    } else if r == '♂' {
    } else if r == '/' {
    } else if r == ',' {
    } else if r == '♀' {
    } else {
      assert false;
    }
  }

  /** `DecodeChar` inverts the character set, in both directions. */
  lemma DecodeCharInverts(r: char, b: byte)
    ensures CharConverter(r) == Some(b) <==> DecodeChar(b) == Some(r)
  {
    if CharConverter(r) == Some(b) {
      DecodeCharOfConverted(r);
    }
    if DecodeChar(b) == Some(r) {
      ConvertedOfDecodeChar(b);
    }
  }

  /** No two runes share a byte. */
  lemma CharConverterInjective(r1: char, r2: char)
    requires CharConverter(r1).Some? && CharConverter(r1) == CharConverter(r2)
    ensures r1 == r2
  {
    DecodeCharInverts(r1, CharConverter(r1).value);
    DecodeCharInverts(r2, CharConverter(r1).value);
  }

  /** The bytes of a text grow by one rune's byte per rune. */
  lemma CodesSnoc(text: string, i: nat)
    requires i < |text| && Encodable(text[..i + 1])
    ensures Encodable(text[..i]) && CharConverter(text[i]).Some?
    ensures Codes(text[..i + 1]) == Codes(text[..i]) + [CharConverter(text[i]).value]
  {
    assert text[..i + 1][i] == text[i];
    assert forall j :: 0 <= j < i ==> text[..i][j] == text[..i + 1][j];
  }

  /** A position whose prefix is encodable and whose rune is not is the first unsupported position. */
  lemma UnsupportedIndexAt(text: string, i: nat)
    requires i < |text| && Encodable(text[..i]) && CharConverter(text[i]).None?
    ensures !Encodable(text) && UnsupportedIndex(text) == i
  {
  }

  /** `EncodeText` fails exactly when the text does not fit or holds a rune outside the
      character set; lack of room is reported first, and otherwise the first missing rune. */
  lemma EncodeTextFailure(text: string, reservedSpace: int)
    ensures EncodeText(text, reservedSpace).Failure? <==> (|text| + 1 > reservedSpace || !Encodable(text))
    ensures EncodeText(text, reservedSpace) == Failure(ReservedSpaceInsufficient(text, reservedSpace))
            <==> |text| + 1 > reservedSpace
    ensures EncodeText(text, reservedSpace).Failure? && EncodeText(text, reservedSpace).error.UnsupportedCharacter? ==>
            exists i :: 0 <= i < |text| && Encodable(text[..i]) && text[i] == EncodeText(text, reservedSpace).error.rune
                        && CharConverter(text[i]).None?
  {
  }

  /** On success the field takes exactly `reservedSpace` bytes: one byte per rune, the terminator,
      then padding; none of the runes' bytes is a terminator or padding byte. */
  lemma EncodeTextShape(text: string, reservedSpace: int)
    requires EncodeText(text, reservedSpace).Success?
    ensures |EncodeText(text, reservedSpace).value| == reservedSpace
    ensures forall i :: 0 <= i < |text| ==> EncodeText(text, reservedSpace).value[i] == CharConverter(text[i]).value
    ensures forall i :: 0 <= i < |text| ==> EncodeText(text, reservedSpace).value[i] !in {Terminator, Padding}
    ensures EncodeText(text, reservedSpace).value[|text|] == Terminator
    ensures forall i :: |text| < i < reservedSpace ==> EncodeText(text, reservedSpace).value[i] == Padding
  {
    forall i | 0 <= i < |text|
      ensures EncodeText(text, reservedSpace).value[i] !in {Terminator, Padding}
    {
      CharConverterRange(text[i]);
    }
  }

  /** The padding adds nothing to a field's byte sum: it is the sum of the runes' bytes plus the
      terminator. */
  lemma EncodedFieldSum(text: string, reservedSpace: int)
    requires EncodeText(text, reservedSpace).Success?
    ensures Encodable(text)
    ensures ByteSum(EncodeText(text, reservedSpace).value) == ByteSum(Codes(text)) + Terminator as int
  {
    var pad := Fill(reservedSpace - (|text| + 1), Padding);
    SumAppend(Codes(text) + [Terminator], pad);
    SumAppend(Codes(text), [Terminator]);
    SumFill(reservedSpace - (|text| + 1), Padding);
    assert ByteSum([Terminator]) == Terminator as int;
  }

  /** Decoding the bytes of an encodable text followed by the terminator gives the text back. */
  lemma {:induction false} DecodeEncoded(text: string, rest: seq<byte>)
    requires Encodable(text)
    ensures DecodeText(Codes(text) + [Terminator] + rest) == Some(text)
  {
    var field := Codes(text) + [Terminator] + rest;
    if |text| > 0 {
      assert Encodable(text[1..]) by {
        forall i | 0 <= i < |text| - 1
          ensures CharConverter(text[1..][i]).Some?
        {
          assert text[1..][i] == text[i + 1];
        }
      }
      assert field[0] == CharConverter(text[0]).value;
      assert field[1..] == Codes(text[1..]) + [Terminator] + rest;
      CharConverterRange(text[0]);
      DecodeCharOfConverted(text[0]);
      DecodeEncoded(text[1..], rest);
      assert [text[0]] + text[1..] == text;
    } else {
      assert field[0] == Terminator;
    }
  }

  /** Reading a field back recovers the name that `EncodeText` wrote into it. */
  lemma TextRoundTrip(text: string, reservedSpace: int)
    requires EncodeText(text, reservedSpace).Success?
    ensures DecodeText(EncodeText(text, reservedSpace).value) == Some(text)
  {
    DecodeEncoded(text, Fill(reservedSpace - (|text| + 1), Padding));
  }

  /** A name field of `space` bytes takes an encodable name of at most `space - 1` runes,
      so a name of exactly `space - 1` runes fills it with no padding. */
  lemma NameFieldBoundary(text: string, space: nat)
    requires Encodable(text)
    ensures EncodeText(text, space).Success? <==> |text| < space
    ensures |text| + 1 == space ==> EncodeText(text, space) == Success(Codes(text) + [Terminator])
  {
    assert Codes(text) + [Terminator] + Fill(0, Padding) == Codes(text) + [Terminator];
  }

  /** The encoder's unit-test vectors that succeed, and runes that take several UTF-8 bytes
      counting as one. */
  lemma EncodeTextExamples()
    ensures EncodeText("RED", 4) == Success([0x91, 0x84, 0x83, 0x50])
    ensures EncodeText("RED", 6) == Success([0x91, 0x84, 0x83, 0x50, 0x00, 0x00])
    ensures EncodeText("", 1) == Success([0x50])
    ensures EncodeText("♂♀", 3) == Success([0xEF, 0xF5, 0x50])
  {
    assert Codes("RED") == [0x91, 0x84, 0x83];
    assert Codes("RED") + [Terminator] + Fill(0, Padding) == [0x91, 0x84, 0x83, 0x50];
    assert Codes("RED") + [Terminator] + Fill(2, Padding) == [0x91, 0x84, 0x83, 0x50, 0x00, 0x00];
    assert Codes("") + [Terminator] + Fill(0, Padding) == [0x50];
    assert Codes("♂♀") + [Terminator] + Fill(0, Padding) == [0xEF, 0xF5, 0x50];
  }

  /** The encoder's unit-test vectors that fail: lack of room is reported before an unsupported rune. */
  lemma EncodeTextErrorExamples()
    ensures EncodeText("RED", 2) == Failure(ReservedSpaceInsufficient("RED", 2))
    ensures EncodeText("", 0) == Failure(ReservedSpaceInsufficient("", 0))
    ensures EncodeText("Ash@", 11) == Failure(UnsupportedCharacter('@'))
    ensures EncodeText("@@@@@@@@@@@", 11) == Failure(ReservedSpaceInsufficient("@@@@@@@@@@@", 11))
  {
    UnsupportedIndexAt("Ash@", 3);
  }

  /** `WriteText`: checks the room first and writes nothing when the text does not fit; then writes
      one byte per rune, stopping at the first rune outside the character set (the bytes of the runes
      before it have then been written); then the terminator and the padding. */
  method WriteText(w: ChecksumWriter, text: string, reservedSpace: int) returns (result: Outcome<TextError>)
    requires w.Valid()
    modifies w, w.w
    ensures w.Valid()
    ensures EncodeText(text, reservedSpace).Success? ==>
              result == Pass && w.written == old(w.written) + EncodeText(text, reservedSpace).value
    ensures EncodeText(text, reservedSpace).Failure? ==> result == Fail(EncodeText(text, reservedSpace).error)
    ensures EncodeText(text, reservedSpace).Failure? ==>
              w.written == old(w.written) + WrittenBeforeError(text, reservedSpace)
    ensures |text| + 1 > reservedSpace ==> w.written == old(w.written)
    ensures |text| + 1 <= reservedSpace && !Encodable(text) ==>
              w.written == old(w.written) + Codes(text[..UnsupportedIndex(text)])
  {
    var usedSpace := |text| + 1;
    var unusedSpace := reservedSpace - usedSpace;
    if unusedSpace < 0 {
      return Fail(ReservedSpaceInsufficient(text, reservedSpace));
    }

    assert text[..0] == [];
    for i := 0 to |text|
      invariant w.Valid()
      invariant Encodable(text[..i])
      invariant w.written == old(w.written) + Codes(text[..i])
    {
      var code := CharConverter(text[i]);
      if code.None? {
        UnsupportedIndexAt(text, i);
        return Fail(UnsupportedCharacter(text[i]));
      }
      w.Write([code.value]);
      assert text[..i + 1] == text[..i] + [text[i]];
      CodesSnoc(text, i);
    }
    assert text[..|text|] == text;

    w.Write([Terminator]);

    for i := 0 to unusedSpace
      invariant w.Valid()
      invariant w.written == old(w.written) + Codes(text) + [Terminator] + Fill(i, Padding)
    {
      w.Write([Padding]);
      FillSnoc(i, Padding);
    }
    return Pass;
  }

  // ---------------------------------------------------------------- binary-coded decimal

  /** 100 to the power `n`: one more than the largest number `n` bytes of BCD can hold. */
  function Pow100(n: nat): (r: nat)
    ensures r >= 1
  {
    if n == 0 then 1 else 100 * Pow100(n - 1)
  }

  /** Two decimal digits in one byte: the tens digit in the high nibble, the units digit in the low one. */
  function PackDigits(d: nat): (b: byte)
    requires d < 100
    ensures b as int / 16 == d / 10 && b as int % 16 == d % 10
  {
    ((d / 10) * 16 + d % 10) as byte
  }

  /** `value` as `width` bytes of packed BCD, the most significant digit pair first. */
  function BinaryCodedDecimal(value: nat, width: nat): (r: seq<byte>)
    requires value < Pow100(width)
    ensures |r| == width
  {
    if width == 0 then []
    else BinaryCodedDecimal(value / 100, width - 1) + [PackDigits(value % 100)]
  }

  /** Reads packed BCD back: each byte is ten times its high nibble plus its low nibble. */
  function DecodeBinaryCodedDecimal(bytes: seq<byte>): nat
  {
    if |bytes| == 0 then 0
    else
      var last := bytes[|bytes| - 1] as int;
      DecodeBinaryCodedDecimal(bytes[..|bytes| - 1]) * 100 + (last / 16) * 10 + last % 16
  }

  /** Every nibble of the encoding is a decimal digit. */
  lemma {:induction false} BcdNibblesAreDigits(value: nat, width: nat, i: nat)
    requires value < Pow100(width) && i < width
    ensures BinaryCodedDecimal(value, width)[i] as int / 16 <= 9
    ensures BinaryCodedDecimal(value, width)[i] as int % 16 <= 9
  {
    if i < width - 1 {
      BcdNibblesAreDigits(value / 100, width - 1, i);
    }
  }

  /** Decoding the encoding gives the value back. */
  lemma {:induction false} BcdRoundTrip(value: nat, width: nat)
    requires value < Pow100(width)
    ensures DecodeBinaryCodedDecimal(BinaryCodedDecimal(value, width)) == value
  {
    if width > 0 {
      var r := BinaryCodedDecimal(value, width);
      assert r[..width - 1] == BinaryCodedDecimal(value / 100, width - 1);
      BcdRoundTrip(value / 100, width - 1);
    }
  }

  /** The money field's test vector. */
  lemma BcdExample()
    ensures BinaryCodedDecimal(3000, 3) == [0x00, 0x30, 0x00]
  {
    assert Pow100(3) == 1000000;
    assert PackDigits(30) == 0x30;
    assert BinaryCodedDecimal(30, 2) == BinaryCodedDecimal(0, 1) + [0x30];
  }

  /** The largest value a three-byte field holds. */
  lemma BcdMaximum()
    ensures BinaryCodedDecimal(999999, 3) == [0x99, 0x99, 0x99]
  {
    assert Pow100(3) == 1000000;
    assert PackDigits(99) == 0x99;
    assert BinaryCodedDecimal(99, 1) == [0x99];
    assert BinaryCodedDecimal(9999, 2) == [0x99, 0x99];
  }

  /** Zero fills a field of any width with zero bytes. */
  lemma {:induction false} BcdZero(width: nat)
    ensures BinaryCodedDecimal(0, width) == Fill(width, 0x00)
  {
    if width > 0 {
      BcdZero(width - 1);
      assert PackDigits(0) == 0x00;
      FillSnoc(width - 1, 0x00);
    }
  }

  /** `WriteBinaryCodedDecimal`: writes the BCD form of `value` in `reservedSpace` bytes, in one write. */
  method WriteBinaryCodedDecimal(w: ChecksumWriter, value: nat, reservedSpace: nat)
    requires value < Pow100(reservedSpace)
    requires w.Valid()
    modifies w, w.w
    ensures w.Valid()
    ensures w.written == old(w.written) + BinaryCodedDecimal(value, reservedSpace)
  {
    var b := BinaryCodedDecimal(value, reservedSpace);
    w.Write(b);
  }
}
