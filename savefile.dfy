/** What a generated save file looks like as a whole: its length, where each field lies, the
    checksum, which bytes depend on the input, when generation fails, and the integration test's
    vector. */
module SaveFileFacts {
  import opened Wrappers
  import opened Bytes
  import opened Checksum
  import opened Util
  import opened Layout

  /** The offsets of the file whose bytes depend on the input: the two name fields, the money
      field and the checksum byte. */
  predicate InputDependent(i: int)
  {
    || PlayerNameOffset <= i < PlayerNameOffset + PlayerNameSpace
    || MoneyOffset <= i < MoneyOffset + MoneySpace
    || RivalNameOffset <= i < RivalNameOffset + RivalNameSpace
    || i == ChecksumOffset
  }

  /** Generation fails exactly when one of the names cannot be encoded in its 11 bytes; the player
      name is checked first, so its error wins. */
  lemma SaveFileFailure(playerName: string, rivalName: string, money: nat)
    requires money <= MaxMoney
    ensures SaveFile(playerName, rivalName, money).Failure? <==>
              EncodeText(playerName, PlayerNameSpace).Failure? || EncodeText(rivalName, RivalNameSpace).Failure?
    ensures EncodeText(playerName, PlayerNameSpace).Failure? ==>
              SaveFile(playerName, rivalName, money) == Failure(EncodeText(playerName, PlayerNameSpace).error)
    ensures EncodeText(playerName, PlayerNameSpace).Success? && EncodeText(rivalName, RivalNameSpace).Failure? ==>
              SaveFile(playerName, rivalName, money) == Failure(EncodeText(rivalName, RivalNameSpace).error)
  {
  }

  /** The middle region, on success, in terms of its parts. */
  lemma MiddleRegionParts(playerName: string, rivalName: string, money: nat)
    requires money <= MaxMoney
    requires MiddleRegion(playerName, rivalName, money).Success?
    ensures EncodeText(playerName, PlayerNameSpace).Success? && EncodeText(rivalName, RivalNameSpace).Success?
    ensures var body := FieldBytes(EncodeText(playerName, PlayerNameSpace).value, BinaryCodedDecimal(money, MoneySpace),
                                   EncodeText(rivalName, RivalNameSpace).value) + MiddleTail();
            MiddleRegion(playerName, rivalName, money).value == body + [Complement(SumMod256(body))]
  {
  }

  /** The three regions are 9624, 3980 and 19164 bytes long, 32768 together. */
  lemma RegionLengths(playerName: string, rivalName: string, money: nat)
    requires money <= MaxMoney
    requires MiddleRegion(playerName, rivalName, money).Success?
    ensures |HeaderRegion()| == 9624
    ensures |MiddleRegion(playerName, rivalName, money).value| == 3980
    ensures |TrailerRegion()| == 19164
    ensures |HeaderRegion()| + |MiddleRegion(playerName, rivalName, money).value| + |TrailerRegion()| == FileSize
  {
    HeaderLength();
    MiddleRegionParts(playerName, rivalName, money);
    EncodeTextShape(playerName, PlayerNameSpace);
    EncodeTextShape(rivalName, RivalNameSpace);
    NameGapFacts();
    MiddleTailFacts();
  }

  /** A successful file is 32768 bytes: the constant header, the player name at 0x2598, the 80
      constant bytes 39 x 0x00, 0xFF, 40 x 0x00, the money at 0x25F3, the rival name at 0x25F6, the
      constant tail, the checksum at 0x3523 over everything from the player name on, and the
      trailer of 0xFF bytes. */
  lemma SaveFileLayout(playerName: string, rivalName: string, money: nat)
    requires money <= MaxMoney
    requires SaveFile(playerName, rivalName, money).Success?
    ensures var f := SaveFile(playerName, rivalName, money).value;
            && |f| == FileSize
            && f[..PlayerNameOffset] == HeaderRegion()
            && f[PlayerNameOffset..PlayerNameOffset + PlayerNameSpace] == EncodeText(playerName, PlayerNameSpace).value
            && f[PlayerNameOffset + PlayerNameSpace..MoneyOffset] == Fill(39, 0x00) + [0xFF] + Fill(40, 0x00)
            && f[MoneyOffset..MoneyOffset + MoneySpace] == BinaryCodedDecimal(money, MoneySpace)
            && f[RivalNameOffset..RivalNameOffset + RivalNameSpace] == EncodeText(rivalName, RivalNameSpace).value
            && f[RivalNameOffset + RivalNameSpace..ChecksumOffset] == MiddleTail()
            && f[PlayerNameOffset..ChecksumOffset]
               == FieldBytes(EncodeText(playerName, PlayerNameSpace).value, BinaryCodedDecimal(money, MoneySpace),
                             EncodeText(rivalName, RivalNameSpace).value) + MiddleTail()
            && f[ChecksumOffset] == Complement(SumMod256(f[PlayerNameOffset..ChecksumOffset]))
            && f[TrailerOffset..] == TrailerRegion()
  {
    var p := EncodeText(playerName, PlayerNameSpace).value;
    var r := EncodeText(rivalName, RivalNameSpace).value;
    var m := BinaryCodedDecimal(money, MoneySpace);
    MiddleRegionParts(playerName, rivalName, money);
    EncodeTextShape(playerName, PlayerNameSpace);
    EncodeTextShape(rivalName, RivalNameSpace);
    HeaderLength();
    NameGapFacts();
    NameGapContents();
    MiddleTailFacts();
    Pieces(HeaderRegion(), p, NameGap(), m, r, MiddleTail(), TrailerRegion(), Complement(SumMod256(p + NameGap() + m + r + MiddleTail())));
  }

  /** Where each piece of a file laid out like a save file lies. */
  lemma Pieces(h: seq<byte>, p: seq<byte>, g: seq<byte>, m: seq<byte>, r: seq<byte>, t: seq<byte>, tr: seq<byte>, c: byte)
    ensures var body := p + g + m + r + t;
            var f := h + (body + [c]) + tr;
            && |f| == |h| + |body| + 1 + |tr|
            && f[..|h|] == h
            && f[|h|..|h| + |p|] == p
            && f[|h| + |p|..|h| + |p| + |g|] == g
            && f[|h| + |p| + |g|..|h| + |p| + |g| + |m|] == m
            && f[|h| + |p| + |g| + |m|..|h| + |p| + |g| + |m| + |r|] == r
            && f[|h| + |p| + |g| + |m| + |r|..|h| + |body|] == t
            && f[|h|..|h| + |body|] == body
            && f[|h| + |body|] == c
            && f[|h| + |body| + 1..] == tr
  {
    var body := p + g + m + r + t;
    var f := h + (body + [c]) + tr;
    assert f[|h|..|h| + |body|] == body;
    assert body[..|p|] == p;
    assert body[|p|..|p| + |g|] == g;
    assert body[|p| + |g|..|p| + |g| + |m|] == m;
    assert body[|p| + |g| + |m|..|p| + |g| + |m| + |r|] == r;
    assert body[|p| + |g| + |m| + |r|..] == t;
  }

  /** The constant bytes between the player name and the money. */
  lemma NameGapContents()
    ensures NameGap() == Fill(39, 0x00) + [0xFF] + Fill(40, 0x00)
  {
    assert Fill(1, 0xFF) == [0xFF];
  }

  /** The checksummed region, checksum included, sums to 0xFF modulo 256. */
  lemma SaveFileChecksum(playerName: string, rivalName: string, money: nat)
    requires money <= MaxMoney
    requires SaveFile(playerName, rivalName, money).Success?
    ensures |SaveFile(playerName, rivalName, money).value| == FileSize
    ensures SumMod256(SaveFile(playerName, rivalName, money).value[PlayerNameOffset..TrailerOffset]) == 0xFF
  {
    SaveFileLayout(playerName, rivalName, money);
    var f := SaveFile(playerName, rivalName, money).value;
    var body := f[PlayerNameOffset..ChecksumOffset];
    assert f[PlayerNameOffset..TrailerOffset] == body + [f[ChecksumOffset]];
    ChecksumCompletes(body);
  }

  /** The trailer is all 0xFF. */
  lemma SaveFileTrailer(playerName: string, rivalName: string, money: nat)
    requires money <= MaxMoney
    requires SaveFile(playerName, rivalName, money).Success?
    ensures |SaveFile(playerName, rivalName, money).value| == FileSize
    ensures forall i :: TrailerOffset <= i < FileSize ==> SaveFile(playerName, rivalName, money).value[i] == 0xFF
  {
    SaveFileLayout(playerName, rivalName, money);
    var f := SaveFile(playerName, rivalName, money).value;
    forall i | TrailerOffset <= i < FileSize
      ensures f[i] == 0xFF
    {
      assert f[i] == f[TrailerOffset..][i - TrailerOffset];
    }
  }

  /** Two successful files differ at most in the name fields, the money field and the checksum. */
  lemma OnlyFieldsDependOnInput(playerName1: string, rivalName1: string, money1: nat,
                                playerName2: string, rivalName2: string, money2: nat)
    requires money1 <= MaxMoney && money2 <= MaxMoney
    requires SaveFile(playerName1, rivalName1, money1).Success?
    requires SaveFile(playerName2, rivalName2, money2).Success?
    ensures |SaveFile(playerName1, rivalName1, money1).value| == |SaveFile(playerName2, rivalName2, money2).value| == FileSize
    ensures forall i :: 0 <= i < FileSize && !InputDependent(i) ==>
              SaveFile(playerName1, rivalName1, money1).value[i] == SaveFile(playerName2, rivalName2, money2).value[i]
  {
    SaveFileLayout(playerName1, rivalName1, money1);
    SaveFileLayout(playerName2, rivalName2, money2);
    var f1 := SaveFile(playerName1, rivalName1, money1).value;
    var f2 := SaveFile(playerName2, rivalName2, money2).value;
    forall i | 0 <= i < FileSize && !InputDependent(i)
      ensures f1[i] == f2[i]
    {
      if i < PlayerNameOffset {
        assert f1[i] == f1[..PlayerNameOffset][i] && f2[i] == f2[..PlayerNameOffset][i];
      } else if i < MoneyOffset {
        var k := i - (PlayerNameOffset + PlayerNameSpace);
        assert f1[i] == f1[PlayerNameOffset + PlayerNameSpace..MoneyOffset][k];
        assert f2[i] == f2[PlayerNameOffset + PlayerNameSpace..MoneyOffset][k];
      } else if i < ChecksumOffset {
        var k := i - (RivalNameOffset + RivalNameSpace);
        assert f1[i] == f1[RivalNameOffset + RivalNameSpace..ChecksumOffset][k];
        assert f2[i] == f2[RivalNameOffset + RivalNameSpace..ChecksumOffset][k];
      } else {
        var k := i - TrailerOffset;
        assert f1[i] == f1[TrailerOffset..][k] && f2[i] == f2[TrailerOffset..][k];
      }
    }
  }

  /** Reading the fields of a successful file back gives the inputs. */
  lemma FieldsReadBack(playerName: string, rivalName: string, money: nat)
    requires money <= MaxMoney
    requires SaveFile(playerName, rivalName, money).Success?
    ensures |SaveFile(playerName, rivalName, money).value| == FileSize
    ensures DecodeText(SaveFile(playerName, rivalName, money).value[PlayerNameOffset..PlayerNameOffset + PlayerNameSpace])
            == Some(playerName)
    ensures DecodeBinaryCodedDecimal(SaveFile(playerName, rivalName, money).value[MoneyOffset..MoneyOffset + MoneySpace])
            == money
    ensures DecodeText(SaveFile(playerName, rivalName, money).value[RivalNameOffset..RivalNameOffset + RivalNameSpace])
            == Some(rivalName)
  {
    SaveFileLayout(playerName, rivalName, money);
    TextRoundTrip(playerName, PlayerNameSpace);
    TextRoundTrip(rivalName, RivalNameSpace);
    BcdRoundTrip(money, MoneySpace);
  }

  /** The integration test's vector: player "Red", rival "Gary" and the service's default money of
      3000 (or any names encoded the same way) give a 32768-byte file with the player's name at
      offset 0x2598 ... */
  lemma IntegrationPlayerField(playerName: string, rivalName: string, money: nat)
    requires money == 3000
    requires EncodeText(playerName, PlayerNameSpace) == EncodeText("Red", PlayerNameSpace)
    requires EncodeText(rivalName, RivalNameSpace) == EncodeText("Gary", RivalNameSpace)
    ensures SaveFile(playerName, rivalName, money).Success?
    ensures var f := SaveFile(playerName, rivalName, money).value;
            && |f| == 32768
            && f[0x2598..0x2598 + 0xB] == [0x91, 0xA4, 0xA3, 0x50, 0x00, 0x00, 0x00, 0x00, 0x00, 0x00, 0x00]
  {
    RedField();
    GaryField();
    SaveFileFailure(playerName, rivalName, money);
    SaveFileLayout(playerName, rivalName, money);
  }

  /** ... the rival's name at offset 0x25F6 ... */
  lemma IntegrationRivalField(playerName: string, rivalName: string, money: nat)
    requires money == 3000
    requires EncodeText(playerName, PlayerNameSpace) == EncodeText("Red", PlayerNameSpace)
    requires EncodeText(rivalName, RivalNameSpace) == EncodeText("Gary", RivalNameSpace)
    ensures SaveFile(playerName, rivalName, money).Success?
    ensures var f := SaveFile(playerName, rivalName, money).value;
            && |f| == 32768
            && f[0x25F6..0x25F6 + 0xB] == [0x86, 0xA0, 0xB1, 0xB8, 0x50, 0x00, 0x00, 0x00, 0x00, 0x00, 0x00]
  {
    RedField();
    GaryField();
    SaveFileFailure(playerName, rivalName, money);
    SaveFileLayout(playerName, rivalName, money);
  }

  /** ... and checksum byte 0xC2 at offset 0x3523: the fields add 552, 48 and 735 to the constant
      part's 11782. */
  lemma IntegrationChecksum(playerName: string, rivalName: string, money: nat)
    requires money == 3000
    requires EncodeText(playerName, PlayerNameSpace) == EncodeText("Red", PlayerNameSpace)
    requires EncodeText(rivalName, RivalNameSpace) == EncodeText("Gary", RivalNameSpace)
    ensures SaveFile(playerName, rivalName, money).Success?
    ensures |SaveFile(playerName, rivalName, money).value| == 32768
    ensures SaveFile(playerName, rivalName, money).value[0x3523] == 0xC2
  {
    SaveFileFailure(playerName, rivalName, money);
    assert ByteSum(EncodeText(playerName, PlayerNameSpace).value) == 552 by { RedSum(); }
    assert ByteSum(EncodeText(rivalName, RivalNameSpace).value) == 735 by { GarySum(); }
    assert ByteSum(BinaryCodedDecimal(money, MoneySpace)) == 48 by { MoneySum(); }
    ChecksumOfFieldSums(playerName, rivalName, money);
  }

  /** Inputs whose fields sum like the integration test's give checksum byte 0xC2. */
  lemma ChecksumOfFieldSums(playerName: string, rivalName: string, money: nat)
    requires money <= MaxMoney
    requires SaveFile(playerName, rivalName, money).Success?
    requires EncodeText(playerName, PlayerNameSpace).Success? && ByteSum(EncodeText(playerName, PlayerNameSpace).value) == 552
    requires ByteSum(BinaryCodedDecimal(money, MoneySpace)) == 48
    requires EncodeText(rivalName, RivalNameSpace).Success? && ByteSum(EncodeText(rivalName, RivalNameSpace).value) == 735
    ensures |SaveFile(playerName, rivalName, money).value| == 32768
    ensures SaveFile(playerName, rivalName, money).value[0x3523] == 0xC2
  {
    ChecksumFromFieldSums(playerName, rivalName, money, 552, 48, 735);
  }

  /** The checksum byte depends on the inputs only through the byte sums of the three fields. */
  lemma ChecksumFromFieldSums(playerName: string, rivalName: string, money: nat, a: nat, b: nat, c: nat)
    requires money <= MaxMoney
    requires SaveFile(playerName, rivalName, money).Success?
    requires EncodeText(playerName, PlayerNameSpace).Success? && ByteSum(EncodeText(playerName, PlayerNameSpace).value) == a
    requires ByteSum(BinaryCodedDecimal(money, MoneySpace)) == b
    requires EncodeText(rivalName, RivalNameSpace).Success? && ByteSum(EncodeText(rivalName, RivalNameSpace).value) == c
    ensures |SaveFile(playerName, rivalName, money).value| == FileSize
    ensures SaveFile(playerName, rivalName, money).value[ChecksumOffset] as int == 0xFF - (a + b + c + 11782) % 256
  {
    var p := EncodeText(playerName, PlayerNameSpace).value;
    var r := EncodeText(rivalName, RivalNameSpace).value;
    var m := BinaryCodedDecimal(money, MoneySpace);
    var body := p + NameGap() + m + r + MiddleTail();
    assert ByteSum(body) == a + b + c + 11782 by {
      NameGapFacts();
      MiddleTailFacts();
      BodySum(p, NameGap(), m, r, MiddleTail());
    }
    ChecksumByte(playerName, rivalName, money);
    ChecksumOfSum(body, a + b + c + 11782);
  }

  /** The byte sum of the integration test's player name field. */
  lemma RedSum()
    ensures EncodeText("Red", PlayerNameSpace).Success? && ByteSum(EncodeText("Red", PlayerNameSpace).value) == 552
  {
    RedField();
    EncodedFieldSum("Red", PlayerNameSpace);
    assert ByteSum([0x91, 0xA4, 0xA3]) == 0x91 + 0xA4 + 0xA3;
  }

  /** The byte sum of the integration test's rival name field. */
  lemma GarySum()
    ensures EncodeText("Gary", RivalNameSpace).Success? && ByteSum(EncodeText("Gary", RivalNameSpace).value) == 735
  {
    GaryField();
    EncodedFieldSum("Gary", RivalNameSpace);
    assert ByteSum([0x86, 0xA0, 0xB1, 0xB8]) == 0x86 + 0xA0 + 0xB1 + 0xB8;
  }

  /** The byte sum of the integration test's money field. */
  lemma MoneySum()
    ensures ByteSum(BinaryCodedDecimal(3000, MoneySpace)) == 48
  {
    BcdExample();
    assert ByteSum([0x00, 0x30, 0x00]) == 48;
  }

  /** The checksum byte of a successful file is the complement of the 8-bit sum of the fields and
      the constant tail. */
  lemma ChecksumByte(playerName: string, rivalName: string, money: nat)
    requires money <= MaxMoney
    requires SaveFile(playerName, rivalName, money).Success?
    ensures |SaveFile(playerName, rivalName, money).value| == FileSize
    ensures SaveFile(playerName, rivalName, money).value[ChecksumOffset]
            == Complement(SumMod256(FieldBytes(EncodeText(playerName, PlayerNameSpace).value, BinaryCodedDecimal(money, MoneySpace),
                                               EncodeText(rivalName, RivalNameSpace).value) + MiddleTail()))
  {
    SaveFileLayout(playerName, rivalName, money);
  }

  /** The checksum of a region is read off its plain byte sum. */
  lemma ChecksumOfSum(s: seq<byte>, n: nat)
    requires ByteSum(s) == n
    ensures Complement(SumMod256(s)) as int == 0xFF - n % 256
  {
  }

  /** The byte sum of the checksummed body, piece by piece. */
  lemma BodySum(p: seq<byte>, g: seq<byte>, m: seq<byte>, r: seq<byte>, t: seq<byte>)
    ensures ByteSum(p + g + m + r + t) == ByteSum(p) + ByteSum(g) + ByteSum(m) + ByteSum(r) + ByteSum(t)
  {
    SumAppend(p, g);
    SumAppend(p + g, m);
    SumAppend(p + g + m, r);
    SumAppend(p + g + m + r, t);
  }

  /** The integration test's player name in its field. */
  lemma RedField()
    ensures Encodable("Red") && Codes("Red") == [0x91, 0xA4, 0xA3]
    ensures EncodeText("Red", PlayerNameSpace) == Success([0x91, 0xA4, 0xA3, 0x50, 0x00, 0x00, 0x00, 0x00, 0x00, 0x00, 0x00])
  {
    assert Codes("Red") + [Terminator] + Fill(7, Padding)
        == [0x91, 0xA4, 0xA3, 0x50, 0x00, 0x00, 0x00, 0x00, 0x00, 0x00, 0x00];
  }

  /** The integration test's rival name in its field. */
  lemma GaryField()
    ensures Encodable("Gary") && Codes("Gary") == [0x86, 0xA0, 0xB1, 0xB8]
    ensures EncodeText("Gary", RivalNameSpace) == Success([0x86, 0xA0, 0xB1, 0xB8, 0x50, 0x00, 0x00, 0x00, 0x00, 0x00, 0x00])
  {
    assert Codes("Gary") + [Terminator] + Fill(6, Padding)
        == [0x86, 0xA0, 0xB1, 0xB8, 0x50, 0x00, 0x00, 0x00, 0x00, 0x00, 0x00];
  }
}
