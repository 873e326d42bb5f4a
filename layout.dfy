/** The byte layout of the save file written by internal/pokegen/gen.go: the constant header and
    trailer, the checksummed middle region with its three fields, and the whole file. */
module Layout {
  import opened Wrappers
  import opened Bytes
  import opened Checksum
  import opened Runs
  import opened Util

  /** Widths of the three fields of the middle region (gen.go:152, 179, 185). */
  const PlayerNameSpace: nat := 11
  const MoneySpace: nat := 3
  const RivalNameSpace: nat := 11

  /** The largest money value the three-byte BCD field holds. */
  const MaxMoney: nat := 999999

  /** Offsets in the file of the middle region's fields and checksum, and the file's length. */
  const PlayerNameOffset: nat := 0x2598
  const MoneyOffset: nat := 0x25F3
  const RivalNameOffset: nat := 0x25F6
  const ChecksumOffset: nat := 0x3523
  const TrailerOffset: nat := 0x3524
  const FileSize: nat := 0x8000

  // ---------------------------------------------------------------- header (writeStart)

  /** Sprite tile data written at offset 0x0084 (gen.go:42-47). */
  const Tiles0084: seq<byte> :=
      [0x03, 0x0C, 0x10, 0x10, 0x20, 0x20]
    + [0x20, 0x10, 0x10, 0x08, 0x18, 0x20]
    + [0x20, 0x40, 0x48, 0x38, 0x08, 0x10]
    + [0x11, 0x11, 0x22, 0x22, 0x1C]

  /** Sprite tile data written at offset 0x00BC (gen.go:59-65). */
  const Tiles00BC: seq<byte> :=
      [0xC0, 0x30, 0x08, 0x08, 0x04]
    + [0x04, 0x04, 0x08, 0x08, 0x10]
    + [0x18, 0x04, 0x04, 0x02, 0x12]
    + [0x1C, 0x10, 0x08, 0x88, 0x88]
    + [0x44, 0x44, 0x38]

  /** Sprite tile data written at offset 0x0290 (gen.go:77-86). */
  const Tiles0290: seq<byte> :=
      [0x03, 0x03, 0x0C, 0x0C, 0x10, 0x10]
    + [0x10, 0x10, 0x20, 0x20, 0x20, 0x20]
    + [0x20, 0x20, 0x10, 0x10, 0x10, 0x10]
    + [0x08, 0x08, 0x18, 0x18, 0x20, 0x20]
    + [0x20, 0x20, 0x40, 0x40, 0x48, 0x48]
    + [0x38, 0x38, 0x08, 0x08, 0x10, 0x10]
    + [0x11, 0x11, 0x11, 0x11, 0x22, 0x22]
    + [0x22, 0x22, 0x1C, 0x1C]

  /** Sprite tile data written at offset 0x0300 (gen.go:98-107). */
  const Tiles0300: seq<byte> :=
      [0xC0, 0xC0, 0x30, 0x30, 0x08, 0x08]
    + [0x08, 0x08, 0x04, 0x04, 0x04, 0x04]
    + [0x04, 0x04, 0x08, 0x08, 0x08, 0x08]
    + [0x10, 0x10, 0x18, 0x18, 0x04, 0x04]
    + [0x04, 0x04, 0x02, 0x02, 0x12, 0x12]
    + [0x1C, 0x1C, 0x10, 0x10, 0x08, 0x08]
    + [0x88, 0x88, 0x88, 0x88, 0x44, 0x44]
    + [0x44, 0x44, 0x38, 0x38]

  /** The writes of `writeStart` in order, each with the offset it starts at. */
  const HeaderPlan: Plan :=
    Then(Repeat(132, 0x00),     // 0x0000, gen.go:35
    Then(Literal(Tiles0084),    // 0x0084, gen.go:42
    Then(Repeat(33, 0x00),      // 0x009B, gen.go:52
    Then(Literal(Tiles00BC),    // 0x00BC, gen.go:59
    Then(Repeat(445, 0x00),     // 0x00D3, gen.go:70
    Then(Literal(Tiles0290),    // 0x0290, gen.go:77
    Then(Repeat(66, 0x00),      // 0x02BE, gen.go:91
    Then(Literal(Tiles0300),    // 0x0300, gen.go:98
    Then(Repeat(362, 0x00),     // 0x032E, gen.go:112
    Then(Repeat(8448, 0xFF),    // 0x0498, gen.go:119
    Done))))))))))

  /** Everything `writeStart` writes, identical for every save file (gen.go:34-127). */
  function HeaderRegion(): seq<byte>
  {
    Expand(HeaderPlan)
  }

  // ---------------------------------------------------------------- middle region (writeMiddle)

  /** The two bytes of the player ID (gen.go:198). */
  const PlayerId: seq<byte> := [0xC0, 0xB2]

  /** The play time's seconds and frames (gen.go:334-335). */
  const Seconds: byte := 0x07
  const Frame: byte := 0x05
  const PlayTime: seq<byte> := [Seconds, Frame]

  /** Constant bytes at offset 0x2601, after the rival name (gen.go:191-193). */
  const Block2601: seq<byte> :=
      [0x03, 0x00, 0x00, 0x01]

  /** Constant bytes at offset 0x2607, after the player ID (gen.go:204-215). */
  const Block2607: seq<byte> :=
      [0xBA, 0x02]
    + [0x00, 0x26, 0x12, 0xC7, 0x06, 0x03, 0x00]
    + [0x01, 0x00, 0x00, 0x04, 0x04, 0x04, 0x10]
    + [0x40, 0xCF, 0x40, 0xB0, 0x40, 0x00, 0xFF]
    + [0x00, 0x00, 0x00, 0x00, 0x00, 0x00, 0x00]
    + [0x00, 0x00, 0x00, 0xFF, 0x00, 0x00, 0x00]
    + [0x00, 0x00, 0x00, 0x00, 0x00, 0x00, 0x00]
    + [0xFF, 0x00, 0x00, 0x00, 0x00, 0x00, 0x00]
    + [0x00, 0x00, 0x00, 0x00, 0xFF, 0x00]

  /** Constant bytes at offset 0x2654 (gen.go:227-231). */
  const Block2654: seq<byte> :=
      [0x00, 0xD0, 0x40, 0x00, 0x00]
    + [0x0A, 0x01, 0x01, 0x07, 0x02]
    + [0x25, 0x00]

  /** Constant bytes at offset 0x27D0 (gen.go:257-262). */
  const Block27D0: seq<byte> :=
      [0x08, 0x08, 0x00, 0x98, 0x00, 0x08, 0x00]
    + [0x19, 0x70, 0x52, 0xE0, 0x4D, 0x49, 0x17]
    + [0xFF, 0xFF, 0xFF, 0xFF, 0x00, 0x00, 0x00]
    + [0x00, 0x01, 0x14, 0x01, 0xFF, 0x00, 0x00]

  /** Constant bytes at offset 0x2852 (gen.go:274-280). */
  const Block2852: seq<byte> :=
      [0xA5, 0x00, 0x7E, 0x01, 0x0C, 0x41, 0x02, 0x00, 0x10]
    + [0x10, 0x00, 0x00, 0x0C, 0x00, 0x02, 0x00, 0x80, 0x01]
    + [0x00, 0x00, 0x00, 0x00, 0x00, 0x00, 0x00, 0x00, 0x40]
    + [0x9E, 0x07, 0x00, 0x00, 0x00, 0x00, 0x00, 0x00, 0x00]
    + [0x00, 0x00, 0x00, 0xFF, 0xFF, 0x00]

  /** Constant bytes at offset 0x2D2C (gen.go:351-353). */
  const Block2D2C: seq<byte> :=
      [0x01, 0x00, 0xFF, 0x00, 0x3C, 0x00]
    + [0x40, 0x00, 0x00, 0x04, 0x40, 0x40]

  /** Constant bytes at offset 0x2E39 (gen.go:575-577). */
  const Block2E39: seq<byte> :=
      [0x01, 0x01]

  /** The writes between the player name and the money (gen.go:158-177). */
  const GapPlan: Plan :=
    Then(Repeat(39, 0x00),      // 0x25A3, gen.go:158
    Then(Repeat(1, 0xFF),       // 0x25CA, gen.go:165
    Then(Repeat(40, 0x00),      // 0x25CB, gen.go:172
    Done)))

  /** The 80 constant bytes between the player name and the money. */
  function NameGap(): seq<byte>
  {
    Expand(GapPlan)
  }

  // The writes of `writeMiddle` from the end of the rival name to the checksum in order, each with
  // the offset it starts at, in stretches that each end in the next one.

  /** The writes of `writeMiddle` from offset 0x2601 on: 8 writes, and then the writes from offset 0x27D0 on. */
  const TailFrom2601: Plan :=
    Then(Literal(Block2601),    // 0x2601, gen.go:191
    Then(Literal(PlayerId),     // 0x2605, gen.go:199
    Then(Literal(Block2607),    // 0x2607, gen.go:204
    Then(Repeat(20, 0x00),      // 0x2640, gen.go:220
    Then(Literal(Block2654),    // 0x2654, gen.go:227
    Then(Repeat(123, 0x00),     // 0x2660, gen.go:236
    Then(Repeat(1, 0xFF),       // 0x26DB, gen.go:243
    Then(Repeat(244, 0x00),     // 0x26DC, gen.go:250
    TailFrom27D0))))))))

  /** The writes of `writeMiddle` from offset 0x27D0 on: 11 writes, and then the writes from offset 0x2CF2 on. */
  const TailFrom27D0: Plan :=
    Then(Literal(Block27D0),    // 0x27D0, gen.go:257
    Then(Repeat(102, 0x00),     // 0x27EC, gen.go:267
    Then(Literal(Block2852),    // 0x2852, gen.go:274
    Then(Repeat(60, 0x00),      // 0x287C, gen.go:285
    Then(Repeat(1, 0x01),       // 0x28B8, gen.go:292
    Then(Repeat(270, 0x00),     // 0x28B9, gen.go:299
    Then(Repeat(1, 0xFF),       // 0x29C7, gen.go:306
    Then(Repeat(22, 0x00),      // 0x29C8, gen.go:313
    Then(Repeat(1, 0x01),       // 0x29DE, gen.go:320
    Then(Repeat(785, 0x00),     // 0x29DF, gen.go:327
    Then(Literal(PlayTime),     // 0x2CF0, gen.go:337
    TailFrom2CF2)))))))))))

  /** The writes of `writeMiddle` from offset 0x2CF2 on: 8 writes, and then the writes from offset 0x2D5F on. */
  const TailFrom2CF2: Plan :=
    Then(Repeat(58, 0x00),      // 0x2CF2, gen.go:344
    Then(Literal(Block2D2C),    // 0x2D2C, gen.go:351
    Then(Repeat(6, 0x00),       // 0x2D38, gen.go:358
    Then(Repeat(1, 0xFF),       // 0x2D3E, gen.go:365
    Then(Repeat(15, 0x00),      // 0x2D3F, gen.go:372
    Then(Repeat(1, 0xFF),       // 0x2D4E, gen.go:379
    Then(Repeat(15, 0x00),      // 0x2D4F, gen.go:386
    Then(Repeat(1, 0xFF),       // 0x2D5E, gen.go:393
    TailFrom2D5F))))))))

  /** The writes of `writeMiddle` from offset 0x2D5F on: 8 writes, and then the writes from offset 0x2D9F on. */
  const TailFrom2D5F: Plan :=
    Then(Repeat(15, 0x00),      // 0x2D5F, gen.go:400
    Then(Repeat(1, 0xFF),       // 0x2D6E, gen.go:407
    Then(Repeat(15, 0x00),      // 0x2D6F, gen.go:414
    Then(Repeat(1, 0xFF),       // 0x2D7E, gen.go:421
    Then(Repeat(15, 0x00),      // 0x2D7F, gen.go:428
    Then(Repeat(1, 0xFF),       // 0x2D8E, gen.go:435
    Then(Repeat(15, 0x00),      // 0x2D8F, gen.go:442
    Then(Repeat(1, 0xFF),       // 0x2D9E, gen.go:449
    TailFrom2D9F))))))))

  /** The writes of `writeMiddle` from offset 0x2D9F on: 8 writes, and then the writes from offset 0x2DDF on. */
  const TailFrom2D9F: Plan :=
    Then(Repeat(15, 0x00),      // 0x2D9F, gen.go:456
    Then(Repeat(1, 0xFF),       // 0x2DAE, gen.go:463
    Then(Repeat(15, 0x00),      // 0x2DAF, gen.go:470
    Then(Repeat(1, 0xFF),       // 0x2DBE, gen.go:477
    Then(Repeat(15, 0x00),      // 0x2DBF, gen.go:484
    Then(Repeat(1, 0xFF),       // 0x2DCE, gen.go:491
    Then(Repeat(15, 0x00),      // 0x2DCF, gen.go:498
    Then(Repeat(1, 0xFF),       // 0x2DDE, gen.go:505
    TailFrom2DDF))))))))

  /** The writes of `writeMiddle` from offset 0x2DDF on: 8 writes, and then the writes from offset 0x2E1F on. */
  const TailFrom2DDF: Plan :=
    Then(Repeat(15, 0x00),      // 0x2DDF, gen.go:512
    Then(Repeat(1, 0xFF),       // 0x2DEE, gen.go:519
    Then(Repeat(15, 0x00),      // 0x2DEF, gen.go:526
    Then(Repeat(1, 0xFF),       // 0x2DFE, gen.go:533
    Then(Repeat(15, 0x00),      // 0x2DFF, gen.go:540
    Then(Repeat(1, 0xFF),       // 0x2E0E, gen.go:547
    Then(Repeat(15, 0x00),      // 0x2E0F, gen.go:554
    Then(Repeat(1, 0xFF),       // 0x2E1E, gen.go:561
    TailFrom2E1F))))))))

  /** The writes of `writeMiddle` from offset 0x2E1F on: 7 writes, up to the checksum. */
  const TailFrom2E1F: Plan :=
    Then(Repeat(26, 0x00),      // 0x2E1F, gen.go:568
    Then(Literal(Block2E39),    // 0x2E39, gen.go:575
    Then(Repeat(242, 0x00),     // 0x2E3B, gen.go:582
    Then(Repeat(1, 0xFF),       // 0x2F2D, gen.go:589
    Then(Repeat(403, 0x00),     // 0x2F2E, gen.go:596
    Then(Repeat(1, 0xFF),       // 0x30C1, gen.go:603
    Then(Repeat(1121, 0x00),    // 0x30C2, gen.go:610
    Done)))))))

  /** The constant bytes from the end of the rival name to the checksum (gen.go:191-615). */
  function MiddleTail(): seq<byte>
  {
    Expand(TailFrom2601)
  }

  /** The variable part of the middle region with the gap inside it, given the three encoded fields
      (gen.go:152-189). */
  function FieldBytes(playerField: seq<byte>, moneyField: seq<byte>, rivalField: seq<byte>): seq<byte>
  {
    playerField + NameGap() + moneyField + rivalField
  }

  /** What the first part of `writeMiddle` (gen.go:152-189) writes through the checksum writer, or the
      error of the first name that cannot be encoded: the player name is written, and checked, first. */
  function MiddleFields(playerName: string, rivalName: string, money: nat): Result<seq<byte>, TextError>
    requires money <= MaxMoney
  {
    match EncodeText(playerName, PlayerNameSpace)
    case Failure(e) => Failure(e)
    case Success(playerField) =>
      match EncodeText(rivalName, RivalNameSpace)
      case Failure(e) => Failure(e)
      case Success(rivalField) =>
        Success(FieldBytes(playerField, BinaryCodedDecimal(money, MoneySpace), rivalField))
  }

  /** What the first part of `writeMiddle` has written through the checksum writer when a name cannot
      be encoded: the bytes `WriteText` left of the player name, or the player name, the gap, the money
      and the bytes `WriteText` left of the rival name. */
  function FieldsWrittenBeforeError(playerName: string, rivalName: string, money: nat): seq<byte>
    requires money <= MaxMoney
    requires MiddleFields(playerName, rivalName, money).Failure?
  {
    match EncodeText(playerName, PlayerNameSpace)
    case Failure(_) => WrittenBeforeError(playerName, PlayerNameSpace)
    case Success(playerField) =>
      playerField + NameGap() + BinaryCodedDecimal(money, MoneySpace) + WrittenBeforeError(rivalName, RivalNameSpace)
  }

  /** `body` followed by its checksum byte, the complement of the 8-bit sum of `body` (gen.go:617). */
  function Checksummed(body: seq<byte>): seq<byte>
  {
    body + [Complement(SumMod256(body))]
  }

  /** What `writeMiddle` writes on success, or the error it returns (gen.go:145-623): the fields and
      the constant tail, checksummed. */
  function MiddleRegion(playerName: string, rivalName: string, money: nat): Result<seq<byte>, TextError>
    requires money <= MaxMoney
  {
    match MiddleFields(playerName, rivalName, money)
    case Failure(e) => Failure(e)
    case Success(fields) => Success(Checksummed(fields + MiddleTail()))
  }

  // ---------------------------------------------------------------- trailer (writeEnd) and file (Gen)

  /** Everything `writeEnd` writes (gen.go:625-634). */
  function TrailerRegion(): seq<byte>
  {
    Fill(19164, 0xFF)
  }

  /** What `Gen` returns: the header, the middle region and the trailer, or the middle region's error
      (gen.go:10-32). */
  function SaveFile(playerName: string, rivalName: string, money: nat): Result<seq<byte>, TextError>
    requires money <= MaxMoney
  {
    match MiddleRegion(playerName, rivalName, money)
    case Failure(e) => Failure(e)
    case Success(middle) => Success(HeaderRegion() + middle + TrailerRegion())
  }

  // ---------------------------------------------------------------- facts about the constant regions

  /** The bytes of `Block2601` add up to 4. */
  lemma Block2601Sum()
    ensures ByteSum(Block2601) == 4
  {
  }

  /** The bytes of `Block2607` add up to 2076. */
  lemma Block2607Sum()
    ensures ByteSum(Block2607) == 2076
  {
    var r0: seq<byte> := [0xBA, 0x02];
    var r1: seq<byte> := [0x00, 0x26, 0x12, 0xC7, 0x06, 0x03, 0x00];
    var r2: seq<byte> := [0x01, 0x00, 0x00, 0x04, 0x04, 0x04, 0x10];
    var r3: seq<byte> := [0x40, 0xCF, 0x40, 0xB0, 0x40, 0x00, 0xFF];
    var r4: seq<byte> := [0x00, 0x00, 0x00, 0x00, 0x00, 0x00, 0x00];
    var r5: seq<byte> := [0x00, 0x00, 0x00, 0xFF, 0x00, 0x00, 0x00];
    var r6: seq<byte> := [0x00, 0x00, 0x00, 0x00, 0x00, 0x00, 0x00];
    var r7: seq<byte> := [0xFF, 0x00, 0x00, 0x00, 0x00, 0x00, 0x00];
    var r8: seq<byte> := [0x00, 0x00, 0x00, 0x00, 0xFF, 0x00];
    assert Block2607 == r0 + r1 + r2 + r3 + r4 + r5 + r6 + r7 + r8;
    assert ByteSum(r0) == 188;
    assert ByteSum(r1) == 264;
    assert ByteSum(r2) == 29;
    assert ByteSum(r3) == 830;
    assert ByteSum(r4) == 0;
    assert ByteSum(r5) == 255;
    assert ByteSum(r6) == 0;
    assert ByteSum(r7) == 255;
    assert ByteSum(r8) == 255;
    SumAppend(r0, r1);
    SumAppend(r0 + r1, r2);
    SumAppend(r0 + r1 + r2, r3);
    SumAppend(r0 + r1 + r2 + r3, r4);
    SumAppend(r0 + r1 + r2 + r3 + r4, r5);
    SumAppend(r0 + r1 + r2 + r3 + r4 + r5, r6);
    SumAppend(r0 + r1 + r2 + r3 + r4 + r5 + r6, r7);
    SumAppend(r0 + r1 + r2 + r3 + r4 + r5 + r6 + r7, r8);
  }

  /** The bytes of `Block2654` add up to 330. */
  lemma Block2654Sum()
    ensures ByteSum(Block2654) == 330
  {
    var r0: seq<byte> := [0x00, 0xD0, 0x40, 0x00, 0x00];
    var r1: seq<byte> := [0x0A, 0x01, 0x01, 0x07, 0x02];
    var r2: seq<byte> := [0x25, 0x00];
    assert Block2654 == r0 + r1 + r2;
    assert ByteSum(r0) == 272;
    assert ByteSum(r1) == 21;
    assert ByteSum(r2) == 37;
    SumAppend(r0, r1);
    SumAppend(r0 + r1, r2);
  }

  /** The bytes of `Block27D0` add up to 2089. */
  lemma Block27D0Sum()
    ensures ByteSum(Block27D0) == 2089
  {
    var r0: seq<byte> := [0x08, 0x08, 0x00, 0x98, 0x00, 0x08, 0x00];
    var r1: seq<byte> := [0x19, 0x70, 0x52, 0xE0, 0x4D, 0x49, 0x17];
    var r2: seq<byte> := [0xFF, 0xFF, 0xFF, 0xFF, 0x00, 0x00, 0x00];
    var r3: seq<byte> := [0x00, 0x01, 0x14, 0x01, 0xFF, 0x00, 0x00];
    assert Block27D0 == r0 + r1 + r2 + r3;
    assert ByteSum(r0) == 176;
    assert ByteSum(r1) == 616;
    assert ByteSum(r2) == 1020;
    assert ByteSum(r3) == 277;
    SumAppend(r0, r1);
    SumAppend(r0 + r1, r2);
    SumAppend(r0 + r1 + r2, r3);
  }

  /** The bytes of `Block2852` add up to 1285. */
  lemma Block2852Sum()
    ensures ByteSum(Block2852) == 1285
  {
    var r0: seq<byte> := [0xA5, 0x00, 0x7E, 0x01, 0x0C];
    var r1: seq<byte> := [0x41, 0x02, 0x00, 0x10];
    var r2: seq<byte> := [0x10, 0x00, 0x00, 0x0C, 0x00];
    var r3: seq<byte> := [0x02, 0x00, 0x80, 0x01];
    var r4: seq<byte> := [0x00, 0x00, 0x00, 0x00, 0x00];
    var r5: seq<byte> := [0x00, 0x00, 0x00, 0x40];
    var r6: seq<byte> := [0x9E, 0x07, 0x00, 0x00, 0x00];
    var r7: seq<byte> := [0x00, 0x00, 0x00, 0x00];
    var r8: seq<byte> := [0x00, 0x00, 0x00, 0xFF, 0xFF, 0x00];
    assert Block2852 == r0 + r1 + r2 + r3 + r4 + r5 + r6 + r7 + r8;
    assert ByteSum(r0) == 304;
    assert ByteSum(r1) == 83;
    assert ByteSum(r2) == 28;
    assert ByteSum(r3) == 131;
    assert ByteSum(r4) == 0;
    assert ByteSum(r5) == 64;
    assert ByteSum(r6) == 165;
    assert ByteSum(r7) == 0;
    assert ByteSum(r8) == 510;
    SumAppend(r0, r1);
    SumAppend(r0 + r1, r2);
    SumAppend(r0 + r1 + r2, r3);
    SumAppend(r0 + r1 + r2 + r3, r4);
    SumAppend(r0 + r1 + r2 + r3 + r4, r5);
    SumAppend(r0 + r1 + r2 + r3 + r4 + r5, r6);
    SumAppend(r0 + r1 + r2 + r3 + r4 + r5 + r6, r7);
    SumAppend(r0 + r1 + r2 + r3 + r4 + r5 + r6 + r7, r8);
  }

  /** The bytes of `Block2D2C` add up to 512. */
  lemma Block2D2CSum()
    ensures ByteSum(Block2D2C) == 512
  {
    var r0: seq<byte> := [0x01, 0x00, 0xFF, 0x00, 0x3C, 0x00];
    var r1: seq<byte> := [0x40, 0x00, 0x00, 0x04, 0x40, 0x40];
    assert Block2D2C == r0 + r1;
    assert ByteSum(r0) == 316;
    assert ByteSum(r1) == 196;
    SumAppend(r0, r1);
  }

  /** The bytes of `Block2E39` add up to 2. */
  lemma Block2E39Sum()
    ensures ByteSum(Block2E39) == 2
  {
  }

  /** The player ID adds 370 to the checksum and the play time 12. */
  lemma PlayerIdAndPlayTimeSums()
    ensures ByteSum(PlayerId) == 370
    ensures ByteSum(PlayTime) == 12
  {
    var t: seq<byte> := [0x07, 0x05];
    assert PlayTime == t;
    assert ByteSum(t) == 12;
  }

  /** `writeStart` writes 9624 bytes, so the middle region starts at 0x2598. */
  lemma HeaderLength()
    ensures |HeaderRegion()| == PlayerNameOffset
  {
    ExpandFacts(HeaderPlan);
    var p0 := HeaderPlan;
    var p1 := p0.rest;
    var p2 := p1.rest;
    var p3 := p2.rest;
    var p4 := p3.rest;
    var p5 := p4.rest;
    var p6 := p5.rest;
    var p7 := p6.rest;
    var p8 := p7.rest;
    var p9 := p8.rest;
    var p10 := p9.rest;
    assert p10 == Done;
    assert PlanLength(p9) == 8448;
    assert PlanLength(p8) == 8810;
    assert PlanLength(p7) == 8856;
    assert PlanLength(p6) == 8922;
    assert PlanLength(p5) == 8968;
    assert PlanLength(p4) == 9413;
    assert PlanLength(p3) == 9436;
    assert PlanLength(p2) == 9469;
    assert PlanLength(p1) == 9492;
    assert PlanLength(p0) == 9624;
  }

  /** The writes from offset 0x2601 on put out 3874 bytes adding up to 11527. */
  lemma TailFrom2601Facts()
    ensures PlanLength(TailFrom2601) == 3874
    ensures PlanSum(TailFrom2601) == 11527
  {
    TailFrom27D0Facts();
    Block2601Sum();
    Block2607Sum();
    Block2654Sum();
    PlayerIdAndPlayTimeSums();
    var p0 := TailFrom2601;
    var p1 := p0.rest;
    var p2 := p1.rest;
    var p3 := p2.rest;
    var p4 := p3.rest;
    var p5 := p4.rest;
    var p6 := p5.rest;
    var p7 := p6.rest;
    var p8 := p7.rest;
    assert p8 == TailFrom27D0;
    assert PlanLength(p7) == 3655 && PlanSum(p7) == 8492;
    assert PlanLength(p6) == 3656 && PlanSum(p6) == 8747;
    assert PlanLength(p5) == 3779 && PlanSum(p5) == 8747;
    assert PlanLength(p4) == 3791 && PlanSum(p4) == 9077;
    assert PlanLength(p3) == 3811 && PlanSum(p3) == 9077;
    assert PlanLength(p2) == 3868 && PlanSum(p2) == 11153;
    assert PlanLength(p1) == 3870 && PlanSum(p1) == 11523;
    assert PlanLength(p0) == 3874 && PlanSum(p0) == 11527;
  }

  /** The writes from offset 0x27D0 on put out 3411 bytes adding up to 8492. */
  lemma TailFrom27D0Facts()
    ensures PlanLength(TailFrom27D0) == 3411
    ensures PlanSum(TailFrom27D0) == 8492
  {
    TailFrom2CF2Facts();
    Block27D0Sum();
    Block2852Sum();
    PlayerIdAndPlayTimeSums();
    var p0 := TailFrom27D0;
    var p1 := p0.rest;
    var p2 := p1.rest;
    var p3 := p2.rest;
    var p4 := p3.rest;
    var p5 := p4.rest;
    var p6 := p5.rest;
    var p7 := p6.rest;
    var p8 := p7.rest;
    var p9 := p8.rest;
    var p10 := p9.rest;
    var p11 := p10.rest;
    assert p11 == TailFrom2CF2;
    assert PlanLength(p10) == 2099 && PlanSum(p10) == 4861;
    assert PlanLength(p9) == 2884 && PlanSum(p9) == 4861;
    assert PlanLength(p8) == 2885 && PlanSum(p8) == 4862;
    assert PlanLength(p7) == 2907 && PlanSum(p7) == 4862;
    assert PlanLength(p6) == 2908 && PlanSum(p6) == 5117;
    assert PlanLength(p5) == 3178 && PlanSum(p5) == 5117;
    assert PlanLength(p4) == 3179 && PlanSum(p4) == 5118;
    assert PlanLength(p3) == 3239 && PlanSum(p3) == 5118;
    assert PlanLength(p2) == 3281 && PlanSum(p2) == 6403;
    assert PlanLength(p1) == 3383 && PlanSum(p1) == 6403;
    assert PlanLength(p0) == 3411 && PlanSum(p0) == 8492;
  }

  /** The writes from offset 0x2CF2 on put out 2097 bytes adding up to 4849. */
  lemma TailFrom2CF2Facts()
    ensures PlanLength(TailFrom2CF2) == 2097
    ensures PlanSum(TailFrom2CF2) == 4849
  {
    TailFrom2D5FFacts();
    Block2D2CSum();
    var p0 := TailFrom2CF2;
    var p1 := p0.rest;
    var p2 := p1.rest;
    var p3 := p2.rest;
    var p4 := p3.rest;
    var p5 := p4.rest;
    var p6 := p5.rest;
    var p7 := p6.rest;
    var p8 := p7.rest;
    assert p8 == TailFrom2D5F;
    assert PlanLength(p7) == 1989 && PlanSum(p7) == 3827;
    assert PlanLength(p6) == 2004 && PlanSum(p6) == 3827;
    assert PlanLength(p5) == 2005 && PlanSum(p5) == 4082;
    assert PlanLength(p4) == 2020 && PlanSum(p4) == 4082;
    assert PlanLength(p3) == 2021 && PlanSum(p3) == 4337;
    assert PlanLength(p2) == 2027 && PlanSum(p2) == 4337;
    assert PlanLength(p1) == 2039 && PlanSum(p1) == 4849;
    assert PlanLength(p0) == 2097 && PlanSum(p0) == 4849;
  }

  /** The writes from offset 0x2D5F on put out 1988 bytes adding up to 3572. */
  lemma TailFrom2D5FFacts()
    ensures PlanLength(TailFrom2D5F) == 1988
    ensures PlanSum(TailFrom2D5F) == 3572
  {
    TailFrom2D9FFacts();
    var p0 := TailFrom2D5F;
    var p1 := p0.rest;
    var p2 := p1.rest;
    var p3 := p2.rest;
    var p4 := p3.rest;
    var p5 := p4.rest;
    var p6 := p5.rest;
    var p7 := p6.rest;
    var p8 := p7.rest;
    assert p8 == TailFrom2D9F;
    assert PlanLength(p7) == 1925 && PlanSum(p7) == 2807;
    assert PlanLength(p6) == 1940 && PlanSum(p6) == 2807;
    assert PlanLength(p5) == 1941 && PlanSum(p5) == 3062;
    assert PlanLength(p4) == 1956 && PlanSum(p4) == 3062;
    assert PlanLength(p3) == 1957 && PlanSum(p3) == 3317;
    assert PlanLength(p2) == 1972 && PlanSum(p2) == 3317;
    assert PlanLength(p1) == 1973 && PlanSum(p1) == 3572;
    assert PlanLength(p0) == 1988 && PlanSum(p0) == 3572;
  }

  /** The writes from offset 0x2D9F on put out 1924 bytes adding up to 2552. */
  lemma TailFrom2D9FFacts()
    ensures PlanLength(TailFrom2D9F) == 1924
    ensures PlanSum(TailFrom2D9F) == 2552
  {
    TailFrom2DDFFacts();
    var p0 := TailFrom2D9F;
    var p1 := p0.rest;
    var p2 := p1.rest;
    var p3 := p2.rest;
    var p4 := p3.rest;
    var p5 := p4.rest;
    var p6 := p5.rest;
    var p7 := p6.rest;
    var p8 := p7.rest;
    assert p8 == TailFrom2DDF;
    assert PlanLength(p7) == 1861 && PlanSum(p7) == 1787;
    assert PlanLength(p6) == 1876 && PlanSum(p6) == 1787;
    assert PlanLength(p5) == 1877 && PlanSum(p5) == 2042;
    assert PlanLength(p4) == 1892 && PlanSum(p4) == 2042;
    assert PlanLength(p3) == 1893 && PlanSum(p3) == 2297;
    assert PlanLength(p2) == 1908 && PlanSum(p2) == 2297;
    assert PlanLength(p1) == 1909 && PlanSum(p1) == 2552;
    assert PlanLength(p0) == 1924 && PlanSum(p0) == 2552;
  }

  /** The writes from offset 0x2DDF on put out 1860 bytes adding up to 1532. */
  lemma TailFrom2DDFFacts()
    ensures PlanLength(TailFrom2DDF) == 1860
    ensures PlanSum(TailFrom2DDF) == 1532
  {
    TailFrom2E1FFacts();
    var p0 := TailFrom2DDF;
    var p1 := p0.rest;
    var p2 := p1.rest;
    var p3 := p2.rest;
    var p4 := p3.rest;
    var p5 := p4.rest;
    var p6 := p5.rest;
    var p7 := p6.rest;
    var p8 := p7.rest;
    assert p8 == TailFrom2E1F;
    assert PlanLength(p7) == 1797 && PlanSum(p7) == 767;
    assert PlanLength(p6) == 1812 && PlanSum(p6) == 767;
    assert PlanLength(p5) == 1813 && PlanSum(p5) == 1022;
    assert PlanLength(p4) == 1828 && PlanSum(p4) == 1022;
    assert PlanLength(p3) == 1829 && PlanSum(p3) == 1277;
    assert PlanLength(p2) == 1844 && PlanSum(p2) == 1277;
    assert PlanLength(p1) == 1845 && PlanSum(p1) == 1532;
    assert PlanLength(p0) == 1860 && PlanSum(p0) == 1532;
  }

  /** The writes from offset 0x2E1F on put out 1796 bytes adding up to 512. */
  lemma TailFrom2E1FFacts()
    ensures PlanLength(TailFrom2E1F) == 1796
    ensures PlanSum(TailFrom2E1F) == 512
  {
    Block2E39Sum();
    var p0 := TailFrom2E1F;
    var p1 := p0.rest;
    var p2 := p1.rest;
    var p3 := p2.rest;
    var p4 := p3.rest;
    var p5 := p4.rest;
    var p6 := p5.rest;
    var p7 := p6.rest;
    assert p7 == Done;
    assert PlanLength(p6) == 1121 && PlanSum(p6) == 0;
    assert PlanLength(p5) == 1122 && PlanSum(p5) == 255;
    assert PlanLength(p4) == 1525 && PlanSum(p4) == 255;
    assert PlanLength(p3) == 1526 && PlanSum(p3) == 510;
    assert PlanLength(p2) == 1768 && PlanSum(p2) == 510;
    assert PlanLength(p1) == 1770 && PlanSum(p1) == 512;
    assert PlanLength(p0) == 1796 && PlanSum(p0) == 512;
  }

  /** The constant tail of the middle region is 3874 bytes, so the checksum lands at 0x3523, and its
      bytes add up to 11527. */
  lemma MiddleTailFacts()
    ensures |MiddleTail()| == ChecksumOffset - (RivalNameOffset + RivalNameSpace)
    ensures ByteSum(MiddleTail()) == 11527
  {
    TailFrom2601Facts();
    ExpandFacts(TailFrom2601);
  }

  /** The gap between the player name and the money is 80 bytes adding up to 255. */
  lemma NameGapFacts()
    ensures |NameGap()| == MoneyOffset - (PlayerNameOffset + PlayerNameSpace)
    ensures ByteSum(NameGap()) == 0xFF
  {
    ExpandFacts(GapPlan);
    assert PlanLength(GapPlan.rest.rest) == 40 && PlanSum(GapPlan.rest.rest) == 0;
    assert PlanLength(GapPlan.rest) == 41 && PlanSum(GapPlan.rest) == 0xFF;
  }
}
