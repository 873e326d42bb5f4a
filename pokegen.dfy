/** The save-file generator of internal/pokegen/gen.go: `writeStart`, `writeMiddle`, `writeEnd`
    and `Gen`, each writing through a buffer exactly the bytes the Layout module describes. */
module Pokegen {
  import opened Wrappers
  import opened Bytes
  import opened Checksum
  import opened Util
  import opened Runs
  import opened Layout

  /** The source's `for i := 0; i < count; i++ { w.Write([]byte{b}) }` on a plain writer. */
  method WriteRepeated(w: Buffer, count: nat, b: byte)
    modifies w
    ensures w.data == old(w.data) + Fill(count, b)
  {
    for i := 0 to count
      invariant w.data == old(w.data) + Fill(i, b)
    {
      w.Write([b]);
      FillSnoc(i, b);
    }
  }

  /** The same loop through the checksum writer: every byte is also added to the running sum. */
  method WriteRepeatedChecked(csw: ChecksumWriter, count: nat, b: byte)
    requires csw.Valid()
    modifies csw, csw.w
    ensures csw.Valid()
    ensures csw.written == old(csw.written) + Fill(count, b)
  {
    for i := 0 to count
      invariant csw.Valid()
      invariant csw.written == old(csw.written) + Fill(i, b)
    {
      csw.Write([b]);
      FillSnoc(i, b);
    }
  }

  /** `writeStart` (gen.go:34-127): the bytes before the checksummed region, the same for every file,
      written as the 10 writes of `HeaderPlan`. */
  method WriteStart(w: Buffer)
    modifies w
    ensures w.data == old(w.data) + HeaderRegion()
  {
    // What the writes still owe, on the way to `target`.
    ghost var target := w.data + Expand(HeaderPlan);
    ghost var rest := HeaderPlan;
    Advance(rest, target, w.data);
    WriteRepeated(w, 132, 0x00);                // 0x0000, gen.go:35
    rest := rest.rest;
    Advance(rest, target, w.data);
    w.Write(Tiles0084);                         // 0x0084, gen.go:42
    rest := rest.rest;
    Advance(rest, target, w.data);
    WriteRepeated(w, 33, 0x00);                 // 0x009B, gen.go:52
    rest := rest.rest;
    Advance(rest, target, w.data);
    w.Write(Tiles00BC);                         // 0x00BC, gen.go:59
    rest := rest.rest;
    Advance(rest, target, w.data);
    WriteRepeated(w, 445, 0x00);                // 0x00D3, gen.go:70
    rest := rest.rest;
    Advance(rest, target, w.data);
    w.Write(Tiles0290);                         // 0x0290, gen.go:77
    rest := rest.rest;
    Advance(rest, target, w.data);
    WriteRepeated(w, 66, 0x00);                 // 0x02BE, gen.go:91
    rest := rest.rest;
    Advance(rest, target, w.data);
    w.Write(Tiles0300);                         // 0x0300, gen.go:98
    rest := rest.rest;
    Advance(rest, target, w.data);
    WriteRepeated(w, 362, 0x00);                // 0x032E, gen.go:112
    rest := rest.rest;
    Advance(rest, target, w.data);
    WriteRepeated(w, 8448, 0xFF);               // 0x0498, gen.go:119
    rest := rest.rest;
    assert rest == Done;
  }

  /** The three loops of `writeMiddle` between the player name and the money (gen.go:158-177): the
      bytes of `NameGap`, through the checksum writer. */
  method WriteNameGap(csw: ChecksumWriter)
    requires csw.Valid()
    modifies csw, csw.w
    ensures csw.Valid()
    ensures csw.written == old(csw.written) + NameGap()
  {
    ghost var target := csw.written + Expand(GapPlan);
    ghost var rest := GapPlan;
    Advance(rest, target, csw.written);
    WriteRepeatedChecked(csw, 39, 0x00);        // 0x25A3, gen.go:158
    rest := rest.rest;
    Advance(rest, target, csw.written);
    WriteRepeatedChecked(csw, 1, 0xFF);         // 0x25CA, gen.go:165
    rest := rest.rest;
    Advance(rest, target, csw.written);
    WriteRepeatedChecked(csw, 40, 0x00);        // 0x25CB, gen.go:172
    rest := rest.rest;
    assert rest == Done;
  }

  /** The 58 writes of `writeMiddle` after the rival name (gen.go:191-610): the bytes of
      `MiddleTail`, through the checksum writer. */
  method WriteTail(csw: ChecksumWriter)
    requires csw.Valid()
    modifies csw, csw.w
    ensures csw.Valid()
    ensures csw.written == old(csw.written) + MiddleTail()
  {
    WriteTailFrom2601(csw);                     // gen.go:191-250
    WriteTailFrom27D0(csw);                     // gen.go:257-337
    WriteTailFrom2CF2(csw);                     // gen.go:344-393
    WriteTailFrom2D5F(csw);                     // gen.go:400-449
    WriteTailFrom2D9F(csw);                     // gen.go:456-505
    WriteTailFrom2DDF(csw);                     // gen.go:512-561
    WriteTailFrom2E1F(csw);                     // gen.go:568-610
  }

  /** The 8 writes of `writeMiddle` from offset 0x2601 on (gen.go:191-250), through the
      checksum writer; after them the writes from offset 0x27D0 on are still owed. */
  method WriteTailFrom2601(csw: ChecksumWriter)
    requires csw.Valid()
    modifies csw, csw.w
    ensures csw.Valid()
    ensures old(csw.written) + Expand(TailFrom2601) == csw.written + Expand(TailFrom27D0)
  {
    ghost var target := csw.written + Expand(TailFrom2601);
    ghost var rest := TailFrom2601;
    Advance(rest, target, csw.written);
    csw.Write(Block2601);                       // 0x2601, gen.go:191
    rest := rest.rest;
    Advance(rest, target, csw.written);
    csw.Write(PlayerId);                        // 0x2605, gen.go:199
    rest := rest.rest;
    Advance(rest, target, csw.written);
    csw.Write(Block2607);                       // 0x2607, gen.go:204
    rest := rest.rest;
    Advance(rest, target, csw.written);
    WriteRepeatedChecked(csw, 20, 0x00);        // 0x2640, gen.go:220
    rest := rest.rest;
    Advance(rest, target, csw.written);
    csw.Write(Block2654);                       // 0x2654, gen.go:227
    rest := rest.rest;
    Advance(rest, target, csw.written);
    WriteRepeatedChecked(csw, 123, 0x00);       // 0x2660, gen.go:236
    rest := rest.rest;
    Advance(rest, target, csw.written);
    WriteRepeatedChecked(csw, 1, 0xFF);         // 0x26DB, gen.go:243
    rest := rest.rest;
    Advance(rest, target, csw.written);
    WriteRepeatedChecked(csw, 244, 0x00);       // 0x26DC, gen.go:250
    rest := rest.rest;
    assert rest == TailFrom27D0;
  }

  /** The 11 writes of `writeMiddle` from offset 0x27D0 on (gen.go:257-337), through the
      checksum writer; after them the writes from offset 0x2CF2 on are still owed. */
  method WriteTailFrom27D0(csw: ChecksumWriter)
    requires csw.Valid()
    modifies csw, csw.w
    ensures csw.Valid()
    ensures old(csw.written) + Expand(TailFrom27D0) == csw.written + Expand(TailFrom2CF2)
  {
    ghost var target := csw.written + Expand(TailFrom27D0);
    ghost var rest := TailFrom27D0;
    Advance(rest, target, csw.written);
    csw.Write(Block27D0);                       // 0x27D0, gen.go:257
    rest := rest.rest;
    Advance(rest, target, csw.written);
    WriteRepeatedChecked(csw, 102, 0x00);       // 0x27EC, gen.go:267
    rest := rest.rest;
    Advance(rest, target, csw.written);
    csw.Write(Block2852);                       // 0x2852, gen.go:274
    rest := rest.rest;
    Advance(rest, target, csw.written);
    WriteRepeatedChecked(csw, 60, 0x00);        // 0x287C, gen.go:285
    rest := rest.rest;
    Advance(rest, target, csw.written);
    WriteRepeatedChecked(csw, 1, 0x01);         // 0x28B8, gen.go:292
    rest := rest.rest;
    Advance(rest, target, csw.written);
    WriteRepeatedChecked(csw, 270, 0x00);       // 0x28B9, gen.go:299
    rest := rest.rest;
    Advance(rest, target, csw.written);
    WriteRepeatedChecked(csw, 1, 0xFF);         // 0x29C7, gen.go:306
    rest := rest.rest;
    Advance(rest, target, csw.written);
    WriteRepeatedChecked(csw, 22, 0x00);        // 0x29C8, gen.go:313
    rest := rest.rest;
    Advance(rest, target, csw.written);
    WriteRepeatedChecked(csw, 1, 0x01);         // 0x29DE, gen.go:320
    rest := rest.rest;
    Advance(rest, target, csw.written);
    WriteRepeatedChecked(csw, 785, 0x00);       // 0x29DF, gen.go:327
    rest := rest.rest;
    Advance(rest, target, csw.written);
    csw.Write(PlayTime);                        // 0x2CF0, gen.go:337
    rest := rest.rest;
    assert rest == TailFrom2CF2;
  }

  /** The 8 writes of `writeMiddle` from offset 0x2CF2 on (gen.go:344-393), through the
      checksum writer; after them the writes from offset 0x2D5F on are still owed. */
  method WriteTailFrom2CF2(csw: ChecksumWriter)
    requires csw.Valid()
    modifies csw, csw.w
    ensures csw.Valid()
    ensures old(csw.written) + Expand(TailFrom2CF2) == csw.written + Expand(TailFrom2D5F)
  {
    ghost var target := csw.written + Expand(TailFrom2CF2);
    ghost var rest := TailFrom2CF2;
    Advance(rest, target, csw.written);
    WriteRepeatedChecked(csw, 58, 0x00);        // 0x2CF2, gen.go:344
    rest := rest.rest;
    Advance(rest, target, csw.written);
    csw.Write(Block2D2C);                       // 0x2D2C, gen.go:351
    rest := rest.rest;
    Advance(rest, target, csw.written);
    WriteRepeatedChecked(csw, 6, 0x00);         // 0x2D38, gen.go:358
    rest := rest.rest;
    Advance(rest, target, csw.written);
    WriteRepeatedChecked(csw, 1, 0xFF);         // 0x2D3E, gen.go:365
    rest := rest.rest;
    Advance(rest, target, csw.written);
    WriteRepeatedChecked(csw, 15, 0x00);        // 0x2D3F, gen.go:372
    rest := rest.rest;
    Advance(rest, target, csw.written);
    WriteRepeatedChecked(csw, 1, 0xFF);         // 0x2D4E, gen.go:379
    rest := rest.rest;
    Advance(rest, target, csw.written);
    WriteRepeatedChecked(csw, 15, 0x00);        // 0x2D4F, gen.go:386
    rest := rest.rest;
    Advance(rest, target, csw.written);
    WriteRepeatedChecked(csw, 1, 0xFF);         // 0x2D5E, gen.go:393
    rest := rest.rest;
    assert rest == TailFrom2D5F;
  }

  /** The 8 writes of `writeMiddle` from offset 0x2D5F on (gen.go:400-449), through the
      checksum writer; after them the writes from offset 0x2D9F on are still owed. */
  method WriteTailFrom2D5F(csw: ChecksumWriter)
    requires csw.Valid()
    modifies csw, csw.w
    ensures csw.Valid()
    ensures old(csw.written) + Expand(TailFrom2D5F) == csw.written + Expand(TailFrom2D9F)
  {
    ghost var target := csw.written + Expand(TailFrom2D5F);
    ghost var rest := TailFrom2D5F;
    Advance(rest, target, csw.written);
    WriteRepeatedChecked(csw, 15, 0x00);        // 0x2D5F, gen.go:400
    rest := rest.rest;
    Advance(rest, target, csw.written);
    WriteRepeatedChecked(csw, 1, 0xFF);         // 0x2D6E, gen.go:407
    rest := rest.rest;
    Advance(rest, target, csw.written);
    WriteRepeatedChecked(csw, 15, 0x00);        // 0x2D6F, gen.go:414
    rest := rest.rest;
    Advance(rest, target, csw.written);
    WriteRepeatedChecked(csw, 1, 0xFF);         // 0x2D7E, gen.go:421
    rest := rest.rest;
    Advance(rest, target, csw.written);
    WriteRepeatedChecked(csw, 15, 0x00);        // 0x2D7F, gen.go:428
    rest := rest.rest;
    Advance(rest, target, csw.written);
    WriteRepeatedChecked(csw, 1, 0xFF);         // 0x2D8E, gen.go:435
    rest := rest.rest;
    Advance(rest, target, csw.written);
    WriteRepeatedChecked(csw, 15, 0x00);        // 0x2D8F, gen.go:442
    rest := rest.rest;
    Advance(rest, target, csw.written);
    WriteRepeatedChecked(csw, 1, 0xFF);         // 0x2D9E, gen.go:449
    rest := rest.rest;
    assert rest == TailFrom2D9F;
  }

  /** The 8 writes of `writeMiddle` from offset 0x2D9F on (gen.go:456-505), through the
      checksum writer; after them the writes from offset 0x2DDF on are still owed. */
  method WriteTailFrom2D9F(csw: ChecksumWriter)
    requires csw.Valid()
    modifies csw, csw.w
    ensures csw.Valid()
    ensures old(csw.written) + Expand(TailFrom2D9F) == csw.written + Expand(TailFrom2DDF)
  {
    ghost var target := csw.written + Expand(TailFrom2D9F);
    ghost var rest := TailFrom2D9F;
    Advance(rest, target, csw.written);
    WriteRepeatedChecked(csw, 15, 0x00);        // 0x2D9F, gen.go:456
    rest := rest.rest;
    Advance(rest, target, csw.written);
    WriteRepeatedChecked(csw, 1, 0xFF);         // 0x2DAE, gen.go:463
    rest := rest.rest;
    Advance(rest, target, csw.written);
    WriteRepeatedChecked(csw, 15, 0x00);        // 0x2DAF, gen.go:470
    rest := rest.rest;
    Advance(rest, target, csw.written);
    WriteRepeatedChecked(csw, 1, 0xFF);         // 0x2DBE, gen.go:477
    rest := rest.rest;
    Advance(rest, target, csw.written);
    WriteRepeatedChecked(csw, 15, 0x00);        // 0x2DBF, gen.go:484
    rest := rest.rest;
    Advance(rest, target, csw.written);
    WriteRepeatedChecked(csw, 1, 0xFF);         // 0x2DCE, gen.go:491
    rest := rest.rest;
    Advance(rest, target, csw.written);
    WriteRepeatedChecked(csw, 15, 0x00);        // 0x2DCF, gen.go:498
    rest := rest.rest;
    Advance(rest, target, csw.written);
    WriteRepeatedChecked(csw, 1, 0xFF);         // 0x2DDE, gen.go:505
    rest := rest.rest;
    assert rest == TailFrom2DDF;
  }

  /** The 8 writes of `writeMiddle` from offset 0x2DDF on (gen.go:512-561), through the
      checksum writer; after them the writes from offset 0x2E1F on are still owed. */
  method WriteTailFrom2DDF(csw: ChecksumWriter)
    requires csw.Valid()
    modifies csw, csw.w
    ensures csw.Valid()
    ensures old(csw.written) + Expand(TailFrom2DDF) == csw.written + Expand(TailFrom2E1F)
  {
    ghost var target := csw.written + Expand(TailFrom2DDF);
    ghost var rest := TailFrom2DDF;
    Advance(rest, target, csw.written);
    WriteRepeatedChecked(csw, 15, 0x00);        // 0x2DDF, gen.go:512
    rest := rest.rest;
    Advance(rest, target, csw.written);
    WriteRepeatedChecked(csw, 1, 0xFF);         // 0x2DEE, gen.go:519
    rest := rest.rest;
    Advance(rest, target, csw.written);
    WriteRepeatedChecked(csw, 15, 0x00);        // 0x2DEF, gen.go:526
    rest := rest.rest;
    Advance(rest, target, csw.written);
    WriteRepeatedChecked(csw, 1, 0xFF);         // 0x2DFE, gen.go:533
    rest := rest.rest;
    Advance(rest, target, csw.written);
    WriteRepeatedChecked(csw, 15, 0x00);        // 0x2DFF, gen.go:540
    rest := rest.rest;
    Advance(rest, target, csw.written);
    WriteRepeatedChecked(csw, 1, 0xFF);         // 0x2E0E, gen.go:547
    rest := rest.rest;
    Advance(rest, target, csw.written);
    WriteRepeatedChecked(csw, 15, 0x00);        // 0x2E0F, gen.go:554
    rest := rest.rest;
    Advance(rest, target, csw.written);
    WriteRepeatedChecked(csw, 1, 0xFF);         // 0x2E1E, gen.go:561
    rest := rest.rest;
    assert rest == TailFrom2E1F;
  }

  /** The 7 writes of `writeMiddle` from offset 0x2E1F on (gen.go:568-610), through the
      checksum writer; after them the tail is complete. */
  method WriteTailFrom2E1F(csw: ChecksumWriter)
    requires csw.Valid()
    modifies csw, csw.w
    ensures csw.Valid()
    ensures old(csw.written) + Expand(TailFrom2E1F) == csw.written
  {
    ghost var target := csw.written + Expand(TailFrom2E1F);
    ghost var rest := TailFrom2E1F;
    Advance(rest, target, csw.written);
    WriteRepeatedChecked(csw, 26, 0x00);        // 0x2E1F, gen.go:568
    rest := rest.rest;
    Advance(rest, target, csw.written);
    csw.Write(Block2E39);                       // 0x2E39, gen.go:575
    rest := rest.rest;
    Advance(rest, target, csw.written);
    WriteRepeatedChecked(csw, 242, 0x00);       // 0x2E3B, gen.go:582
    rest := rest.rest;
    Advance(rest, target, csw.written);
    WriteRepeatedChecked(csw, 1, 0xFF);         // 0x2F2D, gen.go:589
    rest := rest.rest;
    Advance(rest, target, csw.written);
    WriteRepeatedChecked(csw, 403, 0x00);       // 0x2F2E, gen.go:596
    rest := rest.rest;
    Advance(rest, target, csw.written);
    WriteRepeatedChecked(csw, 1, 0xFF);         // 0x30C1, gen.go:603
    rest := rest.rest;
    Advance(rest, target, csw.written);
    WriteRepeatedChecked(csw, 1121, 0x00);      // 0x30C2, gen.go:610
    rest := rest.rest;
    assert rest == Done;
  }

  /** The first part of `writeMiddle` (gen.go:152-189): the player name, the gap, the money and the
      rival name, through the checksum writer. A name that does not fit in its 11 bytes, or holds a
      character outside the character set, stops the writing with that error. */
  method WriteFields(csw: ChecksumWriter, playerName: string, rivalName: string, money: nat) returns (result: Outcome<TextError>)
    requires money <= MaxMoney
    requires csw.Valid()
    modifies csw, csw.w
    ensures csw.Valid()
    ensures match MiddleFields(playerName, rivalName, money)
            case Success(fields) => result == Pass && csw.written == old(csw.written) + fields
            case Failure(e) =>
              result == Fail(e) && csw.written == old(csw.written) + FieldsWrittenBeforeError(playerName, rivalName, money)
  {
    ghost var start := csw.written;
    result := WriteText(csw, playerName, PlayerNameSpace);   // gen.go:153
    if result.Fail? {
      return;
    }
    ghost var playerField := EncodeText(playerName, PlayerNameSpace).value;
    WriteNameGap(csw);                               // gen.go:158-177
    AppendAssoc(start, playerField, NameGap());
    ghost var moneyField := BinaryCodedDecimal(money, MoneySpace);
    WriteBinaryCodedDecimal(csw, money, MoneySpace); // gen.go:180
    AppendAssoc(start, playerField + NameGap(), moneyField);
    result := WriteText(csw, rivalName, RivalNameSpace);     // gen.go:186
    if result.Fail? {
      return;
    }
    ghost var rivalField := EncodeText(rivalName, RivalNameSpace).value;
    AppendAssoc(start, playerField + NameGap() + moneyField, rivalField);
  }

  /** `writeMiddle` (gen.go:145-623): the fields, then the constant tail, all through one checksum
      writer over `w`, then the checksum byte. On an error, what was written before it stays in `w`. */
  method WriteMiddle(w: Buffer, playerName: string, rivalName: string, money: nat) returns (result: Outcome<TextError>)
    requires money <= MaxMoney
    modifies w
    ensures match MiddleRegion(playerName, rivalName, money)
            case Success(region) => result == Pass && w.data == old(w.data) + region
            case Failure(e) =>
              result == Fail(e) && w.data == old(w.data) + FieldsWrittenBeforeError(playerName, rivalName, money)
  {
    var csw := new ChecksumWriter(w);
    assert csw.base == old(w.data);
    result := WriteFields(csw, playerName, rivalName, money);  // gen.go:152-189
    if result.Fail? {
      PrefixOfAppend(old(w.data), csw.written);
      return;
    }
    ghost var fields := csw.written;
    assert MiddleFields(playerName, rivalName, money).Success?;
    assert MiddleFields(playerName, rivalName, money).value == fields;
    WriteTail(csw);                                  // gen.go:191-615
    ghost var body := csw.written;
    assert body == fields + MiddleTail();
    csw.WriteChecksum();                             // gen.go:617
    AppendAssoc(old(w.data), body, [Complement(SumMod256(body))]);
    assert w.data == old(w.data) + Checksummed(body);
  }

  /** `writeEnd` (gen.go:625-634): the bytes after the checksum, the same for every file. */
  method WriteEnd(w: Buffer)
    modifies w
    ensures w.data == old(w.data) + TrailerRegion()
  {
    WriteRepeated(w, 19164, 0xFF);                   // gen.go:626
  }

  /** `Gen` (gen.go:10-32): the three regions written to three fresh buffers and joined, or the
      middle region's error. */
  method Gen(playerName: string, rivalName: string, money: nat) returns (r: Result<seq<byte>, TextError>)
    requires money <= MaxMoney
    ensures r == SaveFile(playerName, rivalName, money)
  {
    var bank0 := new Buffer();
    WriteStart(bank0);
    assert bank0.data == HeaderRegion();
    var bank1 := new Buffer();
    var status := WriteMiddle(bank1, playerName, rivalName, money);
    if status.Fail? {
      return Failure(status.error);
    }
    assert bank1.data == MiddleRegion(playerName, rivalName, money).value;
    var bankn := new Buffer();
    WriteEnd(bankn);
    assert bankn.data == TrailerRegion();
    AppendAssoc(bank0.data, bank1.data, bankn.data);
    return Success(bank0.data + (bank1.data + bankn.data));
  }
}
