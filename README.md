# pokegen save-file encoder, in Dafny

This project models the encoder that builds a Pokémon Red (Gen 1, US) save file from a player
name, a rival name and an amount of money, and it proves what the file looks like.

`Gen` writes three regions into three byte buffers and joins them:

- the constant header `writeStart`, 9624 bytes;
- the checksummed middle region `writeMiddle`, 3980 bytes;
- the constant trailer `writeEnd`, 19164 bytes of 0xFF.

Every byte of the middle region passes through `checksumWriter`. This accumulator forwards each
byte and adds it, modulo 256, to an 8-bit `sum`. At the end it appends `^sum`, the one's
complement. The middle region holds three fields between long constant runs:

- the player name, 11 bytes at 0x2598;
- the money, 3 bytes of packed BCD at 0x25F3;
- the rival name, 11 bytes at 0x25F6.

The checksum byte sits at 0x3523. `WriteText` encodes a name: one character-table byte per rune,
then the 0x50 terminator, then 0x00 padding up to the reserved width. It checks the width before it
writes anything. `WriteBinaryCodedDecimal` writes the money as two decimal digits per byte.

The files:

- `bytes.dfy`: the byte type, runs of equal bytes, and `Buffer`, the model of `bytes.Buffer`.
- `checksum.dfy`: byte sums, wrapping addition and complement, and the `ChecksumWriter` class.
- `util.dfy`: the character table and `WriteText`, plus BCD and `WriteBinaryCodedDecimal`.
- `runs.dfy`: `Plan`, a list of constant writes (a literal slice, or one byte repeated).
- `layout.dfy`: the writes of each constant region as a `Plan`. It also has the region functions
  `HeaderRegion`, `MiddleRegion`, `TrailerRegion` and `SaveFile`, and their lengths and byte sums.
- `pokegen.dfy`: `WriteStart`, `WriteMiddle`, `WriteEnd` and `Gen`, as methods on buffers. Each is
  proved to write exactly its region function. `writeMiddle` is one long Go function; here it is
  split into helper methods that follow its source order, one per stretch of writes.
- `savefile.dfy`: whole-file properties. These cover the layout, the checksum, which offsets depend
  on the input, when generation fails, reading the fields back, and the integration test's vector.

Go's `uint64` money is a `nat`, its `byte` a `newtype` of 0..255, and a string a sequence of
Unicode scalar values. Wrap-around of `csw.sum += b` is written out as `AddWrapping`.

Money is bounded by the BCD field. internal/util/util.go:75-83 has no overflow check: it passes the
value to the external gobcd library. So the model has no `ValueTooLarge` error path and takes
`money <= 999999` as a precondition.

## Model

| member | source | states |
|---|---|---|
| Bytes.Buffer.Write | internal/pokegen/gen.go:11-29 | a `bytes.Buffer` write appends its bytes and never fails |
| Checksum.ChecksumWriter.constructor | internal/pokegen/gen.go:148-150 | a fresh checksum writer has sum 0, has written nothing, and wraps the given buffer |
| Checksum.ChecksumWriter.Write | internal/pokegen/gen.go:134-139 | the bytes reach the wrapped buffer unchanged; `sum` becomes the 8-bit wrapping sum of everything written through the accumulator |
| Checksum.ChecksumWriter.WriteChecksum | internal/pokegen/gen.go:141-143 | appends exactly one byte, the complement of the 8-bit sum of everything written so far; it may modify only the buffer, so `sum` and `written` stay unchanged (value receiver) |
| Checksum.AddWrapping | internal/pokegen/gen.go:136 | `csw.sum += b` on Go bytes: the sum of the two bytes modulo 256 |
| Checksum.SumMod256 | internal/pokegen/gen.go:134-137 | the value of `csw.sum` after the given bytes were fed to it from 0: their plain sum modulo 256 (one byte at a time, by `SumMod256Snoc`) |
| Checksum.SumMod256Snoc | internal/pokegen/gen.go:135-137 | adding one byte to the accumulator is one wrapping addition on the running 8-bit sum |
| Checksum.SumMod256Append | internal/pokegen/gen.go:134-139 | the 8-bit sum of two writes combines their 8-bit sums by wrapping addition |
| Checksum.ChecksumCompletes | internal/pokegen/gen.go:141-143 | a region followed by its checksum byte sums to 0xFF modulo 256 |
| Checksum.SingleByteChangeDetected | internal/pokegen/gen.go:134-143 | changing any one byte of the region changes its 8-bit sum, and so the checksum |
| Checksum.Complement | internal/pokegen/gen.go:142 | the byte written for `^csw.sum`; it and its argument add up to 0xFF, the form the checksum proofs use |
| Checksum.ComplementIsBitwiseNot | internal/pokegen/gen.go:142 | `Complement` is Go's `^`: for every 8-bit value, it gives the value with every bit flipped |
| Util.WriteText | internal/util/util.go:16-73 | when `EncodeText` succeeds, writes exactly its field and passes; when it fails, returns its error. Writes nothing when the text does not fit. On an unsupported rune, exactly the bytes of the runes before it have been written |
| Util.CharConverter | internal/util/util.go:25-45 | the character table: the 66 runes of the Gen 1 US character set and their bytes; every other rune has no byte |
| Util.EncodeText | internal/util/util.go:16-73 | what `WriteText` writes on success, or its error: the room check first, then the first unsupported rune, otherwise the codes, 0x50 and padding (its properties are in `EncodeTextFailure` and `EncodeTextShape`) |
| Util.WrittenBeforeError | internal/util/util.go:17-51 | what `WriteText` has written when it returns an error: nothing when the text does not fit, else the bytes of the runes before the first unsupported one |
| Util.EncodeTextFailure | internal/util/util.go:17-51 | encoding fails exactly when `runes + 1 > reservedSpace` or a rune is missing from the table. Lack of room is reported whenever it holds; otherwise the error names a missing rune whose prefix is encodable |
| Util.EncodeTextShape | internal/util/util.go:23-70 | a successful field is exactly `reservedSpace` bytes: each rune's table byte, never 0x50 or 0x00, then 0x50, then 0x00 padding |
| Util.NameFieldBoundary | internal/util/util.go:17-21 | an encodable text fits exactly when it has fewer runes than the field; a text one rune shorter than the field fills it with no padding |
| Util.EncodedFieldSum | internal/util/util.go:59-70 | padding adds nothing to a field's byte sum |
| Util.UnsupportedIndex | internal/util/util.go:47-51 | the position it returns holds a rune outside the table, and every rune before it is in the table |
| Util.UnsupportedIndexAt | internal/util/util.go:47-51 | a missing rune whose prefix is encodable is the first missing rune |
| Util.CharConverterRange | internal/util/util.go:25-45 | every table byte lies in 0x80..0xF5, never the terminator or padding |
| Util.DecodeCharInverts | internal/util/util.go:25-45 | `DecodeChar` inverts the character table, in both directions |
| Util.CharConverterInjective | internal/util/util.go:25-45 | no two runes share a byte |
| Util.TextRoundTrip | internal/util/util.go:16-73 | decoding the bytes before the first 0x50 of any successful field gives the text back |
| Util.DecodeEncoded | internal/util/util.go:47-61 | an encodable text's bytes, then 0x50, then anything, decode to the text |
| Util.EncodeTextExamples | internal/util/util_test.go:17-48 | "RED" in 4 and 6 bytes, "" in 1 byte as `[0x50]`, and "♂♀" as one byte per rune |
| Util.EncodeTextErrorExamples | internal/util/util_test.go:31-41 | "RED" in 2 bytes and "" in 0 bytes lack room; "Ash@" names '@'; eleven '@' in 11 bytes reports room before the rune |
| Util.WriteBinaryCodedDecimal | internal/util/util.go:75-83 | writes the `width`-byte BCD of the value in one write |
| Util.BinaryCodedDecimal | internal/util/util.go:76 | the encoding has exactly the reserved width |
| Util.PackDigits | internal/util/util.go:76 | the tens digit goes in the high nibble and the units digit in the low nibble |
| Util.BcdNibblesAreDigits | internal/util/util.go:76 | every nibble of the encoding is a decimal digit |
| Util.BcdRoundTrip | internal/util/util.go:75-77 | reading the digits back gives the value |
| Util.BcdExample | internal/util/util_test.go:60-65 | 3000 in 3 bytes is `00 30 00` |
| Util.BcdMaximum | internal/util/util.go:75-77 | 999999 in 3 bytes is `99 99 99`, the largest the money field holds |
| Util.BcdZero | internal/util/util.go:75-77 | zero is all zero bytes at any width |
| Runs.ExpandFacts | internal/pokegen/gen.go:34-127 | counting the writes of a plan one by one agrees with the length and byte sum of the bytes it puts out |
| Runs.Advance | internal/pokegen/gen.go:34-127 | the bookkeeping step the write methods take before each write of a plan: one application of `AppendAssoc`, so that after the write the rest of the plan is still owed |
| Layout.HeaderLength | internal/pokegen/gen.go:34-127 | the header is 9624 = 0x2598 bytes, so the player name starts at 0x2598 |
| Layout.NameGapFacts | internal/pokegen/gen.go:158-177 | the gap after the player name is 80 bytes summing to 0xFF, so the money starts at 0x25F3 |
| Layout.MiddleTailFacts | internal/pokegen/gen.go:191-615 | the constant tail after the rival name is 3874 bytes summing to 11527, so the checksum lands at 0x3523 |
| Layout.HeaderRegion | internal/pokegen/gen.go:34-127 | the bytes `writeStart` writes: its 10 writes, in order |
| Layout.NameGap | internal/pokegen/gen.go:158-177 | the bytes of the three writes after the player name: 39 × 0x00, 0xFF, 40 × 0x00 |
| Layout.MiddleTail | internal/pokegen/gen.go:191-615 | the bytes of the 58 writes after the rival name, in order |
| Layout.Checksummed | internal/pokegen/gen.go:617 | a body followed by the complement of its 8-bit sum, the byte `WriteChecksum` appends |
| Layout.MiddleFields | internal/pokegen/gen.go:152-189 | what the first part of `writeMiddle` writes: player name, gap, money and rival name, or the first name's error |
| Layout.FieldsWrittenBeforeError | internal/pokegen/gen.go:152-189 | what the first part of `writeMiddle` has written when a name fails: what `WriteText` left of the player name, or the player name, gap, money and what it left of the rival name |
| Layout.MiddleRegion | internal/pokegen/gen.go:145-623 | the bytes `writeMiddle` writes on success: the fields and the constant tail, then the complement of their 8-bit sum; or the fields' error |
| Layout.TrailerRegion | internal/pokegen/gen.go:625-634 | the bytes `writeEnd` writes: 19164 × 0xFF |
| Layout.SaveFile | internal/pokegen/gen.go:10-32 | what `Gen` returns: header, middle region and trailer joined, or the middle region's error |
| Pokegen.WriteRepeated | internal/pokegen/gen.go:35-40 | the one-byte loop on the plain writer: appends `count` copies of the byte |
| Pokegen.WriteRepeatedChecked | internal/pokegen/gen.go:158-163 | the same loop through the checksum writer: `count` copies of the byte are written and summed |
| Pokegen.WriteStart | internal/pokegen/gen.go:34-127 | appends exactly `HeaderRegion()`, whatever the input |
| Pokegen.WriteNameGap | internal/pokegen/gen.go:158-177 | writes 39 × 0x00, 0xFF, 40 × 0x00 through the checksum writer |
| Pokegen.WriteTail | internal/pokegen/gen.go:191-615 | writes exactly `MiddleTail()` through the checksum writer |
| Pokegen.WriteFields | internal/pokegen/gen.go:152-189 | writes player name, gap, money and rival name, or stops with the first name's error after writing exactly `FieldsWrittenBeforeError` |
| Pokegen.WriteMiddle | internal/pokegen/gen.go:145-623 | on success appends exactly `MiddleRegion(...)`: fields, constant tail, then the complement of their 8-bit sum. On failure returns the encoder's error, and `w` holds exactly `FieldsWrittenBeforeError` more |
| Pokegen.WriteEnd | internal/pokegen/gen.go:625-634 | appends 19164 bytes of 0xFF |
| Pokegen.Gen | internal/pokegen/gen.go:10-32 | returns exactly `SaveFile(...)`: the three regions joined in order, or the middle region's error and no bytes at all |
| SaveFileFacts.SaveFileFailure | internal/pokegen/gen.go:145-189 | generation fails exactly when a name cannot be encoded; the player name's error takes priority |
| SaveFileFacts.MiddleRegionParts | internal/pokegen/gen.go:145-623 | a successful middle region is the checksummed body followed by the complement of its 8-bit sum |
| SaveFileFacts.RegionLengths | internal/pokegen/gen.go:10-32 | the header, middle and trailer are 9624, 3980 and 19164 bytes, 32768 together |
| SaveFileFacts.SaveFileLayout | internal/pokegen/gen.go:10-32 | a successful file is 32768 bytes. Header below 0x2598; player name at 0x2598; 39 × 0x00, 0xFF, 40 × 0x00; money at 0x25F3; rival name at 0x25F6; constant tail; checksum at 0x3523 over 0x2598..0x3522; 0xFF trailer |
| SaveFileFacts.NameGapContents | internal/pokegen/gen.go:158-177 | the gap is 39 × 0x00, 0xFF, 40 × 0x00 |
| SaveFileFacts.SaveFileChecksum | internal/pokegen/gen.go:141-143 | the bytes 0x2598..0x3523, checksum included, sum to 0xFF modulo 256 |
| SaveFileFacts.SaveFileTrailer | internal/pokegen/gen.go:625-634 | every byte from 0x3524 to the end is 0xFF |
| SaveFileFacts.OnlyFieldsDependOnInput | internal/pokegen/gen.go:145-634 | two successful files agree at every offset outside the name fields, the money field and the checksum |
| SaveFileFacts.FieldsReadBack | internal/pokegen/gen.go:152-189 | decoding the two name fields and the money field of a file gives the inputs back |
| SaveFileFacts.IntegrationPlayerField | integration_test.go:68-93 | "Red", "Gary" and 3000 (or any names encoded like them) give a 32768-byte file with `91 A4 A3 50 00…` at 0x2598 |
| SaveFileFacts.IntegrationRivalField | integration_test.go:95-102 | the same inputs give `86 A0 B1 B8 50 00…` at 0x25F6 |
| SaveFileFacts.ChecksumByte | internal/pokegen/gen.go:617 | the checksum byte is the complement of the 8-bit sum of the fields and the constant tail |
| SaveFileFacts.ChecksumFromFieldSums | internal/pokegen/gen.go:145-617 | the checksum byte is 0xFF − (a + b + c + 11782) mod 256, where a, b and c are the byte sums of the three fields |
| SaveFileFacts.IntegrationChecksum | integration_test.go:104-106 | the same inputs give checksum byte 0xC2 at 0x3523 |
| SaveFileFacts.ChecksumOfFieldSums | integration_test.go:104-106 | any inputs whose fields sum to 552, 48 and 735 give checksum byte 0xC2 |
| SaveFileFacts.RedSum | integration_test.go:88-91 | the "Red" field sums to 552 |
| SaveFileFacts.GarySum | integration_test.go:97-100 | the "Gary" field sums to 735 |
| SaveFileFacts.MoneySum | internal/util/util_test.go:60-65 | the money field for 3000 sums to 48 |
| SaveFileFacts.RedField | integration_test.go:88-91 | "Red" encodes to `91 A4 A3 50` then seven 0x00 |
| SaveFileFacts.GaryField | integration_test.go:97-100 | "Gary" encodes to `86 A0 B1 B8 50` then six 0x00 |

## Left out

- The HTTP service in main.go is not part of this model. This covers routing, JSON decoding, the
  health endpoint and the default money of 3000. main.go:56 also calls `Gen` with four arguments,
  which does not match internal/pokegen/gen.go:10.
- gen_test.go at the repository root targets an older two-argument `Gen` and compares with `.sav`
  fixture files that are not available. internal/pokegen/gen_test.go compares with fixture files
  too. Neither is modelled.
- The Docker and HTTP harness of integration_test.go is not modelled; only its offsets and expected
  bytes are.
- Write errors: every writer here is a `bytes.Buffer`, whose `Write` never fails. So `Buffer.Write`
  returns nothing, and the `err != nil` branches after each write are not modelled. The tests
  internal/util/util_test.go:50-58 and 67-75 use a failing writer and are left out for the same
  reason.
- Error messages: the `fmt.Errorf` wrapping and text ("start: ", "middle: ", "failed to write null
  byte: ", the quoted rune) is not modelled. `TextError` keeps only the information in it: the text
  and width, or the rune.
- Util.WriteText: the source takes any `io.Writer`, and its unit tests pass a plain `bytes.Buffer`. The
  model takes the `ChecksumWriter` that every call in `writeMiddle` passes. The unit-test vectors are
  stated on `EncodeText`, what the method writes.
- Util.WriteBinaryCodedDecimal: gobcd's `FromUint` is an external library. It is specified by the
  packing rule, two decimal digits per byte and the most significant pair first. The values of the
  money field are bounded by `money <= 999999` (`requires value < Pow100(width)`). The source checks
  nothing here, and the library's behaviour for wider values is not visible.
- Pokegen.Gen: its precondition `money <= 999999` comes from the same gobcd bound. Gen itself
  accepts any `uint64`.
- `utf8.RuneCount` and `range` over a string containing invalid UTF-8 are not modelled. Text is a
  sequence of Unicode scalar values, so the rune count is the sequence length.
- The meaning of the constant tables (sprite tiles, player ID, play time and so on) is not modelled;
  only their bytes, order and lengths are.
- `Pokegen.WriteTailFrom2601` … `WriteTailFrom2E1F` are not operations of the source. They split
  `writeMiddle`'s long run of writes into stretches so that each can be checked on its own. The
  `Plan` constants in layout.dfy list the same writes as data, and they are what the methods are
  proved against.
- `Pokegen.WriteRepeated` and `WriteRepeatedChecked` are the source's loop that writes one byte
  `n` times, one byte per `Write` call. The model writes that loop once instead of at every use.
  `writeStart` (gen.go:35-124) and `writeEnd` (gen.go:626-631) use it on the plain writer, and
  `writeMiddle` uses it on the checksum writer.
- Bytes.Buffer: `bytes.Buffer` growth and capacity are not modelled. `Gen`'s `append` on
  `bank0.Bytes()`, which may share the buffer's storage, is modelled as plain concatenation of
  values.
