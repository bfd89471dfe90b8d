/** The PPU's "loopy" VRAM address register (`VRamAddress.java`): a Java
    `short` laid out as `yyy NN YYYYY XXXXX`, fine Y scroll in bits 14..12,
    the nametable select in bits 11..10, coarse Y in bits 9..5 and coarse X in
    bits 4..0. The fine-Y mask also covers bit 15, which no getter reads. The
    register is kept as its 16-bit pattern; every `short` cast of the code is
    a 16-bit truncation, which `bv16` arithmetic performs by itself. */
module VRam {

  const TilesPerRow: bv16 := 32
  const NameTableStart: bv16 := 0x2000
  const AttrTableStart: bv16 := 0x23C0

  const FineYMask: bv16 := 0xF000
  const NameTableMask: bv16 := 0x0C00
  const HorizontalNameTable: bv16 := 0x0400
  const VerticalNameTable: bv16 := 0x0800
  const TileYMask: bv16 := 0x03E0
  const TileXMask: bv16 := 0x001F
  const TilePlane2: bv16 := 0x08

  /** The bits `setX` copies, and the bits `setY` copies. */
  const XBits: bv16 := HorizontalNameTable | TileXMask
  const YBits: bv16 := VerticalNameTable | FineYMask | TileYMask

  datatype VRamAddress = VRamAddress(value: bv16)

  /** `getTileX`: coarse X, the tile column. */
  function TileX(v: VRamAddress): (r: bv16)
    ensures r < 32
  {
    v.value & TileXMask
  }

  /** `getTileY`: coarse Y, the tile row. */
  function TileY(v: VRamAddress): (r: bv16)
    ensures r < 32
  {
    ((v.value & TileYMask) >> 5) & 0x1F
  }

  /** `getFineY`: the pixel row within the tile. */
  function FineY(v: VRamAddress): (r: bv16)
    ensures r < 8
  {
    ((v.value & FineYMask) >> 12) & 0x07
  }

  /** The three getters and the nametable bits account for every bit but
      bit 15: the value is its fields put back in place. */
  lemma FieldsMakeValue(v: VRamAddress)
    ensures v.value == (v.value & 0x8000) | (FineY(v) << 12) | (v.value & NameTableMask) | (TileY(v) << 5) | TileX(v)
  {
  }

  /** And fields put in place read back through the getters. */
  lemma GettersReadFields(spare: bool, fineY: bv16, nameTable: bv16, tileY: bv16, tileX: bv16)
    requires fineY < 8 && nameTable < 4 && tileY < 32 && tileX < 32
    ensures var v := VRamAddress((if spare then 0x8000 else 0) | (fineY << 12) | (nameTable << 10) | (tileY << 5) | tileX);
            && FineY(v) == fineY
            && (v.value & NameTableMask) >> 10 == nameTable
            && TileY(v) == tileY
            && TileX(v) == tileX
  {
  }

  /** `setX`: copy the horizontal nametable bit and coarse X from `that`;
      every other bit stays. */
  function SetX(v: VRamAddress, that: VRamAddress): (r: VRamAddress)
    ensures r.value & XBits == that.value & XBits
    ensures r.value & !XBits == v.value & !XBits
  {
    VRamAddress((v.value & !XBits) | (that.value & XBits))
  }

  /** `setY`: copy the vertical nametable bit, the four fine-Y mask bits and
      coarse Y from `that`; every other bit stays. */
  function SetY(v: VRamAddress, that: VRamAddress): (r: VRamAddress)
    ensures r.value & YBits == that.value & YBits
    ensures r.value & !YBits == v.value & !YBits
  {
    VRamAddress((v.value & !YBits) | (that.value & YBits))
  }

  /** Copying the X part and then the Y part of `that` leaves exactly `that`:
      the two masks cover all sixteen bits. */
  lemma SetXThenSetYCopies(v: VRamAddress, that: VRamAddress)
    ensures SetY(SetX(v, that), that) == that
  {
    assert XBits | YBits == 0xFFFF;
  }

  /** The two copies touch disjoint bits, so their order does not matter. */
  lemma SetXSetYCommute(v: VRamAddress, t: VRamAddress, u: VRamAddress)
    ensures SetY(SetX(v, t), u) == SetX(SetY(v, u), t)
  {
  }

  /** Copying the same X part twice is copying it once. */
  lemma SetXIdempotent(v: VRamAddress, t: VRamAddress)
    ensures SetX(SetX(v, t), t) == SetX(v, t)
  {
  }

  /** `getNameTableAddress`: the nametable byte of the current tile, always
      within 0x2000..0x2FFF. */
  function NameTableAddress(v: VRamAddress): (r: bv16)
    ensures NameTableStart <= r <= 0x2FFF
    ensures r & 0x0FFF == v.value & 0x0FFF
  {
    NameTableStart | (v.value & (NameTableMask | TileYMask | TileXMask))
  }

  /** The nametable byte is the tile's entry: 0x400 bytes per nametable, a row
      of 32 bytes per coarse Y, one byte per coarse X. */
  lemma NameTableEntry(v: VRamAddress)
    ensures NameTableAddress(v) == NameTableStart + ((v.value & NameTableMask) >> 10) * 0x400 + TileY(v) * TilesPerRow + TileX(v)
  {
  }

  /** `incrementX`: the next tile column; past column 31 the column returns
      to 0 and the horizontal nametable flips. No other bit changes. */
  function IncrementX(v: VRamAddress): (r: VRamAddress)
    ensures TileX(v) == TilesPerRow - 1 ==> TileX(r) == 0 && r.value & HorizontalNameTable != v.value & HorizontalNameTable
    ensures TileX(v) != TilesPerRow - 1 ==> TileX(r) == TileX(v) + 1 && r.value & HorizontalNameTable == v.value & HorizontalNameTable
    ensures r.value & !XBits == v.value & !XBits
  {
    if TileX(v) == TilesPerRow - 1 then
      VRamAddress((v.value & !TileXMask) ^ HorizontalNameTable)
    else
      VRamAddress(v.value + 1)
  }

  /** `incrementY`: the next pixel row. Clearing the four-bit fine-Y mask also
      clears bit 15. Below fine Y 7 only fine Y moves; at 7 it returns to 0
      and coarse Y moves on: row 29 (the last of the 30 visible rows) goes to
      row 0 of the other vertical nametable, row 31 goes to row 0 of the same
      one, any other row goes to the next. Coarse X and the horizontal
      nametable bit never change. */
  function IncrementY(v: VRamAddress): (r: VRamAddress)
    ensures r.value & 0x8000 == 0
    ensures FineY(v) != 7 ==> FineY(r) == FineY(v) + 1 && r.value & 0x0FFF == v.value & 0x0FFF
    ensures FineY(v) == 7 ==> FineY(r) == 0 && r.value & XBits == v.value & XBits
  {
    var fine := FineY(v);
    if fine != 7 then
      VRamAddress((v.value & !FineYMask) | (((fine + 1) << 12) & FineYMask))
    else
      var cleared := v.value & !FineYMask;
      var row := TileY(VRamAddress(cleared));
      if row == 29 then
        VRamAddress((cleared & !TileYMask) ^ VerticalNameTable)
      else if row == 31 then
        VRamAddress(cleared & !TileYMask)
      else
        VRamAddress((cleared & !TileYMask) | (((row + 1) << 5) & TileYMask))
  }

  /** The coarse-Y step of `incrementY`, taken when fine Y wraps from 7. */
  lemma IncrementYNextRow(v: VRamAddress)
    requires FineY(v) == 7
    ensures var r := IncrementY(v);
            && (TileY(v) == 29 ==> TileY(r) == 0 && r.value & VerticalNameTable != v.value & VerticalNameTable)
            && (TileY(v) == 31 ==> TileY(r) == 0 && r.value & VerticalNameTable == v.value & VerticalNameTable)
            && (TileY(v) != 29 && TileY(v) != 31 ==>
                  TileY(r) == TileY(v) + 1 && r.value & VerticalNameTable == v.value & VerticalNameTable)
  {
  }

  /** `getAttrTableAddress`: the attribute byte covering the current tile,
      in the same nametable: one byte per 4x4 block of tiles, eight blocks per
      row, after the 960 tile bytes. */
  function AttrTableAddress(v: VRamAddress): (r: bv16)
    ensures r & !(NameTableMask | 0x003F) == AttrTableStart
    ensures r & NameTableMask == v.value & NameTableMask
    ensures r & 0x003F == ((TileY(v) >> 2) << 3) | (TileX(v) >> 2)
  {
    var y := (TileY(v) >> 2) & 0x07;
    var x := (TileX(v) >> 2) & 0x07;
    AttrTableStart | (v.value & NameTableMask) | ((y << 3) & 0x38) | x
  }

  /** The attribute byte sits in the same nametable as the tile's own byte,
      past the 30 rows of tile bytes, at block row coarse Y / 4 and block
      column coarse X / 4. */
  lemma AttributeOfTile(v: VRamAddress)
    ensures AttrTableAddress(v) == (NameTableAddress(v) & 0xFC00) + 0x03C0 + (TileY(v) / 4) * 8 + TileX(v) / 4
    ensures TileY(v) < 30 ==> NameTableAddress(v) < (NameTableAddress(v) & 0xFC00) + 0x03C0
  {
  }

  /** `getBackgroundPalette`: the two attribute bits of the tile's 2x2
      quadrant, picked by bit 1 of coarse Y (bottom half) and bit 1 of coarse
      X (right half). */
  function BackgroundPalette(v: VRamAddress, attribute: bv8): (r: bv8)
    ensures r <= 3
    ensures TileY(v) & 2 == 0 && TileX(v) & 2 == 0 ==> r == attribute & 0x03
    ensures TileY(v) & 2 == 0 && TileX(v) & 2 != 0 ==> r == (attribute & 0x0C) >> 2
    ensures TileY(v) & 2 != 0 && TileX(v) & 2 == 0 ==> r == (attribute & 0x30) >> 4
    ensures TileY(v) & 2 != 0 && TileX(v) & 2 != 0 ==> r == attribute >> 6
  {
    var y := (TileY(v) >> 1) & 0x01;
    var x := (TileX(v) >> 1) & 0x01;
    var shift := (y << 2) | (x << 1);
    (attribute >> shift as bv8) & 0x03
  }

  /** `getTileAddress`: the start of a tile's 16 bytes in the pattern table
      at `tableStart`. */
  function TileAddress(tableStart: bv16, entry: bv8): bv16
  {
    tableStart | ((entry as bv16 << 4) & 0x0FF0)
  }

  /** Each tile takes sixteen bytes: in a 0x1000-aligned table the tile
      starts 16 * entry bytes in, and the entry never reaches the low four
      bits or the table's own top nibble. */
  lemma TileAddressIsTileStart(tableStart: bv16, entry: bv8)
    ensures TileAddress(tableStart, entry) & 0xF00F == tableStart & 0xF00F
    ensures TileAddress(tableStart, entry) & 0x0FF0 == (tableStart & 0x0FF0) | (entry as bv16 << 4)
    ensures tableStart & 0x0FFF == 0 ==> TileAddress(tableStart, entry) == tableStart + entry as bv16 * 16
  {
  }

  /** `getTileAddressPlane1`: the low bit plane of the tile's current pixel
      row. In a pattern table aligned on 0x1000 it is tableStart + 16 *
      entry + fine Y. */
  function TileAddressPlane1(v: VRamAddress, tableStart: bv16, entry: bv8): (r: bv16)
    ensures r & 0x0FF0 == (tableStart & 0x0FF0) | (entry as bv16 << 4)
    ensures tableStart & 0x0FFF == 0 ==> r == tableStart + entry as bv16 * 16 + FineY(v)
  {
    TileAddress(tableStart, entry) | FineY(v)
  }

  /** `getTileAddressPlane2`: the high bit plane, eight bytes after the low
      one in an aligned pattern table. */
  function TileAddressPlane2(v: VRamAddress, tableStart: bv16, entry: bv8): (r: bv16)
    ensures r == TileAddressPlane1(v, tableStart, entry) | TilePlane2
    ensures tableStart & 0x0FFF == 0 ==> r == TileAddressPlane1(v, tableStart, entry) + 8
  {
    TileAddress(tableStart, entry) | TilePlane2 | FineY(v)
  }

  /** Fine Y reaches only the low three bits of a tile address: two
      addresses that differ in nothing else name the same tile. */
  lemma FineYPicksRowOnly(v: VRamAddress, w: VRamAddress, tableStart: bv16, entry: bv8)
    requires tableStart & 0x0007 == 0
    ensures TileAddressPlane1(v, tableStart, entry) & !0x0007 == TileAddressPlane1(w, tableStart, entry) & !0x0007
    ensures TileAddressPlane1(v, tableStart, entry) & 0x0007 == FineY(v)
  {
  }

  /** `n` calls of `incrementX`. */
  function IncrementXTimes(v: VRamAddress, n: bv16): VRamAddress
    decreases n
  {
    if n == 0 then v else IncrementX(IncrementXTimes(v, n - 1))
  }

  /** The address `n <= 32` tile columns to the right of `v`: the column
      moves on modulo 32 and the horizontal nametable flips when the column
      passes 31; nothing else differs. */
  function ColumnsRight(v: VRamAddress, n: bv16): (r: VRamAddress)
    requires n <= TilesPerRow
    ensures r.value & !XBits == v.value & !XBits
    ensures TileX(r) == (TileX(v) + n) & 0x1F
    ensures r.value & HorizontalNameTable == v.value & HorizontalNameTable <==> TileX(v) + n < TilesPerRow
  {
    var column := TileX(v) + n;
    var flip := if column < TilesPerRow then 0 else HorizontalNameTable;
    VRamAddress((v.value & !XBits) | ((v.value & HorizontalNameTable) ^ flip) | (column & TileXMask))
  }

  /** One `incrementX` moves one column further. */
  lemma IncrementXStep(v: VRamAddress, n: bv16)
    requires n < TilesPerRow
    ensures IncrementX(ColumnsRight(v, n)) == ColumnsRight(v, n + 1)
  {
  }

  /** `incrementX` called `n <= 32` times moves `n` columns right. */
  lemma {:induction false} IncrementXSteps(v: VRamAddress, n: bv16)
    requires n <= TilesPerRow
    ensures IncrementXTimes(v, n) == ColumnsRight(v, n)
    decreases n
  {
    if n > 0 {
      IncrementXSteps(v, n - 1);
      IncrementXStep(v, n - 1);
    }
  }

  /** Thirty-two column steps cross exactly one nametable edge: the address
      comes back to its column with the horizontal nametable flipped. */
  lemma IncrementXCrossesOneScreen(v: VRamAddress)
    ensures IncrementXTimes(v, TilesPerRow) == VRamAddress(v.value ^ HorizontalNameTable)
  {
    IncrementXSteps(v, TilesPerRow);
  }

  /** `n` calls of `incrementY`. */
  function IncrementYTimes(v: VRamAddress, n: bv16): VRamAddress
    decreases n
  {
    if n == 0 then v else IncrementY(IncrementYTimes(v, n - 1))
  }

  /** The address `n` pixel rows below `v` within its tile row, for a step
      that keeps fine Y at most 7: fine Y grows by `n`, the low twelve bits
      stay and bit 15 is clear. */
  function FineRowsDown(v: VRamAddress, n: bv16): (r: VRamAddress)
    requires 0 < n <= 7 - FineY(v)
    ensures FineY(r) == FineY(v) + n
    ensures r.value & 0x0FFF == v.value & 0x0FFF
    ensures r.value & 0x8000 == 0
  {
    VRamAddress((v.value & 0x0FFF) | ((FineY(v) + n) << 12))
  }

  /** Below fine Y 7, one `incrementY` moves one pixel row down. */
  lemma IncrementYFirstStep(v: VRamAddress)
    requires FineY(v) < 7
    ensures IncrementY(v) == FineRowsDown(v, 1)
  {
  }

  /** One `incrementY` inside a tile row moves one pixel row further. */
  lemma IncrementYStep(v: VRamAddress, n: bv16)
    requires 0 < n < 7 - FineY(v)
    ensures IncrementY(FineRowsDown(v, n)) == FineRowsDown(v, n + 1)
  {
  }

  /** `incrementY` called `n` times inside a tile row moves `n` pixel rows
      down. */
  lemma {:induction false} IncrementYSteps(v: VRamAddress, n: bv16)
    requires 0 < n <= 7 - FineY(v)
    ensures IncrementYTimes(v, n) == FineRowsDown(v, n)
    decreases n
  {
    if n == 1 {
      IncrementYFirstStep(v);
    } else {
      IncrementYSteps(v, n - 1);
      IncrementYStep(v, n - 1);
    }
  }

  /** Eight pixel rows make one tile row: from fine Y 0 on a row before the
      last visible one, eight steps land on fine Y 0 of the next row in the
      same nametable and column. */
  lemma EightRowsMakeATile(v: VRamAddress)
    requires FineY(v) == 0 && TileY(v) < 29
    ensures var r := IncrementYTimes(v, 8);
            && FineY(r) == 0
            && TileY(r) == TileY(v) + 1
            && r.value & (NameTableMask | TileXMask) == v.value & (NameTableMask | TileXMask)
  {
    IncrementYSteps(v, 7);
    IncrementYNextRow(FineRowsDown(v, 7));
  }
}
