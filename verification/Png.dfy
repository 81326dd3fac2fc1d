/**
 The PNG writer: raw rows with a filter byte each, compressed and framed in chunks with a length and a
 checksum (RFC 2083, sections 2.3 and 3.2).  Compression and checksum are parameters.
 */
module Png {
  import opened Wrappers
  import opened Sequences

  const TWO_31: nat := 0x8000_0000
  const TWO_32: nat := 0x1_0000_0000

  datatype Colour = Colour(red: Byte, green: Byte, blue: Byte)

  /** `struct.pack` refuses a number that has no four-byte form. */
  datatype PackError = OutOfRange(value: nat)

  // ---------------------------------------------------------------- numbers of four bytes

  function Pack16(n: nat): (s: seq<Byte>)
    requires n < 0x1_0000
    ensures |s| == 2
  {
    [n / 0x100, n % 0x100]
  }

  function Unpack16(s: seq<Byte>): nat
    requires |s| == 2
  {
    s[0] as int * 0x100 + s[1] as int
  }

  /** `struct.pack(">I", n)`. */
  function Pack32(n: nat): (s: seq<Byte>)
    requires n < TWO_32
    ensures |s| == 4
  {
    Pack16(n / 0x1_0000) + Pack16(n % 0x1_0000)
  }

  function Unpack32(s: seq<Byte>): nat
    requires |s| == 4
  {
    Unpack16(s[..2]) * 0x1_0000 + Unpack16(s[2..])
  }

  lemma PackReadsBack(n: nat)
    requires n < TWO_32
    ensures Unpack32(Pack32(n)) == n
  {
    var high, low := n / 0x1_0000, n % 0x1_0000;
    assert Pack32(n)[..2] == Pack16(high) && Pack32(n)[2..] == Pack16(low);
  }

  // ---------------------------------------------------------------- rows

  function ColourBytes(c: Colour): seq<Byte> {
    [c.red, c.green, c.blue]
  }

  /** The pixels of row `y` from column `x` on. */
  function PixelsFrom(colorAt: (int, int) -> Colour, x: nat, y: nat, width: nat): seq<Byte>
    requires x <= width
    decreases width - x
  {
    if x == width then [] else ColourBytes(colorAt(x, y)) + PixelsFrom(colorAt, x + 1, y, width)
  }

  /** The rows from row `y` on. */
  function RowsFrom(colorAt: (int, int) -> Colour, y: nat, width: nat, height: nat): seq<Byte>
    requires y <= height
    decreases height - y
  {
    if y == height then [] else ([0] + PixelsFrom(colorAt, 0, y, width)) + RowsFrom(colorAt, y + 1, width, height)
  }

  method RawRows(width: nat, height: nat, colorAt: (int, int) -> Colour) returns (raw: seq<Byte>)
    ensures raw == RowsFrom(colorAt, 0, width, height)
  {
    ghost var whole := RowsFrom(colorAt, 0, width, height);
    raw := [];
    for y := 0 to height
      invariant raw + RowsFrom(colorAt, y, width, height) == whole
    {
      ghost var rest := RowsFrom(colorAt, y + 1, width, height);
      Shift(raw, [0], PixelsFrom(colorAt, 0, y, width), rest);
      raw := raw + [0];
      for x := 0 to width
        invariant raw + (PixelsFrom(colorAt, x, y, width) + rest) == whole
      {
        Shift(raw, ColourBytes(colorAt(x, y)), PixelsFrom(colorAt, x + 1, y, width), rest);
        raw := raw + ColourBytes(colorAt(x, y));
      }
      assert [] + rest == rest;
    }
  }

  // ---------------------------------------------------------------- where a pixel is

  lemma {:induction false} PixelsLayout(colorAt: (int, int) -> Colour, x: nat, y: nat, width: nat, at: nat)
    requires x <= width
    ensures |PixelsFrom(colorAt, x, y, width)| == 3 * (width - x)
    ensures x <= at < width ==>
              var k := 3 * (at - x);
              PixelsFrom(colorAt, x, y, width)[k..k + 3] == ColourBytes(colorAt(at, y))
    decreases width - x
  {
    if x < width {
      PixelsLayout(colorAt, x + 1, y, width, at);
      var first, rest := ColourBytes(colorAt(x, y)), PixelsFrom(colorAt, x + 1, y, width);
      if x < at < width {
        var k := 3 * (at - x);
        assert (first + rest)[k..k + 3] == rest[k - 3..k];
      }
    }
  }

  function RowSize(width: nat): nat {
    1 + 3 * width
  }

  lemma RowStart(width: nat, y: nat)
    requires y > 0
    ensures y * RowSize(width) == RowSize(width) + (y - 1) * RowSize(width)
  {
  }

  /** A row starts at `base` with a zero filter byte, and its pixel in column `x` is `c`. */
  predicate PixelAt(raw: seq<Byte>, base: nat, x: nat, c: Colour) {
    && base + 4 + 3 * x <= |raw|
    && raw[base] == 0
    && raw[base + 1 + 3 * x..base + 4 + 3 * x] == ColourBytes(c)
  }

  lemma PixelInRest(row: seq<Byte>, rest: seq<Byte>, base: nat, x: nat, c: Colour)
    requires PixelAt(rest, base, x, c)
    ensures PixelAt(row + rest, |row| + base, x, c)
  {
    var from := base + 1 + 3 * x;
    assert (row + rest)[|row| + from..|row| + from + 3] == rest[from..from + 3];
  }

  lemma PixelInFirst(row: seq<Byte>, rest: seq<Byte>, x: nat, c: Colour)
    requires PixelAt(row, 0, x, c)
    ensures PixelAt(row + rest, 0, x, c)
  {
    assert (row + rest)[1 + 3 * x..4 + 3 * x] == row[1 + 3 * x..4 + 3 * x];
  }

  lemma {:induction false} RowsSize(colorAt: (int, int) -> Colour, y: nat, width: nat, height: nat)
    requires y <= height
    ensures |RowsFrom(colorAt, y, width, height)| == (height - y) * RowSize(width)
    decreases height - y
  {
    if y < height {
      PixelsLayout(colorAt, 0, y, width, 0);
      RowsSize(colorAt, y + 1, width, height);
      RowStart(width, height - y);
    }
  }

  /** In the first row: the filter byte, then the pixels. */
  lemma FirstRow(colorAt: (int, int) -> Colour, x: nat, y: nat, width: nat)
    requires x < width
    ensures var row := [0] + PixelsFrom(colorAt, 0, y, width);
            |row| == RowSize(width) && PixelAt(row, 0, x, colorAt(x, y))
  {
    var pixels := PixelsFrom(colorAt, 0, y, width);
    PixelsLayout(colorAt, 0, y, width, x);
    assert ([0] + pixels)[1 + 3 * x..4 + 3 * x] == pixels[3 * x..3 * x + 3];
  }

  /** Pixel (`x`, `at`) in the rows from `y` on. */
  lemma {:induction false} RowsLayout(colorAt: (int, int) -> Colour, x: nat, y: nat, width: nat, height: nat, at: nat)
    requires y <= at < height && x < width
    ensures (at - y) * RowSize(width) >= 0
    ensures PixelAt(RowsFrom(colorAt, y, width, height), (at - y) * RowSize(width), x, colorAt(x, at))
    decreases height - y
  {
    var row, rest := [0] + PixelsFrom(colorAt, 0, y, width), RowsFrom(colorAt, y + 1, width, height);
    FirstRow(colorAt, x, y, width);
    if at == y {
      PixelInFirst(row, rest, x, colorAt(x, at));
    } else {
      RowStart(width, at - y);
      RowsLayout(colorAt, x, y + 1, width, height, at);
      PixelInRest(row, rest, (at - (y + 1)) * RowSize(width), x, colorAt(x, at));
    }
  }

  /**
   The layout of the raw rows: `height * (1 + 3 * width)` bytes, a zero filter byte at the start of every
   row, and the three bytes of pixel (`x`, `y`) at `y * (1 + 3 * width) + 1 + 3 * x`.
   */
  lemma RawLayout(colorAt: (int, int) -> Colour, width: nat, height: nat, x: nat, y: nat)
    requires x < width && y < height
    ensures var raw := RowsFrom(colorAt, 0, width, height);
            && |raw| == height * (1 + 3 * width)
            && PixelAt(raw, y * (1 + 3 * width), x, colorAt(x, y))
  {
    RowsSize(colorAt, 0, width, height);
    RowsLayout(colorAt, x, 0, width, height, y);
  }

  // ---------------------------------------------------------------- chunks

  datatype Block = Block(kind: seq<Byte>, data: seq<Byte>)

  /** The checksum as it is written: its last 32 bits. */
  function Checksum(crc: seq<Byte> -> int, b: Block): (c: nat)
    ensures c < TWO_32
  {
    crc(b.kind + b.data) % TWO_32
  }

  function Frame(crc: seq<Byte> -> int, b: Block): seq<Byte>
    requires |b.data| < TWO_32
  {
    Pack32(|b.data|) + (b.kind + (b.data + Pack32(Checksum(crc, b))))
  }

  function Frames(crc: seq<Byte> -> int, blocks: seq<Block>): seq<Byte>
    requires forall k :: 0 <= k < |blocks| ==> |blocks[k].data| < TWO_32
  {
    if blocks == [] then [] else Frame(crc, blocks[0]) + Frames(crc, blocks[1..])
  }

  /** `chunk`: the length field refuses data of four gigabytes or more. */
  method WriteChunk(crc: seq<Byte> -> int, kind: seq<Byte>, data: seq<Byte>) returns (r: Result<seq<Byte>, PackError>)
    ensures r.Ok? <==> |data| < TWO_32
    ensures r.Ok? ==> r.value == Frame(crc, Block(kind, data))
  {
    if |data| >= TWO_32 {
      return Err(OutOfRange(|data|));
    }
    return Ok(Pack32(|data|) + (kind + (data + Pack32(crc(kind + data) % TWO_32))));
  }

  /** One chunk from the front of `s`, if its length field stays below 2^31 and its checksum is right. */
  function ReadChunk(crc: seq<Byte> -> int, s: seq<Byte>): (r: Option<(Block, seq<Byte>)>)
    ensures r.Some? ==> |r.value.1| < |s|
  {
    if |s| < 8 then None
    else
      var n, afterLength := Unpack32(s[..4]), s[4..];
      var kind, afterKind := afterLength[..4], afterLength[4..];
      if n >= TWO_31 || |afterKind| < n + 4 then None
      else
        var data, afterData := afterKind[..n], afterKind[n..];
        if Unpack32(afterData[..4]) != Checksum(crc, Block(kind, data)) then None
        else Some((Block(kind, data), afterData[4..]))
  }

  /** A reader that goes by the length fields and checks every checksum. */
  function ReadChunks(crc: seq<Byte> -> int, s: seq<Byte>): Option<seq<Block>>
    decreases |s|
  {
    if s == [] then Some([])
    else
      var first := ReadChunk(crc, s);
      if first.None? then None
      else
        var more := ReadChunks(crc, first.value.1);
        if more.None? then None else Some([first.value.0] + more.value)
  }

  lemma Regroup(a: seq<Byte>, b: seq<Byte>, c: seq<Byte>, d: seq<Byte>, rest: seq<Byte>)
    ensures (a + (b + (c + d))) + rest == a + (b + (c + (d + rest)))
  {
    Associate(a, b + (c + d), rest);
    Associate(b, c + d, rest);
    Associate(c, d, rest);
  }

  lemma ChunkReadsBack(crc: seq<Byte> -> int, b: Block, rest: seq<Byte>)
    requires |b.kind| == 4 && |b.data| < TWO_32
    ensures ReadChunk(crc, Frame(crc, b) + rest) == if |b.data| < TWO_31 then Some((b, rest)) else None
  {
    var length, sum := Pack32(|b.data|), Pack32(Checksum(crc, b));
    Regroup(length, b.kind, b.data, sum, rest);
    Split(length, b.kind + (b.data + (sum + rest)));
    Split(b.kind, b.data + (sum + rest));
    Split(b.data, sum + rest);
    Split(sum, rest);
    PackReadsBack(|b.data|);
    PackReadsBack(Checksum(crc, b));
  }

  lemma FirstThenMore(crc: seq<Byte> -> int, b: Block, rest: seq<Byte>)
    requires |b.kind| == 4 && |b.data| < TWO_32
    ensures ReadChunks(crc, Frame(crc, b) + rest)
            == if |b.data| < TWO_31 && ReadChunks(crc, rest).Some? then Some([b] + ReadChunks(crc, rest).value) else None
  {
    ChunkReadsBack(crc, b, rest);
  }

  /** No chunk exceeds what its length field may say. */
  predicate WithinLimit(blocks: seq<Block>) {
    forall k :: 0 <= k < |blocks| ==> |blocks[k].data| < TWO_31
  }

  lemma LimitOfRest(blocks: seq<Block>)
    requires blocks != []
    ensures WithinLimit(blocks) <==> |blocks[0].data| < TWO_31 && WithinLimit(blocks[1..])
  {
    if WithinLimit(blocks[1..]) && |blocks[0].data| < TWO_31 {
      forall k | 0 <= k < |blocks| ensures |blocks[k].data| < TWO_31 {
        if k > 0 {
          assert blocks[k] == blocks[1..][k - 1];
        }
      }
    }
  }

  /** The chunk reader recovers exactly the chunks written, if and only if all of them keep to the limit. */
  lemma {:induction false} ChunksReadBack(crc: seq<Byte> -> int, blocks: seq<Block>)
    requires forall k :: 0 <= k < |blocks| ==> |blocks[k].kind| == 4 && |blocks[k].data| < TWO_32
    ensures ReadChunks(crc, Frames(crc, blocks)) == if WithinLimit(blocks) then Some(blocks) else None
  {
    if blocks != [] {
      ChunksReadBack(crc, blocks[1..]);
      LimitOfRest(blocks);
      FirstThenMore(crc, blocks[0], Frames(crc, blocks[1..]));
      assert blocks == [blocks[0]] + blocks[1..];
    }
  }

  // ---------------------------------------------------------------- the whole image

  const SIGNATURE: seq<Byte> := [0x89, 0x50, 0x4E, 0x47, 0x0D, 0x0A, 0x1A, 0x0A]
  const IHDR: seq<Byte> := [0x49, 0x48, 0x44, 0x52]
  const IDAT: seq<Byte> := [0x49, 0x44, 0x41, 0x54]
  const IEND: seq<Byte> := [0x49, 0x45, 0x4E, 0x44]

  /** Eight bits a sample, colour type 2, and method 0 for compression, filter and interlace. */
  const DEPTH: seq<Byte> := [8, 2, 0, 0, 0]

  datatype Image = Image(width: nat, height: nat, rows: seq<seq<Colour>>)

  function ReadPixels(data: seq<Byte>): Option<seq<Colour>> {
    if data == [] then Some([])
    else if |data| < 3 then None
    else
      match ReadPixels(data[3..])
      case None => None
      case Some(more) => Some([Colour(data[0], data[1], data[2])] + more)
  }

  /** Rows whose filter byte is 0, and no byte after the last one. */
  function ReadRows(raw: seq<Byte>, width: nat, height: nat): Option<seq<seq<Colour>>>
    decreases height
  {
    if height == 0 then (if raw == [] then Some([]) else None)
    else if |raw| < RowSize(width) || raw[0] != 0 then None
    else
      match ReadPixels(raw[1..RowSize(width)])
      case None => None
      case Some(row) =>
        match ReadRows(raw[RowSize(width)..], width, height - 1)
        case None => None
        case Some(more) => Some([row] + more)
  }

  predicate Dimension(n: nat) {
    1 <= n < TWO_31
  }

  /** A reader of images with one data chunk. */
  function ReadPng(crc: seq<Byte> -> int, inflate: seq<Byte> -> Option<seq<Byte>>, file: seq<Byte>): Option<Image> {
    if !(SIGNATURE <= file) then None
    else
      match ReadChunks(crc, file[|SIGNATURE|..])
      case None => None
      case Some(blocks) => ReadBlocks(inflate, blocks)
  }

  function ReadBlocks(inflate: seq<Byte> -> Option<seq<Byte>>, blocks: seq<Block>): Option<Image> {
    if |blocks| != 3 || blocks[0].kind != IHDR || blocks[1].kind != IDAT || blocks[2] != Block(IEND, []) then None
    else if |blocks[0].data| != 13 || blocks[0].data[8..] != DEPTH then None
    else
      var width, height := Unpack32(blocks[0].data[..4]), Unpack32(blocks[0].data[4..8]);
      if !Dimension(width) || !Dimension(height) then None
      else
        match inflate(blocks[1].data)
        case None => None
        case Some(raw) =>
          match ReadRows(raw, width, height)
          case None => None
          case Some(rows) => Some(Image(width, height, rows))
  }

  function PictureRow(colorAt: (int, int) -> Colour, x: nat, y: nat, width: nat): (row: seq<Colour>)
    requires x <= width
    ensures |row| == width - x && forall k :: 0 <= k < |row| ==> row[k] == colorAt(x + k, y)
    decreases width - x
  {
    if x == width then [] else [colorAt(x, y)] + PictureRow(colorAt, x + 1, y, width)
  }

  /** The picture itself: row `y`, column `x` is `colorAt(x, y)`. */
  function Picture(colorAt: (int, int) -> Colour, y: nat, width: nat, height: nat): (rows: seq<seq<Colour>>)
    requires y <= height
    ensures |rows| == height - y
    ensures forall k :: 0 <= k < |rows| ==> |rows[k]| == width && forall x :: 0 <= x < width ==> rows[k][x] == colorAt(x, y + k)
    decreases height - y
  {
    if y == height then [] else [PictureRow(colorAt, 0, y, width)] + Picture(colorAt, y + 1, width, height)
  }

  lemma {:induction false} PixelsReadBack(colorAt: (int, int) -> Colour, x: nat, y: nat, width: nat)
    requires x <= width
    ensures ReadPixels(PixelsFrom(colorAt, x, y, width)) == Some(PictureRow(colorAt, x, y, width))
    decreases width - x
  {
    if x < width {
      PixelsReadBack(colorAt, x + 1, y, width);
      var c, more := colorAt(x, y), PixelsFrom(colorAt, x + 1, y, width);
      assert (ColourBytes(c) + more)[3..] == more;
    }
  }

  lemma {:induction false} RowsReadBack(colorAt: (int, int) -> Colour, y: nat, width: nat, height: nat)
    requires y <= height
    ensures ReadRows(RowsFrom(colorAt, y, width, height), width, height - y) == Some(Picture(colorAt, y, width, height))
    decreases height - y
  {
    if y < height {
      var pixels, rest := PixelsFrom(colorAt, 0, y, width), RowsFrom(colorAt, y + 1, width, height);
      PixelsLayout(colorAt, 0, y, width, 0);
      PixelsReadBack(colorAt, 0, y, width);
      RowsReadBack(colorAt, y + 1, width, height);
      var raw := ([0] + pixels) + rest;
      assert raw[1..RowSize(width)] == pixels && raw[RowSize(width)..] == rest;
    }
  }

  function Header(width: nat, height: nat): (s: seq<Byte>)
    requires width < TWO_32 && height < TWO_32
    ensures |s| == 13
  {
    Pack32(width) + Pack32(height) + DEPTH
  }

  function Blocks(width: nat, height: nat, compressed: seq<Byte>): seq<Block>
    requires width < TWO_32 && height < TWO_32
  {
    [Block(IHDR, Header(width, height)), Block(IDAT, compressed), Block(IEND, [])]
  }

  function File(crc: seq<Byte> -> int, width: nat, height: nat, compressed: seq<Byte>): seq<Byte>
    requires width < TWO_32 && height < TWO_32 && |compressed| < TWO_32
  {
    SIGNATURE + Frames(crc, Blocks(width, height, compressed))
  }

  /** `_demo_png_bytes` for any size and picture. */
  method PngBytes(width: nat, height: nat, colorAt: (int, int) -> Colour, crc: seq<Byte> -> int, compress: seq<Byte> -> seq<Byte>)
    returns (r: Result<seq<Byte>, PackError>)
    ensures var compressed := compress(RowsFrom(colorAt, 0, width, height));
            && (r.Ok? <==> width < TWO_32 && height < TWO_32 && |compressed| < TWO_32)
            && (r.Ok? ==> r.value == File(crc, width, height, compressed))
  {
    var raw := RawRows(width, height, colorAt);
    if width >= TWO_32 {
      return Err(OutOfRange(width));
    }
    if height >= TWO_32 {
      return Err(OutOfRange(height));
    }
    var header := WriteChunk(crc, IHDR, Pack32(width) + Pack32(height) + DEPTH);
    var data := WriteChunk(crc, IDAT, compress(raw));
    if data.Err? {
      return data;
    }
    var end := WriteChunk(crc, IEND, []);
    ThreeFrames(crc, Blocks(width, height, compress(raw)));
    return Ok(SIGNATURE + header.value + data.value + end.value);
  }

  lemma ThreeFrames(crc: seq<Byte> -> int, blocks: seq<Block>)
    requires |blocks| == 3 && forall k :: 0 <= k < 3 ==> |blocks[k].data| < TWO_32
    ensures Frames(crc, blocks) == Frame(crc, blocks[0]) + Frame(crc, blocks[1]) + Frame(crc, blocks[2])
    ensures SIGNATURE + Frames(crc, blocks)
            == SIGNATURE + Frame(crc, blocks[0]) + Frame(crc, blocks[1]) + Frame(crc, blocks[2])
  {
    var a, b, c := Frame(crc, blocks[0]), Frame(crc, blocks[1]), Frame(crc, blocks[2]);
    assert blocks[1..][1..] == [blocks[2]];
    assert Frames(crc, [blocks[2]]) == c + [] == c;
    Associate(a, b, c);
    Associate(SIGNATURE, a, b);
    Associate(SIGNATURE, a + b, c);
  }

  /**
   A reader of the written file gets the picture back, if and only if its size is one that the format
   allows and the compressed rows keep to the limit of a chunk.
   */
  lemma PngReadsBack(colorAt: (int, int) -> Colour, width: nat, height: nat, crc: seq<Byte> -> int,
                     compress: seq<Byte> -> seq<Byte>, inflate: seq<Byte> -> Option<seq<Byte>>)
    requires width < TWO_32 && height < TWO_32
    requires var raw := RowsFrom(colorAt, 0, width, height);
             |compress(raw)| < TWO_32 && inflate(compress(raw)) == Some(raw)
    ensures var compressed := compress(RowsFrom(colorAt, 0, width, height));
            ReadPng(crc, inflate, File(crc, width, height, compressed))
            == if Dimension(width) && Dimension(height) && |compressed| < TWO_31
               then Some(Image(width, height, Picture(colorAt, 0, width, height))) else None
  {
    var raw := RowsFrom(colorAt, 0, width, height);
    RowsReadBack(colorAt, 0, width, height);
    FileReadsBack(crc, width, height, compress(raw), raw, Picture(colorAt, 0, width, height), inflate);
  }

  /** A picture without columns is written, and a reader refuses it. */
  lemma EmptyPictureIsRefused(colorAt: (int, int) -> Colour, height: nat, crc: seq<Byte> -> int,
                              compress: seq<Byte> -> seq<Byte>, inflate: seq<Byte> -> Option<seq<Byte>>)
    requires height < TWO_32
    requires var raw := RowsFrom(colorAt, 0, 0, height);
             |compress(raw)| < TWO_32 && inflate(compress(raw)) == Some(raw)
    ensures ReadPng(crc, inflate, File(crc, 0, height, compress(RowsFrom(colorAt, 0, 0, height)))) == None
  {
    PngReadsBack(colorAt, 0, height, crc, compress, inflate);
  }

  lemma FileReadsBack(crc: seq<Byte> -> int, width: nat, height: nat, compressed: seq<Byte>, raw: seq<Byte>,
                      rows: seq<seq<Colour>>, inflate: seq<Byte> -> Option<seq<Byte>>)
    requires width < TWO_32 && height < TWO_32 && |compressed| < TWO_32
    requires inflate(compressed) == Some(raw) && ReadRows(raw, width, height) == Some(rows)
    ensures ReadPng(crc, inflate, File(crc, width, height, compressed))
            == if Dimension(width) && Dimension(height) && |compressed| < TWO_31
               then Some(Image(width, height, rows)) else None
  {
    var blocks := Blocks(width, height, compressed);
    var frames := Frames(crc, blocks);
    assert (SIGNATURE + frames)[|SIGNATURE|..] == frames;
    ChunksReadBack(crc, blocks);
    assert WithinLimit(blocks) <==> |compressed| < TWO_31 by {
      assert blocks[1].data == compressed;
    }
    BlocksRead(width, height, compressed, raw, rows, inflate);
  }

  lemma BlocksRead(width: nat, height: nat, compressed: seq<Byte>, raw: seq<Byte>,
                   rows: seq<seq<Colour>>, inflate: seq<Byte> -> Option<seq<Byte>>)
    requires width < TWO_32 && height < TWO_32
    requires inflate(compressed) == Some(raw) && ReadRows(raw, width, height) == Some(rows)
    ensures ReadBlocks(inflate, Blocks(width, height, compressed))
            == if Dimension(width) && Dimension(height) then Some(Image(width, height, rows)) else None
  {
    HeaderFields(width, height);
  }

  lemma HeaderFields(width: nat, height: nat)
    requires width < TWO_32 && height < TWO_32
    ensures var h := Header(width, height);
            h[8..] == DEPTH && Unpack32(h[..4]) == width && Unpack32(h[4..8]) == height
  {
    var h := Header(width, height);
    assert h[..4] == Pack32(width) && h[4..8] == Pack32(height) && h[8..] == DEPTH;
    PackReadsBack(width);
    PackReadsBack(height);
  }
}
