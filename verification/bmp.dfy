/** bmp.py: the header of a Windows BMP file with a 40-byte
    BITMAPINFOHEADER, read as a sequence of bytes. Only the fields the tool
    checks are decoded; every multi-byte field is little-endian. */
module Bmp {
  import opened Common
  import opened Util

  type Byte = x: int | 0 <= x < 256

  function U16(data: seq<Byte>, at: nat): nat
    requires at + 2 <= |data|
  {
    (data[at] as int) + 256 * (data[at + 1] as int)
  }

  function U32(data: seq<Byte>, at: nat): nat
    requires at + 4 <= |data|
  {
    U16(data, at) + 65536 * U16(data, at + 2)
  }

  /** `max(pixels)` */
  function MaxOf(s: seq<Byte>): (m: Byte)
    requires |s| > 0
    ensures m in s
    ensures forall i | 0 <= i < |s| :: s[i] <= m
  {
    if |s| == 1 then s[0]
    else
      var m := MaxOf(s[..|s| - 1]);
      if s[|s| - 1] > m then s[|s| - 1] else m
  }

  /** Where each field sits once the reads before it have succeeded. */
  const PixelsOffsetAt := 10
  const HeaderSizeAt := 14
  const WidthAt := 18
  const HeightAt := 22
  const BitsPerPixelAt := 28
  const CompressionAt := 30
  const ColorsAt := 54

  /** `pixels_count = width * height`: one byte per pixel, no row padding. */
  function Area(width: nat, height: nat): nat
  {
    width * height
  }

  /** With both sides accepted, the pixels split into a whole, non-zero
      number of 8x8 tiles. */
  lemma AreaWholeTiles(width: nat, height: nat)
    requires SideOk(width) && SideOk(height)
    ensures Area(width, height) > 0 && Area(width, height) % 64 == 0
  {
    assert width * height == 64 * ((width / 8) * (height / 8));
  }

  /** A side the decoder accepts: non-zero and a multiple of 8. */
  predicate SideOk(side: nat) {
    side != 0 && side % 8 == 0
  }

  /** The header fields the tool reads, once each has passed its check. */
  datatype Header = Header(pixelsOffset: nat, width: nat, height: nat, bitsPerPixel: nat)

  /** The first part of BMP(file_path): the fixed-offset header fields and
      their checks, or the error the first failing read or check raises. A
      read that runs past the end of the file raises. */
  function DecodeHeader(data: seq<Byte>): (r: Result<Header>)
    ensures |data| >= HeaderSizeAt + 4 && U32(data, HeaderSizeAt) == 108 ==> r == Err(BmpColorSpaceHeader)
    ensures |data| >= HeaderSizeAt + 4 && U32(data, HeaderSizeAt) !in {40, 108} ==>
              r == Err(BmpHeaderSize(U32(data, HeaderSizeAt)))
    ensures r.Ok? ==> |data| >= CompressionAt + 4 && U32(data, HeaderSizeAt) == 40 && U32(data, CompressionAt) == 0
    ensures r.Ok? ==> r.value.pixelsOffset == U32(data, PixelsOffsetAt)
    ensures r.Ok? ==> r.value.width == U32(data, WidthAt) && r.value.width > 0 && r.value.width % 8 == 0
    ensures r.Ok? ==> r.value.height == U32(data, HeightAt) && r.value.height > 0 && r.value.height % 8 == 0
    ensures r.Ok? ==> r.value.bitsPerPixel == U16(data, BitsPerPixelAt) && r.value.bitsPerPixel in {4, 8}
    ensures |data| < HeaderSizeAt + 4 ==> r == Err(BmpTruncated)
    ensures r == Err(BmpTruncated) ==> |data| < CompressionAt + 4
    ensures |data| >= WidthAt + 4 && U32(data, HeaderSizeAt) == 40 && !SideOk(U32(data, WidthAt)) ==>
              r == Err(BmpWidth(U32(data, WidthAt)))
    ensures |data| >= HeightAt + 4 && U32(data, HeaderSizeAt) == 40 && SideOk(U32(data, WidthAt)) &&
            !SideOk(U32(data, HeightAt)) ==>
              r == Err(BmpHeight(U32(data, HeightAt)))
    ensures |data| >= BitsPerPixelAt + 2 && U32(data, HeaderSizeAt) == 40 && SideOk(U32(data, WidthAt)) &&
            SideOk(U32(data, HeightAt)) && U16(data, BitsPerPixelAt) !in {4, 8} ==>
              r == Err(BmpBitsPerPixel(U16(data, BitsPerPixelAt)))
    ensures |data| >= CompressionAt + 4 && U32(data, HeaderSizeAt) == 40 && SideOk(U32(data, WidthAt)) &&
            SideOk(U32(data, HeightAt)) && U16(data, BitsPerPixelAt) in {4, 8} ==>
              (U32(data, CompressionAt) != 0 ==> r == Err(BmpCompression(U32(data, CompressionAt)))) &&
              (U32(data, CompressionAt) == 0 ==>
                 r == Ok(Header(U32(data, PixelsOffsetAt), U32(data, WidthAt), U32(data, HeightAt),
                                U16(data, BitsPerPixelAt))))
  {
    if |data| < HeaderSizeAt + 4 then Err(BmpTruncated)
    else
      var headerSize := U32(data, HeaderSizeAt);
      if headerSize == 108 then Err(BmpColorSpaceHeader)
      else if headerSize != 40 then Err(BmpHeaderSize(headerSize))
      else if |data| < WidthAt + 4 then Err(BmpTruncated)
      else
        var width := U32(data, WidthAt);
        if width == 0 || width % 8 != 0 then Err(BmpWidth(width))
        else if |data| < HeightAt + 4 then Err(BmpTruncated)
        else
          var height := U32(data, HeightAt);
          if height == 0 || height % 8 != 0 then Err(BmpHeight(height))
          else if |data| < BitsPerPixelAt + 2 then Err(BmpTruncated)
          else
            var bits := U16(data, BitsPerPixelAt);
            if bits != 4 && bits != 8 then Err(BmpBitsPerPixel(bits))
            else if |data| < CompressionAt + 4 then Err(BmpTruncated)
            else
              var compression := U32(data, CompressionAt);
              if compression != 0 then Err(BmpCompression(compression))
              else Ok(Header(U32(data, PixelsOffsetAt), width, height, bits))
  }

  /** The 8bpp pixel bytes: `width * height` bytes from the pixel offset
      (empty when the file is too short to hold them). */
  function PixelBytes(data: seq<Byte>, header: Header): seq<Byte> {
    var count := Area(header.width, header.height);
    if header.pixelsOffset + count <= |data| then data[header.pixelsOffset..header.pixelsOffset + count] else []
  }

  /** What BMP(file_path) computes: the image metadata, or the error it
      raises. A 4bpp image has 16 colours; an 8bpp image has its largest
      pixel index plus one, rounded up to a multiple of 16. */
  function Decode(data: seq<Byte>): (r: Result<ImageInfo>)
    ensures r.Ok? ==> DecodeHeader(data).Ok?
    ensures r.Ok? ==> r.value.width == DecodeHeader(data).value.width
    ensures r.Ok? ==> r.value.height == DecodeHeader(data).value.height
    ensures r.Ok? && DecodeHeader(data).value.bitsPerPixel == 4 ==> r.value.colorsCount == 16
    ensures r.Ok? && DecodeHeader(data).value.bitsPerPixel == 8 ==>
              var pixels := PixelBytes(data, DecodeHeader(data).value);
              |pixels| > 0 && r.value.colorsCount == RoundUpColors(MaxOf(pixels) + 1)
    ensures r.Ok? ==> 16 <= r.value.colorsCount <= 256 && r.value.colorsCount % 16 == 0
    ensures DecodeHeader(data).Err? ==> r == Err(DecodeHeader(data).error)
    ensures !(r.Err? && r.error.BmpColorsCount?)
    ensures DecodeHeader(data).Ok? && DecodeHeader(data).value.bitsPerPixel == 4 ==>
              r == Ok(ImageInfo(DecodeHeader(data).value.width, DecodeHeader(data).value.height, 16))
    ensures DecodeHeader(data).Ok? && DecodeHeader(data).value.bitsPerPixel == 8 ==>
              var header := DecodeHeader(data).value;
              if |data| < ColorsAt + 256 * 4 || header.pixelsOffset + Area(header.width, header.height) > |data|
              then r == Err(BmpTruncated)
              else r == Ok(ImageInfo(header.width, header.height,
                                     RoundUpColors(MaxOf(PixelBytes(data, header)) + 1)))
  {
    var header :- DecodeHeader(data);
    if header.bitsPerPixel == 4 then Ok(ImageInfo(header.width, header.height, 16))
    else if |data| < ColorsAt + 256 * 4 then Err(BmpTruncated)
    else if header.pixelsOffset + Area(header.width, header.height) > |data| then Err(BmpTruncated)
    else
      var colors := RoundUpColors(MaxOf(PixelBytes(data, header)) + 1);
      if colors > 256 then Err(BmpColorsCount(colors))
      else Ok(ImageInfo(header.width, header.height, colors))
  }

  /** `file.read(n)` used only to skip: it stops at the end of the file. */
  function Skip(data: seq<Byte>, pos: nat, n: nat): (next: nat)
    requires pos <= |data|
    ensures pos <= next <= |data|
    ensures next == pos + n || (pos + n > |data| && next == |data|)
  {
    if pos + n <= |data| then pos + n else |data|
  }

  /** The header part of BMP.__init__: sequential reads from a cursor over
      the file; `pos` is where the cursor stands after the last skip. */
  method ReadHeader(data: seq<Byte>) returns (r: Result<Header>, pos: nat)
    ensures r == DecodeHeader(data)
    ensures r.Ok? ==> pos == Skip(data, CompressionAt + 4, 20)
  {
    pos := Skip(data, 0, 10);
    if pos + 4 > |data| {
      return Err(BmpTruncated), pos;
    }
    var pixelsOffset := U32(data, pos);
    pos := pos + 4;
    if pos + 4 > |data| {
      return Err(BmpTruncated), pos;
    }
    var headerSize := U32(data, pos);
    pos := pos + 4;
    if headerSize == 108 {
      return Err(BmpColorSpaceHeader), pos;
    }
    if headerSize != 40 {
      return Err(BmpHeaderSize(headerSize)), pos;
    }
    if pos + 4 > |data| {
      return Err(BmpTruncated), pos;
    }
    var width := U32(data, pos);
    pos := pos + 4;
    if width == 0 || width % 8 != 0 {
      return Err(BmpWidth(width)), pos;
    }
    if pos + 4 > |data| {
      return Err(BmpTruncated), pos;
    }
    var height := U32(data, pos);
    pos := pos + 4;
    if height == 0 || height % 8 != 0 {
      return Err(BmpHeight(height)), pos;
    }
    pos := Skip(data, pos, 2);
    if pos + 2 > |data| {
      return Err(BmpTruncated), pos;
    }
    var bitsPerPixel := U16(data, pos);
    pos := pos + 2;
    if bitsPerPixel != 4 && bitsPerPixel != 8 {
      return Err(BmpBitsPerPixel(bitsPerPixel)), pos;
    }
    if pos + 4 > |data| {
      return Err(BmpTruncated), pos;
    }
    var compressionMethod := U32(data, pos);
    pos := pos + 4;
    if compressionMethod != 0 {
      return Err(BmpCompression(compressionMethod)), pos;
    }
    pos := Skip(data, pos, 20);
    return Ok(Header(pixelsOffset, width, height, bitsPerPixel)), pos;
  }

  /** `max(pixels)`, one pixel at a time. */
  method LargestPixel(pixels: seq<Byte>) returns (m: Byte)
    requires |pixels| > 0
    ensures m == MaxOf(pixels)
  {
    m := pixels[0];
    for i := 1 to |pixels|
      invariant m == MaxOf(pixels[..i])
    {
      assert pixels[..i + 1][..i] == pixels[..i];
      if pixels[i] > m {
        m := pixels[i];
      }
    }
    assert pixels[..|pixels|] == pixels;
  }

  /** BMP.__init__: the header, then for an 8bpp image the colour table, a
      seek to the pixels and the largest pixel index. */
  method Load(data: seq<Byte>) returns (r: Result<ImageInfo>)
    ensures r == Decode(data)
  {
    var header, pos := ReadHeader(data);
    if header.Err? {
      return Err(header.error);
    }
    var width, height := header.value.width, header.value.height;
    if header.value.bitsPerPixel == 4 {
      return Ok(ImageInfo(width, height, 16));
    }
    // the 256-entry colour table must be present
    assert pos + 256 * 4 > |data| <==> |data| < ColorsAt + 256 * 4;
    if pos + 256 * 4 > |data| {
      return Err(BmpTruncated);
    }
    pos := header.value.pixelsOffset;
    var pixelsCount := Area(width, height);
    if pos + pixelsCount > |data| {
      return Err(BmpTruncated);
    }
    var pixels := data[pos..pos + pixelsCount];
    assert pixels == PixelBytes(data, header.value);
    var maxPixel := LargestPixel(pixels);
    var colorsCount: int := maxPixel as int + 1;
    var extraColors := colorsCount % 16;
    if extraColors > 0 {
      colorsCount := colorsCount + 16 - extraColors;
    }
    assert colorsCount == RoundUpColors(MaxOf(pixels) as int + 1);
    if colorsCount > 256 {
      return Err(BmpColorsCount(colorsCount));
    }
    return Ok(ImageInfo(width, height, colorsCount));
  }
}
