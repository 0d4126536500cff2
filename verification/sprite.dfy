/** sprite.py: a sprite item, a sheet of equally sized frames sharing one
    palette. Its tiles and its palette are compressed independently. */
module Sprite {
  import opened Common
  import opened Text
  import opened Util
  import opened GritReport
  import opened Optimizer
  import opened Items

  datatype Shape = Square | Wide | Tall
  datatype SizeClass = Small | Normal | Big | Huge

  /** The twelve frame sizes the hardware supports. */
  const ValidSizes: set<(int, int)> :=
    {(8, 8), (8, 16), (8, 32), (16, 8), (16, 16), (16, 32),
     (32, 8), (32, 16), (32, 32), (32, 64), (64, 32), (64, 64)}

  /** shape_and_size: the hardware shape and size class of a frame size. */
  function ShapeAndSize(width: int, height: int): (r: Result<(Shape, SizeClass)>)
    ensures r.Ok? <==> (width, height) in ValidSizes
    ensures r.Err? ==> r.error == InvalidSpriteSize(width, height)
    ensures r.Ok? ==> (r.value.0 == Square <==> width == height)
    ensures r.Ok? ==> (r.value.0 == Wide <==> width > height)
    ensures r.Ok? ==> (r.value.0 == Tall <==> width < height)
  {
    if width == 8 then
      if height == 8 then Ok((Square, Small))
      else if height == 16 then Ok((Tall, Small))
      else if height == 32 then Ok((Tall, Normal))
      else Err(InvalidSpriteSize(width, height))
    else if width == 16 then
      if height == 8 then Ok((Wide, Small))
      else if height == 16 then Ok((Square, Normal))
      else if height == 32 then Ok((Tall, Big))
      else Err(InvalidSpriteSize(width, height))
    else if width == 32 then
      if height == 8 then Ok((Wide, Normal))
      else if height == 16 then Ok((Wide, Big))
      else if height == 32 then Ok((Square, Big))
      else if height == 64 then Ok((Tall, Huge))
      else Err(InvalidSpriteSize(width, height))
    else if width == 64 then
      if height == 32 then Ok((Wide, Huge))
      else if height == 64 then Ok((Square, Huge))
      else Err(InvalidSpriteSize(width, height))
    else Err(InvalidSpriteSize(width, height))
  }

  /** The accepted sizes are the pairs from {8, 16, 32, 64} except 8x64,
      16x64, 64x8 and 64x16. */
  lemma ShapeAndSizeDomain(width: int, height: int)
    ensures ShapeAndSize(width, height).Ok? <==>
              width in {8, 16, 32, 64} && height in {8, 16, 32, 64} &&
              (width, height) !in {(8, 64), (16, 64), (64, 8), (64, 16)}
  {
  }

  /** No two accepted sizes share a shape and size class. */
  lemma ShapeAndSizeInjective(w1: int, h1: int, w2: int, h2: int)
    requires ShapeAndSize(w1, h1).Ok? && ShapeAndSize(w2, h2).Ok?
    requires ShapeAndSize(w1, h1) == ShapeAndSize(w2, h2)
    ensures w1 == w2 && h1 == h2
  {
  }

  /** A validated sprite item. */
  datatype SpriteItem = SpriteItem(
    filePath: string,
    name: string,
    buildFolderPath: string,
    colorsCount: int,
    graphics: int,
    shape: Shape,
    size: SizeClass,
    tilesCompression: Compression,
    paletteCompression: Compression)

  /** The frame width: the 'width' key, or the height when it is absent. */
  function FrameWidth(desc: Descriptor, height: int): int {
    if desc.width.Some? then desc.width.value else height
  }

  /** SpriteItem.__init__: the frame height is required, the frame width
      defaults to it, the image must split into whole frames, the frame size
      must be a hardware size, and the two compressions fall back to
      'compression' and then to 'none'. */
  function Build(filePath: string, name: string, buildFolderPath: string, image: ImageInfo, desc: Descriptor): (r: Result<SpriteItem>)
    ensures desc.height.None? ==> r == Err(MissingField("height"))
    ensures desc.height.Some? && desc.height.value != 0 && image.height % desc.height.value != 0 ==>
              r == Err(NotDivisible("height", image.height, desc.height.value))
    ensures r.Ok? ==>
              var height := desc.height.value;
              var width := FrameWidth(desc, height);
              height != 0 && width != 0 && image.height % height == 0 && image.width % width == 0 &&
              r.value.graphics == (image.height / height) * (image.width / width) &&
              ShapeAndSize(width, height) == Ok((r.value.shape, r.value.size)) &&
              ResolveCompression(desc.tilesCompression, desc.compression) == Ok(r.value.tilesCompression) &&
              ResolveCompression(desc.paletteCompression, desc.compression) == Ok(r.value.paletteCompression) &&
              r.value.colorsCount == image.colorsCount &&
              r.value.filePath == filePath && r.value.name == name && r.value.buildFolderPath == buildFolderPath
    ensures desc.height.Some? && desc.height.value != 0 && FrameWidth(desc, desc.height.value) != 0 &&
            image.height % desc.height.value == 0 && image.width % FrameWidth(desc, desc.height.value) == 0 &&
            ShapeAndSize(FrameWidth(desc, desc.height.value), desc.height.value).Ok? &&
            ResolveCompression(desc.tilesCompression, desc.compression).Ok? &&
            ResolveCompression(desc.paletteCompression, desc.compression).Ok?
            ==> r.Ok?
  {
    if desc.height.None? then Err(MissingField("height"))
    else
      var height := desc.height.value;
      var width := FrameWidth(desc, height);
      if height == 0 then Err(DivisionByZero("height"))
      else if image.height % height != 0 then Err(NotDivisible("height", image.height, height))
      else if width == 0 then Err(DivisionByZero("width"))
      else if image.width % width != 0 then Err(NotDivisible("width", image.width, width))
      else
        var graphics := (image.height / height) * (image.width / width);
        var shapeAndSize :- ShapeAndSize(width, height);
        var tiles :- ResolveCompression(desc.tilesCompression, desc.compression);
        var palette :- ResolveCompression(desc.paletteCompression, desc.compression);
        Ok(SpriteItem(filePath, name, buildFolderPath, image.colorsCount, graphics,
                      shapeAndSize.0, shapeAndSize.1, tiles, palette))
  }

  /** 16 colours are 4 bits per pixel; any other count is 8. */
  function Bpp(item: SpriteItem): BppMode {
    if item.colorsCount == 16 then Bpp4 else Bpp8
  }

  /** The switches of __execute_command for the given tiles and palette
      compressions, in the order they are appended. */
  function Switches(item: SpriteItem, tiles: Compression, palette: Compression): seq<string> {
    FixedSwitches(item) + (CompressionFlags(TilesField, tiles) + CompressionFlags(PaletteField, palette)) +
    [OutputFlag(item.buildFolderPath, item.name)]
  }

  /** The switches before the compression flags: tiles, the palette entries
      and the depth. */
  function FixedSwitches(item: SpriteItem): (head: seq<string>)
    ensures forall f | f in head :: PlainSwitch(f)
  {
    ["-gt", PaletteEntriesFlag(item.colorsCount), if item.colorsCount == 16 then "-gB4" else "-gB8"]
  }

  /** The grit command: the image followed by the switches. */
  function Command(item: SpriteItem, tiles: Compression, palette: Compression): seq<string> {
    ["grit", item.filePath] + Switches(item, tiles, palette)
  }

  /** The command asks for 4 bits per pixel exactly for 16 colours. */
  lemma {:induction false} CommandDepthFlag(item: SpriteItem, tiles: Compression, palette: Compression)
    ensures var switches := Switches(item, tiles, palette);
            ("-gB4" in switches <==> item.colorsCount == 16) && ("-gB8" in switches <==> item.colorsCount != 16)
  {
    var flags := CompressionFlags(TilesField, tiles) + CompressionFlags(PaletteField, palette);
    var output := OutputFlag(item.buildFolderPath, item.name);
    PlainSwitchIn(FixedSwitches(item), flags, output, "-gB4");
    PlainSwitchIn(FixedSwitches(item), flags, output, "-gB8");
    assert PaletteEntriesFlag(item.colorsCount)[2] == 'e';
  }

  /** The command carries a tiles compression flag exactly for a compressed
      tiles setting. */
  lemma {:induction false} CommandTilesFlag(item: SpriteItem, tiles: Compression, palette: Compression)
    ensures var switches := Switches(item, tiles, palette);
            ("-gzl" in switches <==> tiles == Lz77) && ("-gzr" in switches <==> tiles == RunLength)
  {
    var encodings := Encodings(tiles, palette, Uncompressed);
    assert EncodingFlags(encodings) == CompressionFlags(TilesField, tiles) + CompressionFlags(PaletteField, palette);
    var output := OutputFlag(item.buildFolderPath, item.name);
    CompressionFlagIn(FixedSwitches(item), EncodingFlags(encodings), output, "-gzl");
    CompressionFlagIn(FixedSwitches(item), EncodingFlags(encodings), output, "-gzr");
    FlagInEncodingFlags(encodings, TilesField, Lz77);
    FlagInEncodingFlags(encodings, TilesField, RunLength);
  }

  /** The command carries a palette compression flag exactly for a
      compressed palette setting. */
  lemma {:induction false} CommandPaletteFlag(item: SpriteItem, tiles: Compression, palette: Compression)
    ensures var switches := Switches(item, tiles, palette);
            ("-pzl" in switches <==> palette == Lz77) && ("-pzr" in switches <==> palette == RunLength)
  {
    var encodings := Encodings(tiles, palette, Uncompressed);
    assert EncodingFlags(encodings) == CompressionFlags(TilesField, tiles) + CompressionFlags(PaletteField, palette);
    var output := OutputFlag(item.buildFolderPath, item.name);
    CompressionFlagIn(FixedSwitches(item), EncodingFlags(encodings), output, "-pzl");
    CompressionFlagIn(FixedSwitches(item), EncodingFlags(encodings), output, "-pzr");
    FlagInEncodingFlags(encodings, PaletteField, Lz77);
    FlagInEncodingFlags(encodings, PaletteField, RunLength);
  }

  /** The first part of __execute_command: the image, tiles, the palette
      entries and the depth. */
  method CommandHead(item: SpriteItem) returns (command: seq<string>)
    ensures command == ["grit", item.filePath] + FixedSwitches(item)
  {
    var depth;
    if item.colorsCount == 16 {
      depth := "-gB4";
    } else {
      depth := "-gB8";
    }
    command := ["grit", item.filePath, "-gt", PaletteEntriesFlag(item.colorsCount)] + [depth];
  }

  /** __execute_command: the command list built by appends. */
  method BuildCommand(item: SpriteItem, tiles: Compression, palette: Compression) returns (command: seq<string>)
    ensures command == Command(item, tiles, palette)
  {
    var head := CommandHead(item);
    var withTiles := AppendCompressionFlag(head, TilesField, tiles);
    command := AppendCompressionFlag(withTiles, PaletteField, palette);
    var flags := CompressionFlags(TilesField, tiles) + CompressionFlags(PaletteField, palette);
    assert command == head + flags;
    command := command + [OutputFlag(item.buildFolderPath, item.name)];
    Appended(["grit", item.filePath], FixedSwitches(item), flags, OutputFlag(item.buildFolderPath, item.name));
  }

  /** Sprites read ' tiles ' lines and check no ceiling. */
  const Mode := ScanMode(true, None)

  /** __test_tiles_compression: a trial of a tiles setting with the palette
      left uncompressed. */
  function TilesTrial(item: SpriteItem, codec: Codec): Compression -> Result<int> {
    c => TrialSize(Command(item, c, Uncompressed), codec, Mode)
  }

  /** __test_palette_compression: a trial of a palette setting with the
      tiles left uncompressed. */
  function PaletteTrial(item: SpriteItem, codec: Codec): Compression -> Result<int> {
    c => TrialSize(Command(item, Uncompressed, c), codec, Mode)
  }

  /** A tiles trial never compresses the palette, and a palette trial never
      compresses the tiles. */
  lemma TrialsForceOtherFieldToNone(item: SpriteItem, c: Compression)
    ensures "-pzl" !in Switches(item, c, Uncompressed) && "-pzr" !in Switches(item, c, Uncompressed)
    ensures "-gzl" !in Switches(item, Uncompressed, c) && "-gzr" !in Switches(item, Uncompressed, c)
  {
    CommandPaletteFlag(item, c, Uncompressed);
    CommandTilesFlag(item, Uncompressed, c);
  }

  /** The sprite_item declaration of the header. */
  datatype SpriteDeclaration = SpriteDeclaration(
    shape: Shape,
    size: SizeClass,
    tilesCount: int,
    bpp: BppMode,
    tilesCompression: Compression,
    graphics: int,
    colorsCount: int,
    paletteCompression: Compression)

  function HeaderPath(item: SpriteItem): string {
    item.buildFolderPath + "/bn_sprite_items_" + item.name + ".h"
  }

  /** SpriteItem.process: resolve 'auto' for the tiles and then for the
      palette, run grit with the chosen settings and declare what it
      reported; 8 bits per pixel count each tile twice. */
  function Compile(item: SpriteItem, codec: Codec): (r: Result<Output<SpriteDeclaration>>)
    ensures r.Ok? ==>
              var d := r.value.declaration;
              d.tilesCompression != Auto && d.paletteCompression != Auto &&
              Choose(item.tilesCompression, TilesTrial(item, codec)) == Ok(d.tilesCompression) &&
              Choose(item.paletteCompression, PaletteTrial(item, codec)) == Ok(d.paletteCompression) &&
              (d.bpp == Bpp4 <==> item.colorsCount == 16) &&
              d.colorsCount == item.colorsCount && d.graphics == item.graphics &&
              d.shape == item.shape && d.size == item.size &&
              r.value.headerPath == HeaderPath(item)
    ensures r.Ok? ==>
              var d := r.value.declaration;
              var scan := Run(Command(item, d.tilesCompression, d.paletteCompression), codec, Mode);
              scan.Ok? && scan.value.tilesCount.Some? && r.value.totalSize == scan.value.totalSize &&
              d.tilesCount == (if item.colorsCount == 16 then 1 else 2) * scan.value.tilesCount.value
    ensures var tiles := Choose(item.tilesCompression, TilesTrial(item, codec));
            var palette := Choose(item.paletteCompression, PaletteTrial(item, codec));
            (tiles.Err? ==> r == Err(tiles.error)) &&
            (tiles.Ok? && palette.Err? ==> r == Err(palette.error))
    ensures var tiles := Choose(item.tilesCompression, TilesTrial(item, codec));
            var palette := Choose(item.paletteCompression, PaletteTrial(item, codec));
            tiles.Ok? && palette.Ok? ==>
              var scan := Run(Command(item, tiles.value, palette.value), codec, Mode);
              (scan.Err? ==> r == Err(scan.error)) &&
              (scan.Ok? && scan.value.tilesCount.None? ==> r == Err(MissingTilesCount)) &&
              (scan.Ok? && scan.value.tilesCount.Some? ==> r.Ok?)
  {
    var tiles :- Choose(item.tilesCompression, TilesTrial(item, codec));
    var palette :- Choose(item.paletteCompression, PaletteTrial(item, codec));
    var scan :- Run(Command(item, tiles, palette), codec, Mode);
    if scan.tilesCount.None? then Err(MissingTilesCount)
    else
      var reported := scan.tilesCount.value;
      var tilesCount := if Bpp(item) == Bpp8 then reported * 2 else reported;
      Ok(Output(SpriteDeclaration(item.shape, item.size, tilesCount, Bpp(item), tiles,
                                  item.graphics, item.colorsCount, palette),
                scan.totalSize, HeaderPath(item)))
  }

  /** SpriteItem.process, step by step. */
  method Process(item: SpriteItem, codec: Codec) returns (r: Result<Output<SpriteDeclaration>>)
    ensures r == Compile(item, codec)
  {
    var tiles := Optimise(item.tilesCompression, TilesTrial(item, codec));
    if tiles.Err? {
      return Err(tiles.error);
    }
    var palette := Optimise(item.paletteCompression, PaletteTrial(item, codec));
    if palette.Err? {
      return Err(palette.error);
    }
    var command := BuildCommand(item, tiles.value, palette.value);
    var scan := RunGrit(command, codec, Mode);
    if scan.Err? {
      return Err(scan.error);
    }
    if scan.value.tilesCount.None? {
      return Err(MissingTilesCount);
    }
    var tilesCount := scan.value.tilesCount.value;
    var bpp := Bpp4;
    if item.colorsCount != 16 {
      bpp := Bpp8;
      tilesCount := tilesCount * 2;
    }
    var declaration := SpriteDeclaration(item.shape, item.size, tilesCount, bpp, tiles.value,
                                         item.graphics, item.colorsCount, palette.value);
    return Ok(Output(declaration, scan.value.totalSize, HeaderPath(item)));
  }

  /** An 'auto' tiles setting ends as the smallest trial, the earliest on a
      tie. */
  lemma CompileTilesIsSmallestTrial(item: SpriteItem, codec: Codec, c: Compression)
    requires item.tilesCompression == Auto && Compile(item, codec).Ok?
    requires c in Candidates
    ensures var chosen := Compile(item, codec).value.declaration.tilesCompression;
            TilesTrial(item, codec)(chosen).value <= TilesTrial(item, codec)(c).value &&
            (Rank(c) < Rank(chosen) ==> TilesTrial(item, codec)(chosen).value < TilesTrial(item, codec)(c).value)
  {
    var trial := TilesTrial(item, codec);
    assert Choose(Auto, trial) == Ok(Compile(item, codec).value.declaration.tilesCompression);
    ChooseIsSmallest(trial);
  }
}
