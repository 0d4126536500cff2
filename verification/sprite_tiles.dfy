/** sprite_tiles.py: a sprite tiles item, the tiles of a column of frames
    without a palette. The frame width is the image width. */
module SpriteTiles {
  import opened Common
  import opened Util
  import opened GritReport
  import opened Optimizer
  import opened Items
  import opened Sprite

  /** A validated sprite tiles item. */
  datatype SpriteTilesItem = SpriteTilesItem(
    filePath: string,
    name: string,
    buildFolderPath: string,
    colorsCount: int,
    graphics: int,
    shape: Shape,
    size: SizeClass,
    compression: Compression)

  /** SpriteTilesItem.__init__: the frame height is required and must divide
      the image height, the frame size is the image width by that height,
      and the single compression setting comes from 'compression' alone. */
  function Build(filePath: string, name: string, buildFolderPath: string, image: ImageInfo, desc: Descriptor): (r: Result<SpriteTilesItem>)
    ensures desc.height.None? ==> r == Err(MissingField("height"))
    ensures desc.height.Some? && desc.height.value != 0 && image.height % desc.height.value != 0 ==>
              r == Err(NotDivisible("height", image.height, desc.height.value))
    ensures r.Ok? ==>
              var height := desc.height.value;
              height != 0 && image.height % height == 0 &&
              r.value.graphics == image.height / height &&
              ShapeAndSize(image.width, height) == Ok((r.value.shape, r.value.size)) &&
              ValidateCompression(FirstPresent(desc.compression, None, "none")) == Ok(r.value.compression) &&
              r.value.colorsCount == image.colorsCount &&
              r.value.filePath == filePath && r.value.name == name && r.value.buildFolderPath == buildFolderPath
    ensures desc.height.Some? && desc.height.value != 0 && image.height % desc.height.value == 0 &&
            ShapeAndSize(image.width, desc.height.value).Ok? &&
            ResolveCompression(None, desc.compression).Ok?
            ==> r.Ok?
  {
    if desc.height.None? then Err(MissingField("height"))
    else
      var height := desc.height.value;
      if height == 0 then Err(DivisionByZero("height"))
      else if image.height % height != 0 then Err(NotDivisible("height", image.height, height))
      else
        var graphics := image.height / height;
        var shapeAndSize :- ShapeAndSize(image.width, height);
        var compression :- ResolveCompression(None, desc.compression);
        Ok(SpriteTilesItem(filePath, name, buildFolderPath, image.colorsCount, graphics,
                           shapeAndSize.0, shapeAndSize.1, compression))
  }

  /** A 'tiles_compression' key is not read: only 'compression' counts. */
  lemma BuildIgnoresTilesCompression(filePath: string, name: string, buildFolderPath: string, image: ImageInfo, desc: Descriptor, other: Option<string>)
    ensures Build(filePath, name, buildFolderPath, image, desc) ==
            Build(filePath, name, buildFolderPath, image, desc.(tilesCompression := other))
  {
  }

  /** The switches of __execute_command: no palette ("-p!"), the depth and
      the tiles compression. */
  function Switches(item: SpriteTilesItem, compression: Compression): seq<string> {
    FixedSwitches(item) + CompressionFlags(TilesField, compression) + [OutputFlag(item.buildFolderPath, item.name)]
  }

  /** The switches before the compression flag. */
  function FixedSwitches(item: SpriteTilesItem): (head: seq<string>)
    ensures forall f | f in head :: PlainSwitch(f)
  {
    ["-gt", "-p!", if item.colorsCount == 16 then "-gB4" else "-gB8"]
  }

  function Command(item: SpriteTilesItem, compression: Compression): seq<string> {
    ["grit", item.filePath] + Switches(item, compression)
  }

  /** The command never asks for a palette, asks for 4 bits per pixel
      exactly for 16 colours, and carries a tiles compression flag exactly
      for a compressed setting. */
  lemma {:induction false} CommandFlags(item: SpriteTilesItem, compression: Compression)
    ensures var switches := Switches(item, compression);
            "-p!" in switches &&
            ("-gB4" in switches <==> item.colorsCount == 16) && ("-gB8" in switches <==> item.colorsCount != 16) &&
            ("-gzl" in switches <==> compression == Lz77) && ("-gzr" in switches <==> compression == RunLength)
  {
    var head, flags := FixedSwitches(item), CompressionFlags(TilesField, compression);
    var output := OutputFlag(item.buildFolderPath, item.name);
    PlainSwitchIn(head, flags, output, "-p!");
    PlainSwitchIn(head, flags, output, "-gB4");
    PlainSwitchIn(head, flags, output, "-gB8");
    CompressionFlagIn(head, flags, output, "-gzl");
    CompressionFlagIn(head, flags, output, "-gzr");
  }

  /** The first part of __execute_command: the image, tiles, no palette
      and the depth. */
  method CommandHead(item: SpriteTilesItem) returns (command: seq<string>)
    ensures command == ["grit", item.filePath] + FixedSwitches(item)
  {
    var depth;
    if item.colorsCount == 16 {
      depth := "-gB4";
    } else {
      depth := "-gB8";
    }
    command := ["grit", item.filePath, "-gt", "-p!"] + [depth];
  }

  /** __execute_command: the command list built by appends. */
  method BuildCommand(item: SpriteTilesItem, compression: Compression) returns (command: seq<string>)
    ensures command == Command(item, compression)
  {
    command := CommandHead(item);
    command := AppendCompressionFlag(command, TilesField, compression);
    command := command + [OutputFlag(item.buildFolderPath, item.name)];
    Appended(["grit", item.filePath], FixedSwitches(item), CompressionFlags(TilesField, compression),
             OutputFlag(item.buildFolderPath, item.name));
  }

  const Mode := ScanMode(true, None)

  /** __test_compression: the size of a run with the candidate setting. */
  function Trial(item: SpriteTilesItem, codec: Codec): Compression -> Result<int> {
    c => TrialSize(Command(item, c), codec, Mode)
  }

  /** The sprite_tiles_item and sprite_shape_size declarations. */
  datatype SpriteTilesDeclaration = SpriteTilesDeclaration(
    tilesCount: int,
    bpp: BppMode,
    compression: Compression,
    graphics: int,
    shape: Shape,
    size: SizeClass)

  function HeaderPath(item: SpriteTilesItem): string {
    item.buildFolderPath + "/bn_sprite_tiles_items_" + item.name + ".h"
  }

  /** SpriteTilesItem.process: resolve 'auto', run grit and declare the
      reported tiles, counted twice at 8 bits per pixel. */
  function Compile(item: SpriteTilesItem, codec: Codec): (r: Result<Output<SpriteTilesDeclaration>>)
    ensures r.Ok? ==>
              var d := r.value.declaration;
              d.compression != Auto &&
              Choose(item.compression, Trial(item, codec)) == Ok(d.compression) &&
              (d.bpp == Bpp4 <==> item.colorsCount == 16) &&
              d.graphics == item.graphics && d.shape == item.shape && d.size == item.size &&
              r.value.headerPath == HeaderPath(item)
    ensures r.Ok? ==>
              var d := r.value.declaration;
              var scan := Run(Command(item, d.compression), codec, Mode);
              scan.Ok? && scan.value.tilesCount.Some? && r.value.totalSize == scan.value.totalSize &&
              d.tilesCount == (if item.colorsCount == 16 then 1 else 2) * scan.value.tilesCount.value
    ensures Choose(item.compression, Trial(item, codec)).Err? ==>
              r == Err(Choose(item.compression, Trial(item, codec)).error)
    ensures Choose(item.compression, Trial(item, codec)).Ok? ==>
              var scan := Run(Command(item, Choose(item.compression, Trial(item, codec)).value), codec, Mode);
              (scan.Err? ==> r == Err(scan.error)) &&
              (scan.Ok? && scan.value.tilesCount.None? ==> r == Err(MissingTilesCount)) &&
              (scan.Ok? && scan.value.tilesCount.Some? ==> r.Ok?)
  {
    var compression :- Choose(item.compression, Trial(item, codec));
    var scan :- Run(Command(item, compression), codec, Mode);
    if scan.tilesCount.None? then Err(MissingTilesCount)
    else
      var reported := scan.tilesCount.value;
      var bpp := if item.colorsCount == 16 then Bpp4 else Bpp8;
      var tilesCount := if bpp == Bpp8 then reported * 2 else reported;
      Ok(Output(SpriteTilesDeclaration(tilesCount, bpp, compression, item.graphics, item.shape, item.size),
                scan.totalSize, HeaderPath(item)))
  }

  /** SpriteTilesItem.process, step by step. */
  method Process(item: SpriteTilesItem, codec: Codec) returns (r: Result<Output<SpriteTilesDeclaration>>)
    ensures r == Compile(item, codec)
  {
    var compression := Optimise(item.compression, Trial(item, codec));
    if compression.Err? {
      return Err(compression.error);
    }
    var command := BuildCommand(item, compression.value);
    var scan := RunGrit(command, codec, Mode);
    if scan.Err? {
      return Err(scan.error);
    }
    if scan.value.tilesCount.None? {
      return Err(MissingTilesCount);
    }
    var tilesCount := scan.value.tilesCount.value;
    var bpp := Bpp4;
    if item.colorsCount != 16 {
      bpp := Bpp8;
      tilesCount := tilesCount * 2;
    }
    var declaration := SpriteTilesDeclaration(tilesCount, bpp, compression.value, item.graphics, item.shape, item.size);
    return Ok(Output(declaration, scan.value.totalSize, HeaderPath(item)));
  }
}
