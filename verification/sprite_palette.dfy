/** sprite_palette.py: a sprite palette item, a palette without tiles. */
module SpritePalette {
  import opened Common
  import opened Util
  import opened GritReport
  import opened Optimizer
  import opened Items

  /** A validated sprite palette item. */
  datatype SpritePaletteItem = SpritePaletteItem(
    filePath: string,
    name: string,
    buildFolderPath: string,
    colorsCount: int,
    compression: Compression)

  /** The colour count of __init__: an explicit 'colors_count' must lie in
      [1, 256] and is rounded up to a multiple of 16; without one the
      image's count is used. */
  function ColorsCount(desc: Descriptor, image: ImageInfo): (r: Result<int>)
    ensures desc.colorsCount.None? ==> r == Ok(image.colorsCount)
    ensures desc.colorsCount.Some? && (desc.colorsCount.value < 1 || desc.colorsCount.value > 256) ==>
              r == Err(InvalidColorsCount(desc.colorsCount.value))
    ensures desc.colorsCount.Some? && r.Ok? ==>
              16 <= r.value <= 256 && r.value % 16 == 0 &&
              desc.colorsCount.value <= r.value < desc.colorsCount.value + 16
  {
    match desc.colorsCount
    case None => Ok(image.colorsCount)
    case Some(n) =>
      if n < 1 || n > 256 then Err(InvalidColorsCount(n))
      else Ok(RoundUpColors(n))
  }

  /** A count that is already a multiple of 16 is kept as it is. */
  lemma ColorsCountKeepsMultiples(desc: Descriptor, image: ImageInfo)
    requires desc.colorsCount.Some? && 1 <= desc.colorsCount.value <= 256 && desc.colorsCount.value % 16 == 0
    ensures ColorsCount(desc, image) == Ok(desc.colorsCount.value)
  {
  }

  /** SpritePaletteItem.__init__: the colour count, and the compression from
      'compression' alone. */
  function Build(filePath: string, name: string, buildFolderPath: string, image: ImageInfo, desc: Descriptor): (r: Result<SpritePaletteItem>)
    ensures r.Ok? <==> ColorsCount(desc, image).Ok? && ResolveCompression(None, desc.compression).Ok?
    ensures r.Ok? ==>
              r.value.colorsCount == ColorsCount(desc, image).value &&
              ResolveCompression(None, desc.compression) == Ok(r.value.compression) &&
              r.value.filePath == filePath && r.value.name == name && r.value.buildFolderPath == buildFolderPath
    ensures ColorsCount(desc, image).Err? ==> r == Err(ColorsCount(desc, image).error)
  {
    var colorsCount :- ColorsCount(desc, image);
    var compression :- ResolveCompression(None, desc.compression);
    Ok(SpritePaletteItem(filePath, name, buildFolderPath, colorsCount, compression))
  }

  /** The switches of __execute_command: no tiles ("-g!"), the palette entry
      count and the palette compression. */
  function Switches(item: SpritePaletteItem, compression: Compression): seq<string> {
    FixedSwitches(item) + CompressionFlags(PaletteField, compression) + [OutputFlag(item.buildFolderPath, item.name)]
  }

  /** The switches before the compression flag. */
  function FixedSwitches(item: SpritePaletteItem): (head: seq<string>)
    ensures forall f | f in head :: PlainSwitch(f)
  {
    ["-g!", PaletteEntriesFlag(item.colorsCount)]
  }

  function Command(item: SpritePaletteItem, compression: Compression): seq<string> {
    ["grit", item.filePath] + Switches(item, compression)
  }

  /** The command never asks for tiles, emits the item's colour count, and
      carries a palette compression flag exactly for a compressed setting. */
  lemma {:induction false} CommandFlags(item: SpritePaletteItem, compression: Compression)
    ensures var switches := Switches(item, compression);
            switches[0] == "-g!" && switches[1] == PaletteEntriesFlag(item.colorsCount) &&
            ("-pzl" in switches <==> compression == Lz77) && ("-pzr" in switches <==> compression == RunLength)
  {
    var head, flags := FixedSwitches(item), CompressionFlags(PaletteField, compression);
    var output := OutputFlag(item.buildFolderPath, item.name);
    CompressionFlagIn(head, flags, output, "-pzl");
    CompressionFlagIn(head, flags, output, "-pzr");
  }

  /** __execute_command: the command list built by appends. */
  method BuildCommand(item: SpritePaletteItem, compression: Compression) returns (command: seq<string>)
    ensures command == Command(item, compression)
  {
    command := ["grit", item.filePath, "-g!", PaletteEntriesFlag(item.colorsCount)];
    assert command == ["grit", item.filePath] + FixedSwitches(item);
    command := AppendCompressionFlag(command, PaletteField, compression);
    command := command + [OutputFlag(item.buildFolderPath, item.name)];
    Appended(["grit", item.filePath], FixedSwitches(item), CompressionFlags(PaletteField, compression),
             OutputFlag(item.buildFolderPath, item.name));
  }

  /** The palette report is read for its total size only. */
  const Mode := ScanMode(false, None)

  /** __test_compression: the size of a run with the candidate setting. */
  function Trial(item: SpritePaletteItem, codec: Codec): Compression -> Result<int> {
    c => TrialSize(Command(item, c), codec, Mode)
  }

  /** The sprite_palette_item declaration. */
  datatype SpritePaletteDeclaration = SpritePaletteDeclaration(
    colorsCount: int,
    bpp: BppMode,
    compression: Compression)

  function HeaderPath(item: SpritePaletteItem): string {
    item.buildFolderPath + "/bn_sprite_palette_items_" + item.name + ".h"
  }

  /** SpritePaletteItem.process: resolve 'auto', run grit and declare the
      palette, at 4 bits per pixel exactly for 16 colours. */
  function Compile(item: SpritePaletteItem, codec: Codec): (r: Result<Output<SpritePaletteDeclaration>>)
    ensures r.Ok? ==>
              var d := r.value.declaration;
              d.compression != Auto &&
              Choose(item.compression, Trial(item, codec)) == Ok(d.compression) &&
              (d.bpp == Bpp4 <==> item.colorsCount == 16) &&
              d.colorsCount == item.colorsCount &&
              Run(Command(item, d.compression), codec, Mode).Ok? &&
              r.value.totalSize == Run(Command(item, d.compression), codec, Mode).value.totalSize &&
              r.value.headerPath == HeaderPath(item)
    ensures Choose(item.compression, Trial(item, codec)).Ok? &&
            Run(Command(item, Choose(item.compression, Trial(item, codec)).value), codec, Mode).Ok?
            ==> r.Ok?
  {
    var compression :- Choose(item.compression, Trial(item, codec));
    var scan :- Run(Command(item, compression), codec, Mode);
    var bpp := if item.colorsCount == 16 then Bpp4 else Bpp8;
    Ok(Output(SpritePaletteDeclaration(item.colorsCount, bpp, compression), scan.totalSize, HeaderPath(item)))
  }

  /** SpritePaletteItem.process, step by step. */
  method Process(item: SpritePaletteItem, codec: Codec) returns (r: Result<Output<SpritePaletteDeclaration>>)
    ensures r == Compile(item, codec)
  {
    var compression := Optimise(item.compression, Trial(item, codec));
    if compression.Err? {
      return Err(compression.error);
    }
    var command := BuildCommand(item, compression.value);
    var scan := RunGrit(command, codec, Mode);
    if scan.Err? {
      return Err(scan.error);
    }
    var bpp := Bpp8;
    if item.colorsCount == 16 {
      bpp := Bpp4;
    }
    return Ok(Output(SpritePaletteDeclaration(item.colorsCount, bpp, compression.value), scan.value.totalSize, HeaderPath(item)));
  }
}
