/** fixed_bg.py: a fixed (regular) background of exactly one 240x160 screen,
    with its tiles, palette and map compressed independently. */
module FixedBg {
  import opened Common
  import opened Util
  import opened GritReport
  import opened Optimizer
  import opened Items
  import Text

  /** A validated fixed background item. */
  datatype FixedBgItem = FixedBgItem(
    filePath: string,
    name: string,
    buildFolderPath: string,
    mapWidth: int,
    mapHeight: int,
    bpp8: bool,
    sbb: bool,
    repeatedTilesReduction: bool,
    flippedTilesReduction: bool,
    paletteItem: Option<string>,
    colorsCount: int,
    tilesCompression: Compression,
    paletteCompression: Compression,
    mapCompression: Compression)

  /** How the depth of the tiles is settled. */
  datatype Depth = FourBpp | EightBpp | QuantizedFourBpp

  /** The 'bpp_mode' decision of __init__. It is only consulted with an
      external palette or more than 16 colours; an external palette must
      name it and cannot be quantised, and without it an inline palette
      of more than 16 colours is 8 bits per pixel. */
  function ResolveDepth(bppMode: Option<string>, external: bool, colorsCount: int): (r: Result<Depth>)
    ensures !external && colorsCount <= 16 ==> r == Ok(FourBpp)
    ensures external && bppMode.None? ==> r == Err(MissingField("bpp_mode"))
    ensures external && bppMode == Some("bpp_4_auto") ==> r == Err(BppModeNeedsInlinePalette("bpp_4_auto"))
    ensures !external && colorsCount > 16 && bppMode.None? ==> r == Ok(EightBpp)
    ensures (external || colorsCount > 16) && bppMode.Some? &&
            bppMode.value !in {"bpp_8", "bpp_4_auto", "bpp_4", "bpp_4_manual"} ==>
              r == Err(InvalidBppMode(bppMode.value))
    ensures r == Ok(EightBpp) <==>
              (external || colorsCount > 16) && (bppMode == Some("bpp_8") || (!external && bppMode.None?))
    ensures r == Ok(QuantizedFourBpp) <==> !external && colorsCount > 16 && bppMode == Some("bpp_4_auto")
  {
    if !external && colorsCount <= 16 then Ok(FourBpp)
    else if bppMode.None? && external then Err(MissingField("bpp_mode"))
    else
      var mode := if bppMode.Some? then bppMode.value else "bpp_8";
      if mode == "bpp_8" then Ok(EightBpp)
      else if mode == "bpp_4_auto" then
        if external then Err(BppModeNeedsInlinePalette(mode)) else Ok(QuantizedFourBpp)
      else if mode == "bpp_4" || mode == "bpp_4_manual" then Ok(FourBpp)
      else Err(InvalidBppMode(mode))
  }

  /** Where a quantised copy of the image is written. */
  function QuantizedPath(buildFolderPath: string, name: string): string {
    buildFolderPath + "/" + name + ".bn_quantized.bmp"
  }

  /** The colour count before the depth is settled: none with an external
      palette, the image's own otherwise. */
  function InlineColors(desc: Descriptor, image: ImageInfo): (count: int)
    ensures desc.paletteItem.Some? ==> count == 0
    ensures desc.paletteItem.None? ==> count == image.colorsCount
  {
    if desc.paletteItem.Some? then 0 else image.colorsCount
  }

  /** FixedBgItem.__init__. `quantize` stands for the image processor's
      quantisation, which writes a 4 bits per pixel copy at the given path
      and yields its colour count. */
  function Build(filePath: string, name: string, buildFolderPath: string, image: ImageInfo, desc: Descriptor,
                 quantize: string -> int): (r: Result<FixedBgItem>)
    ensures image.width != 240 ==> r == Err(InvalidBgDimension("width", image.width))
    ensures image.width == 240 && image.height != 160 ==> r == Err(InvalidBgDimension("height", image.height))
    ensures r.Ok? ==>
              var item := r.value;
              image.width == 240 && image.height == 160 && item.mapWidth == 30 && item.mapHeight == 20 &&
              item.sbb && item.name == name && item.buildFolderPath == buildFolderPath &&
              item.repeatedTilesReduction == OrTrue(desc.repeatedTilesReduction) &&
              item.flippedTilesReduction == OrTrue(desc.flippedTilesReduction) &&
              item.paletteItem == desc.paletteItem &&
              ResolveCompression(desc.tilesCompression, desc.compression) == Ok(item.tilesCompression) &&
              ResolveCompression(desc.mapCompression, desc.compression) == Ok(item.mapCompression)
    ensures r.Ok? && desc.paletteItem.Some? ==>
              var item := r.value;
              ValidPaletteName(desc.paletteItem.value) && item.colorsCount == 0 &&
              item.paletteCompression == Uncompressed && item.filePath == filePath &&
              (item.bpp8 <==> desc.bppMode == Some("bpp_8"))
    ensures r.Ok? && desc.paletteItem.None? ==>
              ResolveCompression(desc.paletteCompression, desc.compression) == Ok(r.value.paletteCompression)
    ensures r.Ok? && desc.paletteItem.None? && image.colorsCount <= 16 ==>
              !r.value.bpp8 && r.value.colorsCount == image.colorsCount && r.value.filePath == filePath
    ensures r.Ok? && desc.paletteItem.None? && image.colorsCount > 16 && desc.bppMode == Some("bpp_4_auto") ==>
              !r.value.bpp8 && r.value.filePath == QuantizedPath(buildFolderPath, name) &&
              r.value.colorsCount == quantize(QuantizedPath(buildFolderPath, name))
    ensures image.width == 240 && image.height == 160 && PaletteItemOf(desc).Err? ==>
              r == Err(PaletteItemOf(desc).error)
    ensures var depth := ResolveDepth(desc.bppMode, desc.paletteItem.Some?, InlineColors(desc, image));
            image.width == 240 && image.height == 160 && PaletteItemOf(desc).Ok? && depth.Err? ==>
              r == Err(depth.error)
    ensures var depth := ResolveDepth(desc.bppMode, desc.paletteItem.Some?, InlineColors(desc, image));
            r.Ok? ==>
              depth.Ok? && (r.value.bpp8 <==> depth.value == EightBpp) &&
              (depth.value != QuantizedFourBpp ==>
                 r.value.colorsCount == InlineColors(desc, image) && r.value.filePath == filePath)
    ensures var depth := ResolveDepth(desc.bppMode, desc.paletteItem.Some?, InlineColors(desc, image));
            var tiles := ResolveCompression(desc.tilesCompression, desc.compression);
            var palette := ResolveCompression(desc.paletteCompression, desc.compression);
            var tilemap := ResolveCompression(desc.mapCompression, desc.compression);
            image.width == 240 && image.height == 160 && PaletteItemOf(desc).Ok? && depth.Ok? ==>
              (tiles.Err? ==> r == Err(tiles.error)) &&
              (tiles.Ok? && desc.paletteItem.None? && palette.Err? ==> r == Err(palette.error)) &&
              (tiles.Ok? && (desc.paletteItem.Some? || palette.Ok?) && tilemap.Err? ==> r == Err(tilemap.error)) &&
              (tiles.Ok? && (desc.paletteItem.Some? || palette.Ok?) && tilemap.Ok? ==> r.Ok?)
  {
    if image.width != 240 then Err(InvalidBgDimension("width", image.width))
    else if image.height != 160 then Err(InvalidBgDimension("height", image.height))
    else
      var paletteItem :- PaletteItemOf(desc);
      var colorsCount := if paletteItem.Some? then 0 else image.colorsCount;
      var depth :- ResolveDepth(desc.bppMode, paletteItem.Some?, colorsCount);
      var path := if depth == QuantizedFourBpp then QuantizedPath(buildFolderPath, name) else filePath;
      var colors := if depth == QuantizedFourBpp then quantize(path) else colorsCount;
      var tiles :- ResolveCompression(desc.tilesCompression, desc.compression);
      var palette :- if paletteItem.Some? then Ok(Uncompressed)
                     else ResolveCompression(desc.paletteCompression, desc.compression);
      var tilemap :- ResolveCompression(desc.mapCompression, desc.compression);
      Ok(FixedBgItem(path, name, buildFolderPath, image.width / 8, image.height / 8, depth == EightBpp, true,
                     OrTrue(desc.repeatedTilesReduction), OrTrue(desc.flippedTilesReduction),
                     paletteItem, colors, tiles, palette, tilemap))
  }

  /** An inline palette of at most 16 colours never reads 'bpp_mode'. */
  lemma BuildIgnoresBppModeForSmallPalettes(filePath: string, name: string, buildFolderPath: string, image: ImageInfo,
                                            desc: Descriptor, quantize: string -> int, other: Option<string>)
    requires desc.paletteItem.None? && image.colorsCount <= 16
    ensures Build(filePath, name, buildFolderPath, image, desc, quantize) ==
            Build(filePath, name, buildFolderPath, image, desc.(bppMode := other), quantize)
  {
  }

  /** FixedBgItem.__init__, field by field. */
  method New(filePath: string, name: string, buildFolderPath: string, image: ImageInfo, desc: Descriptor,
             quantize: string -> int) returns (r: Result<FixedBgItem>)
    ensures r == Build(filePath, name, buildFolderPath, image, desc, quantize)
  {
    if image.width != 240 {
      return Err(InvalidBgDimension("width", image.width));
    }
    if image.height != 160 {
      return Err(InvalidBgDimension("height", image.height));
    }
    var path := filePath;
    var mapWidth := image.width / 8;
    var mapHeight := image.height / 8;
    var bpp8 := false;
    var repeated := true;
    if desc.repeatedTilesReduction.Some? {
      repeated := desc.repeatedTilesReduction.value;
    }
    var flipped := true;
    if desc.flippedTilesReduction.Some? {
      flipped := desc.flippedTilesReduction.value;
    }
    var paletteItem: Option<string> := None;
    var colorsCount := image.colorsCount;
    if desc.paletteItem.Some? {
      var checked := CheckPaletteItem(desc.paletteItem.value);
      if checked.Err? {
        return Err(checked.error);
      }
      paletteItem := Some(checked.value);
      colorsCount := 0;
    }
    if paletteItem.Some? || colorsCount > 16 {
      var bppMode := "bpp_8";
      if desc.bppMode.Some? {
        bppMode := desc.bppMode.value;
      } else if paletteItem.Some? {
        return Err(MissingField("bpp_mode"));
      }
      if bppMode == "bpp_8" {
        bpp8 := true;
      } else if bppMode == "bpp_4_auto" {
        if paletteItem.Some? {
          return Err(BppModeNeedsInlinePalette(bppMode));
        }
        path := QuantizedPath(buildFolderPath, name);
        colorsCount := quantize(path);
      } else if bppMode != "bpp_4" && bppMode != "bpp_4_manual" {
        return Err(InvalidBppMode(bppMode));
      }
    }
    var tiles := ResolveCompression(desc.tilesCompression, desc.compression);
    if tiles.Err? {
      return Err(tiles.error);
    }
    var palette := Ok(Uncompressed);
    if paletteItem.None? {
      palette := ResolveCompression(desc.paletteCompression, desc.compression);
      if palette.Err? {
        return Err(palette.error);
      }
    }
    var tilemap := ResolveCompression(desc.mapCompression, desc.compression);
    if tilemap.Err? {
      return Err(tilemap.error);
    }
    return Ok(FixedBgItem(path, name, buildFolderPath, mapWidth, mapHeight, bpp8, true, repeated, flipped,
                          paletteItem, colorsCount, tiles.value, palette.value, tilemap.value));
  }

  /** The map reduction switch for each depth and pair of reductions; at 4
      bits per pixel palette reduction ('p') is always requested. */
  function ReductionFlag(bpp8: bool, repeated: bool, flipped: bool): (f: string)
    ensures |f| >= 4 && f[1] == 'm' && f[2] == 'R' && PlainSwitch(f)
  {
    if bpp8 then
      if repeated && flipped then "-mRtf"
      else if repeated then "-mRt"
      else if flipped then "-mRf"
      else "-mR!"
    else
      if repeated && flipped then "-mRtpf"
      else if repeated then "-mRtp"
      else if flipped then "-mRpf"
      else "-mRp"
  }

  /** The eight combinations give eight distinct switches. */
  lemma ReductionFlagInjective(b1: bool, r1: bool, f1: bool, b2: bool, r2: bool, f2: bool)
    requires ReductionFlag(b1, r1, f1) == ReductionFlag(b2, r2, f2)
    ensures b1 == b2 && r1 == r2 && f1 == f2
  {
  }

  /** The switches of __execute_command, in the order they are appended. */
  function Switches(item: FixedBgItem, encodings: Encodings): seq<string> {
    FixedSwitches(item) + EncodingFlags(encodings) + [OutputFlag(item.buildFolderPath, item.name)]
  }

  /** The switches before the compression flags: palette, depth, map
      reduction and map layout. */
  function FixedSwitches(item: FixedBgItem): (head: seq<string>)
    ensures forall f | f in head :: PlainSwitch(f)
  {
    [PaletteSwitch(item.colorsCount),
     if item.bpp8 then "-gB8" else "-gB4",
     ReductionFlag(item.bpp8, item.repeatedTilesReduction, item.flippedTilesReduction),
     if item.sbb then "-mLs" else "-mLf"]
  }

  function Command(item: FixedBgItem, encodings: Encodings): seq<string> {
    ["grit", item.filePath] + Switches(item, encodings)
  }

  /** The palette entries are emitted exactly for a positive colour count,
      and the depth switch follows the item's depth. */
  lemma {:induction false} CommandPaletteAndDepth(item: FixedBgItem, encodings: Encodings)
    ensures var switches := Switches(item, encodings);
            (switches[0] == PaletteEntriesFlag(item.colorsCount) <==> item.colorsCount > 0) &&
            ("-p!" in switches <==> item.colorsCount <= 0) &&
            ("-gB8" in switches <==> item.bpp8) && ("-gB4" in switches <==> !item.bpp8)
  {
    var head, flags := FixedSwitches(item), EncodingFlags(encodings);
    var output := OutputFlag(item.buildFolderPath, item.name);
    assert Switches(item, encodings)[0] == head[0];
    PlainSwitchIn(head, flags, output, "-p!");
    PlainSwitchIn(head, flags, output, "-gB8");
    PlainSwitchIn(head, flags, output, "-gB4");
  }

  /** Each field's compression flag is present exactly when that field is
      compressed with that method. */
  lemma {:induction false} CommandCompressionFlag(item: FixedBgItem, encodings: Encodings, field: Field, c: Compression)
    requires c == Lz77 || c == RunLength
    ensures CompressionFlags(field, c)[0] in Switches(item, encodings) <==> encodings.Get(field) == c
  {
    var flag := CompressionFlags(field, c)[0];
    assert flag in CompressionFlags(field, c);
    CompressionFlagIn(FixedSwitches(item), EncodingFlags(encodings), OutputFlag(item.buildFolderPath, item.name), flag);
    FlagInEncodingFlags(encodings, field, c);
  }

  /** A trial of one field leaves the two other fields uncompressed. */
  lemma {:induction false} TrialsForceOtherFieldsToNone(item: FixedBgItem, candidate: Compression, c: Compression)
    requires c == Lz77 || c == RunLength
    ensures var tilesTrial := Switches(item, Encodings(candidate, Uncompressed, Uncompressed));
            CompressionFlags(PaletteField, c)[0] !in tilesTrial && CompressionFlags(MapField, c)[0] !in tilesTrial
    ensures var paletteTrial := Switches(item, Encodings(Uncompressed, candidate, Uncompressed));
            CompressionFlags(TilesField, c)[0] !in paletteTrial && CompressionFlags(MapField, c)[0] !in paletteTrial
    ensures var mapTrial := Switches(item, Encodings(Uncompressed, Uncompressed, candidate));
            CompressionFlags(TilesField, c)[0] !in mapTrial && CompressionFlags(PaletteField, c)[0] !in mapTrial
  {
    CommandCompressionFlag(item, Encodings(candidate, Uncompressed, Uncompressed), PaletteField, c);
    CommandCompressionFlag(item, Encodings(candidate, Uncompressed, Uncompressed), MapField, c);
    CommandCompressionFlag(item, Encodings(Uncompressed, candidate, Uncompressed), TilesField, c);
    CommandCompressionFlag(item, Encodings(Uncompressed, candidate, Uncompressed), MapField, c);
    CommandCompressionFlag(item, Encodings(Uncompressed, Uncompressed, candidate), TilesField, c);
    CommandCompressionFlag(item, Encodings(Uncompressed, Uncompressed, candidate), PaletteField, c);
  }

  /** The first part of __execute_command: the image, then the palette,
      depth, reduction and layout switches. */
  method CommandHead(item: FixedBgItem) returns (command: seq<string>)
    ensures command == ["grit", item.filePath] + FixedSwitches(item)
  {
    var palette, depth, layout;
    if item.colorsCount > 0 {
      palette := PaletteEntriesFlag(item.colorsCount);
    } else {
      palette := "-p!";
    }
    if item.bpp8 {
      depth := "-gB8";
    } else {
      depth := "-gB4";
    }
    var reduction := ReductionFlag(item.bpp8, item.repeatedTilesReduction, item.flippedTilesReduction);
    if item.sbb {
      layout := "-mLs";
    } else {
      layout := "-mLf";
    }
    assert palette == PaletteSwitch(item.colorsCount);
    command := ["grit", item.filePath] + [palette, depth, reduction, layout];
  }

  /** __execute_command: the command list built by appends. */
  method BuildCommand(item: FixedBgItem, encodings: Encodings) returns (command: seq<string>)
    ensures command == Command(item, encodings)
  {
    command := CommandHead(item);
    command := AppendEncodingFlags(command, encodings);
    command := command + [OutputFlag(item.buildFolderPath, item.name)];
    Appended(["grit", item.filePath], FixedSwitches(item), EncodingFlags(encodings), OutputFlag(item.buildFolderPath, item.name));
  }

  /** Fixed backgrounds reject more than 1024 tiles on every ' tiles ' line. */
  const TilesLimit := 1024
  const Mode := ScanMode(true, Some(TilesLimit))

  /** __test_tiles_compression: a run with the candidate for the tiles and
      'none' for the palette and the map. */
  function TilesTrial(item: FixedBgItem, codec: Codec): Compression -> Result<int> {
    c => TrialSize(Command(item, Encodings(c, Uncompressed, Uncompressed)), codec, Mode)
  }

  /** __test_palette_compression: the candidate for the palette only. */
  function PaletteTrial(item: FixedBgItem, codec: Codec): Compression -> Result<int> {
    c => TrialSize(Command(item, Encodings(Uncompressed, c, Uncompressed)), codec, Mode)
  }

  /** __test_map_compression: the candidate for the map only. */
  function MapTrial(item: FixedBgItem, codec: Codec): Compression -> Result<int> {
    c => TrialSize(Command(item, Encodings(Uncompressed, Uncompressed, c)), codec, Mode)
  }

  /** The regular_bg_item declaration: tiles, palette and a 30x20 map. */
  datatype FixedBgDeclaration = FixedBgDeclaration(
    tilesCount: int,
    bpp: BppMode,
    tilesCompression: Compression,
    palette: BgPalette,
    mapWidth: int,
    mapHeight: int,
    mapCompression: Compression)

  function HeaderPath(item: FixedBgItem): string {
    item.buildFolderPath + "/bn_fixed_bg_items_" + item.name + ".h"
  }

  /** The compressions `process` settles on, one field after the other. */
  function Settle(item: FixedBgItem, codec: Codec): (r: Result<Encodings>)
    ensures r.Ok? ==>
              Choose(item.tilesCompression, TilesTrial(item, codec)) == Ok(r.value.tiles) &&
              Choose(item.paletteCompression, PaletteTrial(item, codec)) == Ok(r.value.palette) &&
              Choose(item.mapCompression, MapTrial(item, codec)) == Ok(r.value.tilemap)
    ensures r.Ok? ==> r.value.tiles != Auto && r.value.palette != Auto && r.value.tilemap != Auto
    ensures var tiles := Choose(item.tilesCompression, TilesTrial(item, codec));
            var palette := Choose(item.paletteCompression, PaletteTrial(item, codec));
            var tilemap := Choose(item.mapCompression, MapTrial(item, codec));
            (tiles.Err? ==> r == Err(tiles.error)) &&
            (tiles.Ok? && palette.Err? ==> r == Err(palette.error)) &&
            (tiles.Ok? && palette.Ok? && tilemap.Err? ==> r == Err(tilemap.error)) &&
            (tiles.Ok? && palette.Ok? && tilemap.Ok? ==> r.Ok?)
  {
    var tiles :- Choose(item.tilesCompression, TilesTrial(item, codec));
    var palette :- Choose(item.paletteCompression, PaletteTrial(item, codec));
    var tilemap :- Choose(item.mapCompression, MapTrial(item, codec));
    Ok(Encodings(tiles, palette, tilemap))
  }

  /** FixedBgItem.process: settle the compressions, run grit and declare
      what it reported. The ceiling applies to the reported count, before
      the count is doubled at 8 bits per pixel. */
  function Compile(item: FixedBgItem, codec: Codec): (r: Result<Output<FixedBgDeclaration>>)
    ensures r.Ok? ==>
              var d := r.value.declaration;
              var encodings := Settle(item, codec);
              encodings.Ok? &&
              d.tilesCompression == encodings.value.tiles && d.mapCompression == encodings.value.tilemap &&
              (d.bpp == Bpp8 <==> item.bpp8) &&
              d.mapWidth == item.mapWidth && d.mapHeight == item.mapHeight &&
              r.value.headerPath == HeaderPath(item)
    ensures r.Ok? ==>
              var d := r.value.declaration;
              (d.palette.ExternalPalette? <==> item.paletteItem.Some?) &&
              (item.paletteItem.Some? ==> d.palette == ExternalPalette(item.paletteItem.value)) &&
              (item.paletteItem.None? ==>
                 d.palette == LocalPalette(item.colorsCount, d.bpp, Settle(item, codec).value.palette))
    ensures r.Ok? ==>
              var d := r.value.declaration;
              var scan := Run(Command(item, Settle(item, codec).value), codec, Mode);
              scan.Ok? && scan.value.tilesCount.Some? && r.value.totalSize == scan.value.totalSize &&
              scan.value.tilesCount.value <= TilesLimit &&
              d.tilesCount == (if item.bpp8 then 2 else 1) * scan.value.tilesCount.value
    ensures Settle(item, codec).Err? ==> r == Err(Settle(item, codec).error)
    ensures Settle(item, codec).Ok? ==>
              var scan := Run(Command(item, Settle(item, codec).value), codec, Mode);
              (scan.Err? ==> r == Err(scan.error)) &&
              (scan.Ok? && scan.value.tilesCount.None? ==> r == Err(MissingTilesCount)) &&
              (scan.Ok? && scan.value.tilesCount.Some? ==> r.Ok?)
  {
    var encodings :- Settle(item, codec);
    var command := Command(item, encodings);
    var scan :- Run(command, codec, Mode);
    if scan.tilesCount.None? then Err(MissingTilesCount)
    else
      ScanRespectsTilesLimit(codec(command).value, 0, None, Mode);
      var reported := scan.tilesCount.value;
      var bpp := if item.bpp8 then Bpp8 else Bpp4;
      var tilesCount := if item.bpp8 then reported * 2 else reported;
      var palette := if item.paletteItem.Some? then ExternalPalette(item.paletteItem.value)
                     else LocalPalette(item.colorsCount, bpp, encodings.palette);
      Ok(Output(FixedBgDeclaration(tilesCount, bpp, encodings.tiles, palette, item.mapWidth, item.mapHeight,
                                   encodings.tilemap),
                scan.totalSize, HeaderPath(item)))
  }

  /** The final run fails as soon as a ' tiles ' line reports more than
      1024 tiles. */
  lemma {:induction false} CompileRejectsTooManyTiles(item: FixedBgItem, codec: Codec, k: nat)
    requires Settle(item, codec).Ok? && codec(Command(item, Settle(item, codec).value)).Some?
    requires var lines := codec(Command(item, Settle(item, codec).value)).value;
             k < |lines| && ClearBefore(lines, 0, k, Mode) && OverCeiling(lines[k], Mode)
    ensures var lines := codec(Command(item, Settle(item, codec).value)).value;
            Compile(item, codec) == Err(TooManyTiles(FirstInt(Text.Words(lines[k])).value, TilesLimit))
  {
    var lines := codec(Command(item, Settle(item, codec).value)).value;
    ScanRejectsTooManyTiles(lines, 0, None, Mode, k);
  }

  /** FixedBgItem.process, step by step. */
  method Process(item: FixedBgItem, codec: Codec) returns (r: Result<Output<FixedBgDeclaration>>)
    ensures r == Compile(item, codec)
  {
    var tiles := Optimise(item.tilesCompression, TilesTrial(item, codec));
    if tiles.Err? {
      return Err(tiles.error);
    }
    var palette := Optimise(item.paletteCompression, PaletteTrial(item, codec));
    if palette.Err? {
      return Err(palette.error);
    }
    var tilemap := Optimise(item.mapCompression, MapTrial(item, codec));
    if tilemap.Err? {
      return Err(tilemap.error);
    }
    var command := BuildCommand(item, Encodings(tiles.value, palette.value, tilemap.value));
    var scan := RunGrit(command, codec, Mode);
    if scan.Err? {
      return Err(scan.error);
    }
    if scan.value.tilesCount.None? {
      return Err(MissingTilesCount);
    }
    var tilesCount := scan.value.tilesCount.value;
    var bpp := Bpp4;
    if item.bpp8 {
      bpp := Bpp8;
      tilesCount := tilesCount * 2;
    }
    var bgPalette := LocalPalette(item.colorsCount, bpp, palette.value);
    if item.paletteItem.Some? {
      bgPalette := ExternalPalette(item.paletteItem.value);
    }
    var declaration := FixedBgDeclaration(tilesCount, bpp, tiles.value, bgPalette, item.mapWidth, item.mapHeight,
                                          tilemap.value);
    return Ok(Output(declaration, scan.value.totalSize, HeaderPath(item)));
  }
}
