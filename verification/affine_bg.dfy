/** affine_bg.py: an affine background, always 8 bits per pixel, whose
    sides are 128 pixels or a multiple of 256. */
module AffineBg {
  import opened Common
  import opened Util
  import opened GritReport
  import opened Optimizer
  import opened Items
  import Text

  /** A validated affine background item. */
  datatype AffineBgItem = AffineBgItem(
    filePath: string,
    name: string,
    buildFolderPath: string,
    mapWidth: int,
    mapHeight: int,
    repeatedTilesReduction: bool,
    paletteItem: Option<string>,
    colorsCount: int,
    tilesCompression: Compression,
    paletteCompression: Compression,
    mapCompression: Compression)

  /** An affine side: exactly 128, or a multiple of 256. */
  predicate ValidSide(side: int) {
    side == 128 || side % 256 == 0
  }

  /** A valid side is a whole number of 8-pixel map cells. */
  lemma ValidSideCells(side: int)
    requires ValidSide(side)
    ensures (side / 8) * 8 == side
  {
    if side != 128 {
      var k := side / 256;
      assert side == 256 * k;
      assert side / 8 == 32 * k;
    }
  }

  /** AffineBgItem.__init__: both sides checked, one map cell per 8 pixels,
      the repeated tiles reduction on unless disabled, an optional external
      palette (which leaves no local colours and no palette compression),
      and the compressions with their fallbacks. */
  function Build(filePath: string, name: string, buildFolderPath: string, image: ImageInfo, desc: Descriptor): (r: Result<AffineBgItem>)
    ensures !ValidSide(image.width) ==> r == Err(InvalidBgDimension("width", image.width))
    ensures ValidSide(image.width) && !ValidSide(image.height) ==> r == Err(InvalidBgDimension("height", image.height))
    ensures r.Ok? ==>
              var item := r.value;
              ValidSide(image.width) && ValidSide(image.height) &&
              item.mapWidth * 8 == image.width && item.mapHeight * 8 == image.height &&
              item.filePath == filePath && item.name == name && item.buildFolderPath == buildFolderPath &&
              item.repeatedTilesReduction == OrTrue(desc.repeatedTilesReduction) &&
              item.paletteItem == desc.paletteItem &&
              ResolveCompression(desc.tilesCompression, desc.compression) == Ok(item.tilesCompression) &&
              ResolveCompression(desc.mapCompression, desc.compression) == Ok(item.mapCompression)
    ensures r.Ok? && desc.paletteItem.Some? ==>
              ValidPaletteName(desc.paletteItem.value) &&
              r.value.colorsCount == 0 && r.value.paletteCompression == Uncompressed
    ensures r.Ok? && desc.paletteItem.None? ==>
              r.value.colorsCount == image.colorsCount &&
              ResolveCompression(desc.paletteCompression, desc.compression) == Ok(r.value.paletteCompression)
    ensures ValidSide(image.width) && ValidSide(image.height) && PaletteItemOf(desc).Err? ==>
              r == Err(PaletteItemOf(desc).error)
    ensures var tiles := ResolveCompression(desc.tilesCompression, desc.compression);
            var palette := ResolveCompression(desc.paletteCompression, desc.compression);
            var tilemap := ResolveCompression(desc.mapCompression, desc.compression);
            ValidSide(image.width) && ValidSide(image.height) && PaletteItemOf(desc).Ok? ==>
              (tiles.Err? ==> r == Err(tiles.error)) &&
              (tiles.Ok? && desc.paletteItem.None? && palette.Err? ==> r == Err(palette.error)) &&
              (tiles.Ok? && (desc.paletteItem.Some? || palette.Ok?) && tilemap.Err? ==> r == Err(tilemap.error)) &&
              (tiles.Ok? && (desc.paletteItem.Some? || palette.Ok?) && tilemap.Ok? ==> r.Ok?)
  {
    if !ValidSide(image.width) then Err(InvalidBgDimension("width", image.width))
    else if !ValidSide(image.height) then Err(InvalidBgDimension("height", image.height))
    else
      ValidSideCells(image.width);
      ValidSideCells(image.height);
      var paletteItem :- PaletteItemOf(desc);
      var colorsCount := if paletteItem.Some? then 0 else image.colorsCount;
      var tiles :- ResolveCompression(desc.tilesCompression, desc.compression);
      var palette :- if paletteItem.Some? then Ok(Uncompressed)
                     else ResolveCompression(desc.paletteCompression, desc.compression);
      var tilemap :- ResolveCompression(desc.mapCompression, desc.compression);
      Ok(AffineBgItem(filePath, name, buildFolderPath, image.width / 8, image.height / 8,
                      OrTrue(desc.repeatedTilesReduction), paletteItem, colorsCount, tiles, palette, tilemap))
  }

  /** AffineBgItem.__init__, field by field. */
  method New(filePath: string, name: string, buildFolderPath: string, image: ImageInfo, desc: Descriptor)
    returns (r: Result<AffineBgItem>)
    ensures r == Build(filePath, name, buildFolderPath, image, desc)
  {
    if image.width != 128 && image.width % 256 != 0 {
      return Err(InvalidBgDimension("width", image.width));
    }
    if image.height != 128 && image.height % 256 != 0 {
      return Err(InvalidBgDimension("height", image.height));
    }
    var mapWidth := image.width / 8;
    var mapHeight := image.height / 8;
    var repeated := true;
    if desc.repeatedTilesReduction.Some? {
      repeated := desc.repeatedTilesReduction.value;
    }
    var paletteItem: Option<string> := None;
    var colorsCount := image.colorsCount;
    if desc.paletteItem.Some? {
      var checked := CheckPaletteItem(desc.paletteItem.value);
      if checked.Err? {
        return Err(checked.error);
      }
      paletteItem := Some(checked.value);
      colorsCount := 0;
    }
    var tiles := ResolveCompression(desc.tilesCompression, desc.compression);
    if tiles.Err? {
      return Err(tiles.error);
    }
    var palette := Ok(Uncompressed);
    if paletteItem.None? {
      palette := ResolveCompression(desc.paletteCompression, desc.compression);
      if palette.Err? {
        return Err(palette.error);
      }
    }
    var tilemap := ResolveCompression(desc.mapCompression, desc.compression);
    if tilemap.Err? {
      return Err(tilemap.error);
    }
    return Ok(AffineBgItem(filePath, name, buildFolderPath, mapWidth, mapHeight, repeated, paletteItem, colorsCount,
                           tiles.value, palette.value, tilemap.value));
  }

  /** The switches of __execute_command, in the order they are appended. */
  function Switches(item: AffineBgItem, encodings: Encodings): seq<string> {
    FixedSwitches(item) + EncodingFlags(encodings) + [OutputFlag(item.buildFolderPath, item.name)]
  }

  /** The switches before the compression flags: depth, layout, map entry
      size, palette and repeated tiles reduction. */
  function FixedSwitches(item: AffineBgItem): (head: seq<string>)
    ensures forall f | f in head :: PlainSwitch(f)
  {
    ["-gB8", "-mLa", "-mu8", PaletteSwitch(item.colorsCount),
     if item.repeatedTilesReduction then "-mRt" else "-mR!"]
  }

  function Command(item: AffineBgItem, encodings: Encodings): seq<string> {
    ["grit", item.filePath] + Switches(item, encodings)
  }

  /** The command always starts with 8 bits per pixel, an affine map layout
      and 8-bit map entries, and emits the palette entries exactly for a
      positive colour count. */
  lemma {:induction false} CommandPaletteAndLayout(item: AffineBgItem, encodings: Encodings)
    ensures var switches := Switches(item, encodings);
            switches[..3] == ["-gB8", "-mLa", "-mu8"] &&
            (switches[3] == PaletteEntriesFlag(item.colorsCount) <==> item.colorsCount > 0) &&
            ("-p!" in switches <==> item.colorsCount <= 0)
  {
    var head, flags := FixedSwitches(item), EncodingFlags(encodings);
    var output := OutputFlag(item.buildFolderPath, item.name);
    var switches := Switches(item, encodings);
    assert switches[..3] == head[..3];
    assert switches[3] == head[3];
    PlainSwitchIn(head, flags, output, "-p!");
  }

  /** Repeated tile reduction is requested exactly when it is on. */
  lemma {:induction false} CommandReduction(item: AffineBgItem, encodings: Encodings)
    ensures var switches := Switches(item, encodings);
            ("-mRt" in switches <==> item.repeatedTilesReduction) &&
            ("-mR!" in switches <==> !item.repeatedTilesReduction)
  {
    var head, flags := FixedSwitches(item), EncodingFlags(encodings);
    var output := OutputFlag(item.buildFolderPath, item.name);
    PlainSwitchIn(head, flags, output, "-mRt");
    PlainSwitchIn(head, flags, output, "-mR!");
  }

  /** Each field's compression flag is present exactly when that field is
      compressed with that method. */
  lemma {:induction false} CommandCompressionFlag(item: AffineBgItem, encodings: Encodings, field: Field, c: Compression)
    requires c == Lz77 || c == RunLength
    ensures CompressionFlags(field, c)[0] in Switches(item, encodings) <==> encodings.Get(field) == c
  {
    var flag := CompressionFlags(field, c)[0];
    assert flag in CompressionFlags(field, c);
    CompressionFlagIn(FixedSwitches(item), EncodingFlags(encodings), OutputFlag(item.buildFolderPath, item.name), flag);
    FlagInEncodingFlags(encodings, field, c);
  }

  /** The first part of __execute_command: the image and the fixed switches,
      then the palette and reduction switches. */
  method CommandHead(item: AffineBgItem) returns (command: seq<string>)
    ensures command == ["grit", item.filePath] + FixedSwitches(item)
  {
    var palette, reduction;
    if item.colorsCount > 0 {
      palette := PaletteEntriesFlag(item.colorsCount);
    } else {
      palette := "-p!";
    }
    if item.repeatedTilesReduction {
      reduction := "-mRt";
    } else {
      reduction := "-mR!";
    }
    assert ["-gB8", "-mLa", "-mu8", palette, reduction] == FixedSwitches(item);
    command := ["grit", item.filePath, "-gB8", "-mLa", "-mu8"] + [palette] + [reduction];
  }

  /** __execute_command: the command list built by appends. */
  method BuildCommand(item: AffineBgItem, encodings: Encodings) returns (command: seq<string>)
    ensures command == Command(item, encodings)
  {
    command := CommandHead(item);
    command := AppendEncodingFlags(command, encodings);
    command := command + [OutputFlag(item.buildFolderPath, item.name)];
    Appended(["grit", item.filePath], FixedSwitches(item), EncodingFlags(encodings), OutputFlag(item.buildFolderPath, item.name));
  }

  /** Affine backgrounds reject more than 256 tiles on every ' tiles ' line. */
  const TilesLimit := 256
  const Mode := ScanMode(true, Some(TilesLimit))

  /** __test_tiles_compression: the candidate for the tiles only. */
  function TilesTrial(item: AffineBgItem, codec: Codec): Compression -> Result<int> {
    c => TrialSize(Command(item, Encodings(c, Uncompressed, Uncompressed)), codec, Mode)
  }

  /** __test_palette_compression: the candidate for the palette only. */
  function PaletteTrial(item: AffineBgItem, codec: Codec): Compression -> Result<int> {
    c => TrialSize(Command(item, Encodings(Uncompressed, c, Uncompressed)), codec, Mode)
  }

  /** __test_map_compression: the candidate for the map only. */
  function MapTrial(item: AffineBgItem, codec: Codec): Compression -> Result<int> {
    c => TrialSize(Command(item, Encodings(Uncompressed, Uncompressed, c)), codec, Mode)
  }

  /** A trial of one field leaves the two other fields uncompressed. */
  lemma {:induction false} TrialsForceOtherFieldsToNone(item: AffineBgItem, candidate: Compression, c: Compression)
    requires c == Lz77 || c == RunLength
    ensures var tilesTrial := Switches(item, Encodings(candidate, Uncompressed, Uncompressed));
            CompressionFlags(PaletteField, c)[0] !in tilesTrial && CompressionFlags(MapField, c)[0] !in tilesTrial
    ensures var paletteTrial := Switches(item, Encodings(Uncompressed, candidate, Uncompressed));
            CompressionFlags(TilesField, c)[0] !in paletteTrial && CompressionFlags(MapField, c)[0] !in paletteTrial
    ensures var mapTrial := Switches(item, Encodings(Uncompressed, Uncompressed, candidate));
            CompressionFlags(TilesField, c)[0] !in mapTrial && CompressionFlags(PaletteField, c)[0] !in mapTrial
  {
    CommandCompressionFlag(item, Encodings(candidate, Uncompressed, Uncompressed), PaletteField, c);
    CommandCompressionFlag(item, Encodings(candidate, Uncompressed, Uncompressed), MapField, c);
    CommandCompressionFlag(item, Encodings(Uncompressed, candidate, Uncompressed), TilesField, c);
    CommandCompressionFlag(item, Encodings(Uncompressed, candidate, Uncompressed), MapField, c);
    CommandCompressionFlag(item, Encodings(Uncompressed, Uncompressed, candidate), TilesField, c);
    CommandCompressionFlag(item, Encodings(Uncompressed, Uncompressed, candidate), PaletteField, c);
  }

  /** The affine_bg_item declaration; a local palette is always 8 bits per
      pixel. */
  datatype AffineBgDeclaration = AffineBgDeclaration(
    tilesCount: int,
    tilesCompression: Compression,
    palette: BgPalette,
    mapWidth: int,
    mapHeight: int,
    mapCompression: Compression)

  function HeaderPath(item: AffineBgItem): string {
    item.buildFolderPath + "/bn_affine_bg_items_" + item.name + ".h"
  }

  /** The compressions `process` settles on, one field after the other. */
  function Settle(item: AffineBgItem, codec: Codec): (r: Result<Encodings>)
    ensures r.Ok? ==>
              Choose(item.tilesCompression, TilesTrial(item, codec)) == Ok(r.value.tiles) &&
              Choose(item.paletteCompression, PaletteTrial(item, codec)) == Ok(r.value.palette) &&
              Choose(item.mapCompression, MapTrial(item, codec)) == Ok(r.value.tilemap)
    ensures r.Ok? ==> r.value.tiles != Auto && r.value.palette != Auto && r.value.tilemap != Auto
    ensures var tiles := Choose(item.tilesCompression, TilesTrial(item, codec));
            var palette := Choose(item.paletteCompression, PaletteTrial(item, codec));
            var tilemap := Choose(item.mapCompression, MapTrial(item, codec));
            (tiles.Err? ==> r == Err(tiles.error)) &&
            (tiles.Ok? && palette.Err? ==> r == Err(palette.error)) &&
            (tiles.Ok? && palette.Ok? && tilemap.Err? ==> r == Err(tilemap.error)) &&
            (tiles.Ok? && palette.Ok? && tilemap.Ok? ==> r.Ok?)
  {
    var tiles :- Choose(item.tilesCompression, TilesTrial(item, codec));
    var palette :- Choose(item.paletteCompression, PaletteTrial(item, codec));
    var tilemap :- Choose(item.mapCompression, MapTrial(item, codec));
    Ok(Encodings(tiles, palette, tilemap))
  }

  /** AffineBgItem.process: settle the compressions, run grit and declare
      what it reported. The ceiling applies to the reported count, and the
      declared count is always twice that. */
  function Compile(item: AffineBgItem, codec: Codec): (r: Result<Output<AffineBgDeclaration>>)
    ensures r.Ok? ==>
              var d := r.value.declaration;
              var encodings := Settle(item, codec);
              encodings.Ok? &&
              d.tilesCompression == encodings.value.tiles && d.mapCompression == encodings.value.tilemap &&
              d.mapWidth == item.mapWidth && d.mapHeight == item.mapHeight &&
              (item.paletteItem.Some? ==> d.palette == ExternalPalette(item.paletteItem.value)) &&
              (item.paletteItem.None? ==> d.palette == LocalPalette(item.colorsCount, Bpp8, encodings.value.palette)) &&
              r.value.headerPath == HeaderPath(item)
    ensures r.Ok? ==>
              var scan := Run(Command(item, Settle(item, codec).value), codec, Mode);
              scan.Ok? && scan.value.tilesCount.Some? && r.value.totalSize == scan.value.totalSize &&
              scan.value.tilesCount.value <= TilesLimit &&
              r.value.declaration.tilesCount == 2 * scan.value.tilesCount.value
    ensures Settle(item, codec).Err? ==> r == Err(Settle(item, codec).error)
    ensures Settle(item, codec).Ok? ==>
              var scan := Run(Command(item, Settle(item, codec).value), codec, Mode);
              (scan.Err? ==> r == Err(scan.error)) &&
              (scan.Ok? && scan.value.tilesCount.None? ==> r == Err(MissingTilesCount)) &&
              (scan.Ok? && scan.value.tilesCount.Some? ==> r.Ok?)
  {
    var encodings :- Settle(item, codec);
    var command := Command(item, encodings);
    var scan :- Run(command, codec, Mode);
    if scan.tilesCount.None? then Err(MissingTilesCount)
    else
      ScanRespectsTilesLimit(codec(command).value, 0, None, Mode);
      var palette := if item.paletteItem.Some? then ExternalPalette(item.paletteItem.value)
                     else LocalPalette(item.colorsCount, Bpp8, encodings.palette);
      Ok(Output(AffineBgDeclaration(scan.tilesCount.value * 2, encodings.tiles, palette, item.mapWidth,
                                    item.mapHeight, encodings.tilemap),
                scan.totalSize, HeaderPath(item)))
  }

  /** The final run fails as soon as a ' tiles ' line reports more than
      256 tiles. */
  lemma {:induction false} CompileRejectsTooManyTiles(item: AffineBgItem, codec: Codec, k: nat)
    requires Settle(item, codec).Ok? && codec(Command(item, Settle(item, codec).value)).Some?
    requires var lines := codec(Command(item, Settle(item, codec).value)).value;
             k < |lines| && ClearBefore(lines, 0, k, Mode) && OverCeiling(lines[k], Mode)
    ensures var lines := codec(Command(item, Settle(item, codec).value)).value;
            Compile(item, codec) == Err(TooManyTiles(FirstInt(Text.Words(lines[k])).value, TilesLimit))
  {
    var lines := codec(Command(item, Settle(item, codec).value)).value;
    ScanRejectsTooManyTiles(lines, 0, None, Mode, k);
  }

  /** AffineBgItem.process, step by step. */
  method Process(item: AffineBgItem, codec: Codec) returns (r: Result<Output<AffineBgDeclaration>>)
    ensures r == Compile(item, codec)
  {
    var tiles := Optimise(item.tilesCompression, TilesTrial(item, codec));
    if tiles.Err? {
      return Err(tiles.error);
    }
    var palette := Optimise(item.paletteCompression, PaletteTrial(item, codec));
    if palette.Err? {
      return Err(palette.error);
    }
    var tilemap := Optimise(item.mapCompression, MapTrial(item, codec));
    if tilemap.Err? {
      return Err(tilemap.error);
    }
    var command := BuildCommand(item, Encodings(tiles.value, palette.value, tilemap.value));
    var scan := RunGrit(command, codec, Mode);
    if scan.Err? {
      return Err(scan.error);
    }
    if scan.value.tilesCount.None? {
      return Err(MissingTilesCount);
    }
    var tilesCount := scan.value.tilesCount.value;
    tilesCount := tilesCount * 2;
    var bgPalette := LocalPalette(item.colorsCount, Bpp8, palette.value);
    if item.paletteItem.Some? {
      bgPalette := ExternalPalette(item.paletteItem.value);
    }
    var declaration := AffineBgDeclaration(tilesCount, tiles.value, bgPalette, item.mapWidth, item.mapHeight,
                                           tilemap.value);
    return Ok(Output(declaration, scan.value.totalSize, HeaderPath(item)));
  }
}
