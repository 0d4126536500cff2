/** What every graphics item shares: the parsed JSON descriptor, the
    three-level compression fallback, the external palette name rule of the
    background items, and the abstract grit backend. */
module Items {
  import opened Common
  import opened Text
  import opened Util
  import opened GritReport

  /** The JSON descriptor of an item. A field is `None` when its key is
      absent; values arrive already converted by `int()`, `str()` and
      `bool()`. */
  datatype Descriptor = Descriptor(
    graphicsType: Option<string>,
    width: Option<int>,
    height: Option<int>,
    colorsCount: Option<int>,
    compression: Option<string>,
    tilesCompression: Option<string>,
    paletteCompression: Option<string>,
    mapCompression: Option<string>,
    paletteItem: Option<string>,
    bppMode: Option<string>,
    repeatedTilesReduction: Option<bool>,
    flippedTilesReduction: Option<bool>)

  /** The grit backend: given the command words, either the lines of the
      report it writes, or `None` when it exits with a non-zero status. */
  type Codec = seq<string> -> Option<seq<string>>

  /** The three independently compressed data streams of an item. */
  datatype Field = TilesField | PaletteField | MapField

  /** The header an item writes: its declaration, the total size grit
      reported and the path of the header file. */
  datatype Output<D> = Output(declaration: D, totalSize: int, headerPath: string)

  datatype BppMode = Bpp4 | Bpp8

  function BppLabel(bpp: BppMode): string {
    match bpp
    case Bpp4 => "bpp_mode::BPP_4"
    case Bpp8 => "bpp_mode::BPP_8"
  }

  /** The first present value among a specific key and the generic key. */
  function FirstPresent(specific: Option<string>, generic: Option<string>, default: string): string {
    if specific.Some? then specific.value
    else if generic.Some? then generic.value
    else default
  }

  /** The fallback chain of every compression field: the specific key if
      present, else the generic 'compression' key, else 'none'. A present
      value is validated, and an invalid one raises rather than falling
      through to the next level. */
  function ResolveCompression(specific: Option<string>, generic: Option<string>): (r: Result<Compression>)
    ensures specific.Some? ==> r == ValidateCompression(specific.value)
    ensures specific.None? && generic.Some? ==> r == ValidateCompression(generic.value)
    ensures specific.None? && generic.None? ==> r == Ok(Uncompressed)
  {
    match specific
    case Some(s) => ValidateCompression(s)
    case None =>
      match generic
      case Some(g) => ValidateCompression(g)
      case None => Ok(Uncompressed)
  }

  /** The chain is the validation of the first present spelling, with
      'none' as the last level. */
  lemma ResolveCompressionIsFirstPresent(specific: Option<string>, generic: Option<string>)
    ensures ResolveCompression(specific, generic) == ValidateCompression(FirstPresent(specific, generic, "none"))
  {
  }

  predicate IsLowercase(c: char) {
    'a' <= c <= 'z'
  }

  predicate IsPaletteNameChar(c: char) {
    c == '_' || IsLowercase(c) || '0' <= c <= '9'
  }

  /** A palette item name: non-empty, starting with a lowercase letter, and
      made of lowercase letters, digits and underscores. */
  predicate ValidPaletteName(name: string) {
    |name| > 0 && IsLowercase(name[0]) && forall i | 0 <= i < |name| :: IsPaletteNameChar(name[i])
  }

  /** The index of the first character outside [_a-z0-9] from `i` on. */
  function FirstInvalidFrom(name: string, i: nat): (k: nat)
    requires i <= |name|
    requires exists j | i <= j < |name| :: !IsPaletteNameChar(name[j])
    ensures i <= k < |name| && !IsPaletteNameChar(name[k])
    ensures forall j | i <= j < k :: IsPaletteNameChar(name[j])
    decreases |name| - i
  {
    if !IsPaletteNameChar(name[i]) then i else FirstInvalidFrom(name, i + 1)
  }

  /** The 'palette_item' check of the background items: the name is
      accepted exactly when it is valid; otherwise the error is the empty
      name, or names the first offending character. */
  function PaletteItemCheck(name: string): (r: Result<string>)
    ensures r.Ok? <==> ValidPaletteName(name)
    ensures r.Ok? ==> r.value == name
    ensures name == [] ==> r == Err(EmptyPaletteItem)
    ensures name != [] && !IsLowercase(name[0]) ==> r == Err(InvalidPaletteItem(name, name[0]))
    ensures name != [] && IsLowercase(name[0]) && r.Err? ==>
              exists k | 0 < k < |name| :: r == Err(InvalidPaletteItem(name, name[k])) && !IsPaletteNameChar(name[k]) &&
                forall j | 0 <= j < k :: IsPaletteNameChar(name[j])
  {
    if name == [] then Err(EmptyPaletteItem)
    else if !IsLowercase(name[0]) then Err(InvalidPaletteItem(name, name[0]))
    else if ValidPaletteName(name) then Ok(name)
    else Err(InvalidPaletteItem(name, name[FirstInvalidFrom(name, 0)]))
  }

  /** The character loop of __init__. */
  method CheckPaletteItem(name: string) returns (r: Result<string>)
    ensures r == PaletteItemCheck(name)
  {
    if |name| == 0 {
      return Err(EmptyPaletteItem);
    }
    if !IsLowercase(name[0]) {
      return Err(InvalidPaletteItem(name, name[0]));
    }
    for i := 0 to |name|
      invariant forall j | 0 <= j < i :: IsPaletteNameChar(name[j])
    {
      if !IsPaletteNameChar(name[i]) {
        assert FirstInvalidFrom(name, 0) == i;
        return Err(InvalidPaletteItem(name, name[i]));
      }
    }
    return Ok(name);
  }

  /** A boolean key that defaults to true. */
  function OrTrue(b: Option<bool>): bool {
    b.None? || b.value
  }

  /** The 'palette_item' key: absent, or a checked external palette name. */
  function PaletteItemOf(desc: Descriptor): (r: Result<Option<string>>)
    ensures desc.paletteItem.None? ==> r == Ok(None)
    ensures desc.paletteItem.Some? ==>
              (r.Ok? <==> ValidPaletteName(desc.paletteItem.value)) &&
              (r.Ok? ==> r.value == desc.paletteItem) &&
              (r.Err? ==> r.error == PaletteItemCheck(desc.paletteItem.value).error)
  {
    match desc.paletteItem
    case None => Ok(None)
    case Some(item) =>
      var checked :- PaletteItemCheck(item);
      Ok(Some(checked))
  }

  /** `-pe<n>` for a local palette, `-p!` when the palette is external. */
  function PaletteSwitch(colorsCount: int): (f: string)
    ensures f == PaletteEntriesFlag(colorsCount) <==> colorsCount > 0
    ensures f == "-p!" <==> colorsCount <= 0
    ensures PlainSwitch(f)
  {
    if colorsCount > 0 then PaletteEntriesFlag(colorsCount) else "-p!"
  }

  /** The palette a background declares: its own colours with their depth
      and compression, or a reference to an external palette item. */
  datatype BgPalette =
    | LocalPalette(colorsCount: int, bpp: BppMode, compression: Compression)
    | ExternalPalette(name: string)

  /** The compressions used by one grit run: each of tiles, palette and map. */
  datatype Encodings = Encodings(tiles: Compression, palette: Compression, tilemap: Compression) {
    function Get(field: Field): Compression {
      match field
      case TilesField => tiles
      case PaletteField => palette
      case MapField => tilemap
    }
  }

  /** A compression flag: four characters, the third a 'z'. */
  predicate IsCompressionFlag(f: string) {
    |f| == 4 && f[1] != 'o' && f[2] == 'z'
  }

  /** A switch that is neither a compression flag nor the output flag. */
  predicate PlainSwitch(f: string) {
    |f| >= 3 && f[1] != 'o' && f[2] != 'z'
  }

  /** The field letter a compression flag carries second. */
  function FieldLetter(field: Field): char {
    match field
    case TilesField => 'g'
    case PaletteField => 'p'
    case MapField => 'm'
  }

  /** The grit flag selecting the compression of one field ('-g' tiles,
      '-p' palette, '-m' map, then 'zl' for lz77 or 'zr' for run_length);
      'none' adds no flag. */
  function CompressionFlags(field: Field, c: Compression): (flags: seq<string>)
    ensures |flags| <= 1
    ensures flags == [] <==> c != Lz77 && c != RunLength
    ensures forall f | f in flags ::
              IsCompressionFlag(f) && f[1] == FieldLetter(field) && f[3] == (if c == Lz77 then 'l' else 'r')
  {
    if c == Lz77 then
      match field
      case TilesField => ["-gzl"]
      case PaletteField => ["-pzl"]
      case MapField => ["-mzl"]
    else if c == RunLength then
      match field
      case TilesField => ["-gzr"]
      case PaletteField => ["-pzr"]
      case MapField => ["-mzr"]
    else []
  }

  /** The compression flags of one run: tiles, then palette, then map. */
  function EncodingFlags(encodings: Encodings): (flags: seq<string>)
    ensures forall f | f in flags :: IsCompressionFlag(f)
  {
    CompressionFlags(TilesField, encodings.tiles) + CompressionFlags(PaletteField, encodings.palette) +
    CompressionFlags(MapField, encodings.tilemap)
  }

  /** A field's flag for a method is in a run's flags exactly when that
      field uses that method. */
  lemma {:induction false} FlagInEncodingFlags(encodings: Encodings, field: Field, c: Compression)
    requires c == Lz77 || c == RunLength
    ensures CompressionFlags(field, c)[0] in EncodingFlags(encodings) <==> encodings.Get(field) == c
  {
    var flag := CompressionFlags(field, c)[0];
    assert flag in CompressionFlags(field, c);
    var tiles := CompressionFlags(TilesField, encodings.tiles);
    var palette := CompressionFlags(PaletteField, encodings.palette);
    var tilemap := CompressionFlags(MapField, encodings.tilemap);
    assert flag in tiles <==> field == TilesField && encodings.tiles == c;
    assert flag in palette <==> field == PaletteField && encodings.palette == c;
    assert flag in tilemap <==> field == MapField && encodings.tilemap == c;
    assert EncodingFlags(encodings) == tiles + palette + tilemap;
  }

  /** In a switch list of fixed switches, then compression flags, then the
      output flag, a plain switch is present exactly when it is fixed. */
  lemma {:induction false} PlainSwitchIn(head: seq<string>, flags: seq<string>, output: string, s: string)
    requires forall f | f in flags :: IsCompressionFlag(f)
    requires |output| >= 2 && output[1] == 'o'
    requires PlainSwitch(s)
    ensures s in head + flags + [output] <==> s in head
  {
    assert s !in flags;
    assert s != output;
  }

  /** In the same list, a compression flag is present exactly when it is
      among the compression flags. */
  lemma {:induction false} CompressionFlagIn(head: seq<string>, flags: seq<string>, output: string, s: string)
    requires forall f | f in head :: PlainSwitch(f)
    requires |output| >= 2 && output[1] == 'o'
    requires IsCompressionFlag(s)
    ensures s in head + flags + [output] <==> s in flags
  {
    assert s !in head;
    assert s != output;
  }

  /** The if/elif block of __execute_command that appends one field's
      compression flag. */
  method AppendCompressionFlag(command: seq<string>, field: Field, c: Compression) returns (extended: seq<string>)
    ensures extended == command + CompressionFlags(field, c)
  {
    extended := command;
    if c == Lz77 {
      match field
      case TilesField => extended := extended + ["-gzl"];
      case PaletteField => extended := extended + ["-pzl"];
      case MapField => extended := extended + ["-mzl"];
    } else if c == RunLength {
      match field
      case TilesField => extended := extended + ["-gzr"];
      case PaletteField => extended := extended + ["-pzr"];
      case MapField => extended := extended + ["-mzr"];
    }
  }

  /** A command built by appends, piece after piece, is the image part
      followed by the switches. */
  lemma Appended(image: seq<string>, head: seq<string>, flags: seq<string>, output: string)
    ensures image + head + flags + [output] == image + (head + flags + [output])
  {
  }

  /** The three if/elif blocks of the backgrounds' __execute_command:
      tiles, then palette, then map. */
  method AppendEncodingFlags(command: seq<string>, encodings: Encodings) returns (extended: seq<string>)
    ensures extended == command + EncodingFlags(encodings)
  {
    extended := AppendCompressionFlag(command, TilesField, encodings.tiles);
    extended := AppendCompressionFlag(extended, PaletteField, encodings.palette);
    extended := AppendCompressionFlag(extended, MapField, encodings.tilemap);
  }

  /** `-o<build folder>/<name>_bn_gfx`: where grit writes its report. */
  function OutputFlag(buildFolderPath: string, name: string): (f: string)
    ensures |f| >= 2 && f[..2] == "-o" && f[1] == 'o'
  {
    "-o" + buildFolderPath + "/" + name + "_bn_gfx"
  }

  /** `-pe<n>`: the palette entry count grit emits. */
  function PaletteEntriesFlag(colorsCount: int): (f: string)
    ensures |f| >= 4 && f[..3] == "-pe" && PlainSwitch(f)
  {
    "-pe" + IntToString(colorsCount)
  }

  /** The text after `-pe` is the decimal count: it reads back as the count. */
  lemma {:induction false} PaletteEntriesFlagCount(colorsCount: int)
    ensures PaletteEntriesFlag(colorsCount)[..3] == "-pe"
    ensures ParseInt(PaletteEntriesFlag(colorsCount)[3..]) == Some(colorsCount)
  {
    assert PaletteEntriesFlag(colorsCount)[3..] == IntToString(colorsCount);
    ParseIntToString(colorsCount);
  }

  /** One grit run followed by the report scan of __write_header; a
      non-zero exit raises before any report is read. */
  function Run(command: seq<string>, codec: Codec, mode: ScanMode): Result<Scan> {
    match codec(command)
    case None => Err(CodecFailed)
    case Some(lines) => ScanReport(lines, mode)
  }

  /** __execute_command followed by __write_header's reading loop. */
  method RunGrit(command: seq<string>, codec: Codec, mode: ScanMode) returns (r: Result<Scan>)
    ensures codec(command).None? ==> r == Err(CodecFailed)
    ensures codec(command).Some? ==> r == ScanReport(codec(command).value, mode)
    ensures r == Run(command, codec, mode)
  {
    var report := codec(command);
    if report.None? {
      return Err(CodecFailed);
    }
    r := ReadReport(report.value, mode);
  }

  /** What a trial run (`skip_write`) returns: the reported total size. */
  function TrialSize(command: seq<string>, codec: Codec, mode: ScanMode): (r: Result<int>)
    ensures r.Ok? <==> Run(command, codec, mode).Ok?
    ensures r.Ok? ==> r.value == Run(command, codec, mode).value.totalSize
  {
    var scan :- Run(command, codec, mode);
    Ok(scan.totalSize)
  }

  /** A trial's value is the last word of the first 'Total size:' line of
      grit's report. */
  lemma {:induction false} TrialSizeIsFirstTotal(command: seq<string>, codec: Codec, mode: ScanMode)
    requires TrialSize(command, codec, mode).Ok?
    ensures codec(command).Some?
    ensures var lines := codec(command).value;
            exists k | 0 <= k < |lines| ::
              IsTotalLine(lines[k]) && (forall j | 0 <= j < k :: !IsTotalLine(lines[j])) &&
              LastInt(lines[k]) == Some(TrialSize(command, codec, mode).value)
  {
    ScanStopsAtFirstTotalLine(codec(command).value, 0, None, mode);
  }
}
